/** The façade over one metro line A–E: boarding with the error swallowed,
    removal, and the composite "move, then let off whoever arrived" step.
    The façade's single shared system is an explicit `MetroSystem` that
    each operation receives. */
module Api {
  import opened Classes

  /** The five stations of the line the façade runs. */
  const LINE: seq<string> := ["A", "B", "C", "D", "E"]

  /** The façade's system: at station A, nobody on board. */
  method NewMetro() returns (m: MetroSystem)
    ensures fresh(m) && m.Valid()
    ensures m.stations == LINE && m.currentIdx == 0 && m.passengers == []
    ensures m.CurrentStation() == "A"
  {
    m := new MetroSystem(LINE);
  }

  /** Restarts the line: first station, nobody on board. */
  method ResetState(m: MetroSystem)
    requires m.Valid()
    modifies m
    ensures m.Valid()
    ensures m.currentIdx == 0 && m.passengers == []
    ensures m.CurrentStation() == m.stations[0]
    ensures m.stations == LINE ==> m.CurrentStation() == "A"
  {
    m.Reset();
  }

  /** Boards `name` for `destination`; an unknown destination is refused
      and, the refusal being caught, leaves the system as it was. A rider
      bound for the current station stays on board. */
  method AddPassenger(m: MetroSystem, name: string, destination: string)
    requires m.Valid()
    modifies m`passengers
    ensures m.Valid()
    ensures destination in m.stations ==> m.passengers == old(m.passengers) + [Passenger(name, destination)]
    ensures destination !in m.stations ==> m.passengers == old(m.passengers)
  {
    var passenger := Passenger(name, destination);
    var outcome := m.AddPassenger(passenger);
  }

  /** Takes off every rider called `name` bound for `atStation`; the other
      riders stay, and nobody stays who matches. */
  method RemovePassenger(m: MetroSystem, name: string, atStation: string)
    requires m.Valid()
    modifies m`passengers
    ensures m.Valid()
    ensures m.passengers == Without(old(m.passengers), name, atStation)
    ensures forall p :: p in m.passengers <==> p in old(m.passengers) && !(p.name == name && p.destination == atStation)
    ensures (forall p :: p in old(m.passengers) ==> p.name != name) ==> m.passengers == old(m.passengers)
  {
    if forall p :: p in m.passengers ==> p.name != name {
      WithoutNoMatch(m.passengers, name, atStation);
    }
    m.Remove(name, atStation);
  }

  /** Moves the train one station on and lets off, all at once, everybody
      bound for the station reached; `alighted` is who got off there, in
      boarding order. */
  method MoveTrain(m: MetroSystem) returns (alighted: seq<Passenger>)
    requires m.Valid()
    modifies m
    ensures m.Valid()
    ensures m.currentIdx == Next(old(m.currentIdx), |m.stations|)
    ensures alighted == Arriving(old(m.passengers), m.CurrentStation())
    ensures m.passengers == Staying(old(m.passengers), m.CurrentStation())
    ensures forall p :: p in m.passengers <==> p in old(m.passengers) && p.destination != m.CurrentStation()
    ensures forall p :: p in alighted <==> p in old(m.passengers) && p.destination == m.CurrentStation()
  {
    m.MoveToNextStation();
    alighted := m.GetOffboardingPassengers();
  }

  /** The current station and the names on board. */
  method GetState(m: MetroSystem) returns (st: State)
    requires m.Valid()
    ensures st.position == m.stations[m.currentIdx]
    ensures st.passengers == Names(m.passengers)
  {
    st := m.GetState();
  }

  // ---------------------------------------------------------------------
  // Several moves in a row
  // ---------------------------------------------------------------------

  /** The riders still on board after `k` calls of MoveTrain, starting at
      index `i` with `ps` on board and nobody boarding in between. Its full
      specification is AfterMovesMembership. */
  function AfterMoves(ps: seq<Passenger>, stations: seq<string>, i: nat, k: nat): (r: seq<Passenger>)
    requires i < |stations|
    ensures |r| <= |ps|
    ensures forall p :: p in r ==> p in ps
  {
    if k == 0 then ps
    else Staying(AfterMoves(ps, stations, i, k - 1), stations[Advance(i, |stations|, k)])
  }

  /** A rider is still on board after `k` moves exactly when none of the
      stations reached in those moves was the rider's destination. */
  lemma {:induction false} AfterMovesMembership(ps: seq<Passenger>, stations: seq<string>, i: nat, k: nat, p: Passenger)
    requires i < |stations|
    ensures p in AfterMoves(ps, stations, i, k)
        <==> p in ps && forall j :: 1 <= j <= k ==> p.destination != stations[Advance(i, |stations|, j)]
  {
    if k > 0 {
      AfterMovesMembership(ps, stations, i, k - 1, p);
      MissedStep(stations, i, k, p.destination);
    }
  }

  /** No station reached in moves 1 to k is `d` exactly when none reached
      in moves 1 to k - 1 is and the k-th is not. */
  lemma MissedStep(stations: seq<string>, i: nat, k: nat, d: string)
    requires i < |stations| && k > 0
    ensures (forall j :: 1 <= j <= k ==> d != stations[Advance(i, |stations|, j)])
        ==> (forall j :: 1 <= j <= k - 1 ==> d != stations[Advance(i, |stations|, j)])
            && d != stations[Advance(i, |stations|, k)]
    ensures (forall j :: 1 <= j <= k - 1 ==> d != stations[Advance(i, |stations|, j)])
            && d != stations[Advance(i, |stations|, k)]
        ==> (forall j :: 1 <= j <= k ==> d != stations[Advance(i, |stations|, j)])
  {
  }

  /** A rider bound for a station of the line is off the train within one
      round. */
  lemma LeavesWithinOneRound(ps: seq<Passenger>, stations: seq<string>, i: nat, p: Passenger)
    requires i < |stations|
    requires p.destination in stations
    ensures p !in AfterMoves(ps, stations, i, |stations|)
  {
    var n := |stations|;
    var t :| 0 <= t < n && stations[t] == p.destination;
    var j := ReachesEveryStation(i, n, t);
    assert stations[Advance(i, n, j)] == p.destination;
    AfterMovesMembership(ps, stations, i, n, p);
  }

  /** After one round of MoveTrain the train is back where it started and
      everybody has got off. */
  lemma FullRoundEmptiesTrain(ps: seq<Passenger>, stations: seq<string>, i: nat)
    requires i < |stations|
    requires forall p :: p in ps ==> p.destination in stations
    ensures Advance(i, |stations|, |stations|) == i
    ensures AfterMoves(ps, stations, i, |stations|) == []
  {
    FullCycle(i, |stations|);
    var r := AfterMoves(ps, stations, i, |stations|);
    if r != [] {
      AfterMovesMembership(ps, stations, i, |stations|, r[0]);
      LeavesWithinOneRound(ps, stations, i, r[0]);
      assert false;
    }
  }
}
