/** The state machine of one circular metro line and its passenger record.
    Positions are indices into a fixed, non-empty list of stations; the
    riders on board are kept in boarding order. */
module Classes {

  /** A rider: a name (not necessarily unique) and the station where the
      rider gets off. */
  datatype Passenger = Passenger(name: string, destination: string)

  /** The two refusals of the core: a line without stations, and a
      destination that is not one of the line's stations. */
  datatype MetroError = NoStations | InvalidDestination(destination: string)

  datatype Result<T> = Success(value: T) | Failure(error: MetroError)

  datatype Outcome = Pass | Fail(error: MetroError)

  /** The snapshot reported by get_state: the current station and the names
      of the riders on board, in boarding order. */
  datatype State = State(position: string, passengers: seq<string>)

  // ---------------------------------------------------------------------
  // Positions on the circular line
  // ---------------------------------------------------------------------

  /** The index of the next station on a line of `n` stations. */
  function Next(i: nat, n: nat): (r: nat)
    requires i < n
    ensures r < n
    ensures i + 1 < n ==> r == i + 1
    ensures i + 1 == n ==> r == 0
  {
    (i + 1) % n
  }

  /** The index reached from `i` after `k` moves. */
  function Advance(i: nat, n: nat, k: nat): (r: nat)
    requires i < n
    ensures r < n
  {
    if k == 0 then i else Next(Advance(i, n, k - 1), n)
  }

  /** Before the end of the line, moving `k` times is `k` stations on. */
  lemma {:induction false} AdvanceNoWrap(i: nat, n: nat, k: nat)
    requires i + k < n
    ensures Advance(i, n, k) == i + k
  {
    if k > 0 {
      AdvanceNoWrap(i, n, k - 1);
    }
  }

  /** From `i`, the train reaches the first station after `n - i` moves. */
  lemma AdvanceWraps(i: nat, n: nat)
    requires i < n
    ensures Advance(i, n, n - i) == 0
  {
    AdvanceNoWrap(i, n, n - i - 1);
  }

  /** Moving `a` times and then `b` times is moving `a + b` times. */
  lemma {:induction false} AdvanceCompose(i: nat, n: nat, a: nat, b: nat)
    requires i < n
    ensures Advance(i, n, a + b) == Advance(Advance(i, n, a), n, b)
  {
    if b > 0 {
      AdvanceCompose(i, n, a, b - 1);
    }
  }

  /** A full round of the line brings the train back to where it started. */
  lemma FullCycle(i: nat, n: nat)
    requires i < n
    ensures Advance(i, n, n) == i
  {
    AdvanceCompose(i, n, n - i, i);
    AdvanceWraps(i, n);
    AdvanceNoWrap(0, n, i);
  }

  /** Every station is reached within one round, at least one move away. */
  lemma ReachesEveryStation(i: nat, n: nat, t: nat) returns (j: nat)
    requires i < n && t < n
    ensures 1 <= j <= n && Advance(i, n, j) == t
  {
    if t > i {
      j := t - i;
      AdvanceNoWrap(i, n, j);
    } else {
      j := n - i + t;
      AdvanceCompose(i, n, n - i, t);
      AdvanceWraps(i, n);
      AdvanceNoWrap(0, n, t);
    }
  }

  // ---------------------------------------------------------------------
  // The three passenger filters
  // ---------------------------------------------------------------------

  /** The riders bound for `station`, in boarding order. */
  function Arriving(ps: seq<Passenger>, station: string): (r: seq<Passenger>)
    ensures forall p :: p in r <==> p in ps && p.destination == station
    ensures |r| <= |ps|
  {
    if ps == [] then []
    else if ps[0].destination == station then [ps[0]] + Arriving(ps[1..], station)
    else Arriving(ps[1..], station)
  }

  /** The riders bound anywhere but `station`, in boarding order. */
  function Staying(ps: seq<Passenger>, station: string): (r: seq<Passenger>)
    ensures forall p :: p in r <==> p in ps && p.destination != station
    ensures |r| <= |ps|
  {
    if ps == [] then []
    else if ps[0].destination != station then [ps[0]] + Staying(ps[1..], station)
    else Staying(ps[1..], station)
  }

  /** The riders other than those called `name` who are bound for `station`. */
  function Without(ps: seq<Passenger>, name: string, station: string): (r: seq<Passenger>)
    ensures forall p :: p in r <==> p in ps && !(p.name == name && p.destination == station)
    ensures |r| <= |ps|
  {
    if ps == [] then []
    else if !(ps[0].name == name && ps[0].destination == station) then [ps[0]] + Without(ps[1..], name, station)
    else Without(ps[1..], name, station)
  }

  /** The riders' names, one per rider, in the same order. */
  function Names(ps: seq<Passenger>): (r: seq<string>)
    ensures |r| == |ps|
    ensures forall i :: 0 <= i < |ps| ==> r[i] == ps[i].name
  {
    if ps == [] then [] else [ps[0].name] + Names(ps[1..])
  }

  /** `a` is `ps` with some elements left out, the rest in the same order. */
  ghost predicate IsSubsequence(a: seq<Passenger>, ps: seq<Passenger>)
    decreases |ps|
  {
    if a == [] then true
    else if ps == [] then false
    else (a[0] == ps[0] && IsSubsequence(a[1..], ps[1..])) || IsSubsequence(a, ps[1..])
  }

  /** `ps` is dealt out into `a` and `b`: every element goes to exactly one of
      them, and each keeps the order in which the elements appear in `ps`. */
  ghost predicate Interleaves(ps: seq<Passenger>, a: seq<Passenger>, b: seq<Passenger>)
    decreases |ps|
  {
    if ps == [] then a == [] && b == []
    else ((a != [] && a[0] == ps[0] && Interleaves(ps[1..], a[1..], b))
      || (b != [] && b[0] == ps[0] && Interleaves(ps[1..], a, b[1..])))
  }

  /** Offboarding deals the riders out into those bound for the station and
      the others. */
  lemma {:induction false} SplitInterleaves(ps: seq<Passenger>, station: string)
    ensures Interleaves(ps, Arriving(ps, station), Staying(ps, station))
  {
    if ps != [] {
      SplitInterleaves(ps[1..], station);
    }
  }

  /** Dealing out loses and invents nothing. */
  lemma {:induction false} InterleavesPermutes(ps: seq<Passenger>, a: seq<Passenger>, b: seq<Passenger>)
    requires Interleaves(ps, a, b)
    ensures multiset(a) + multiset(b) == multiset(ps)
  {
    if ps != [] {
      if a != [] && a[0] == ps[0] && Interleaves(ps[1..], a[1..], b) {
        InterleavesPermutes(ps[1..], a[1..], b);
        assert a == [a[0]] + a[1..];
      } else {
        InterleavesPermutes(ps[1..], a, b[1..]);
        assert b == [b[0]] + b[1..];
      }
      assert ps == [ps[0]] + ps[1..];
    }
  }

  /** Dealing out keeps the relative order within each half. */
  lemma {:induction false} InterleavesKeepsOrder(ps: seq<Passenger>, a: seq<Passenger>, b: seq<Passenger>)
    requires Interleaves(ps, a, b)
    ensures IsSubsequence(a, ps) && IsSubsequence(b, ps)
  {
    if ps != [] {
      if a != [] && a[0] == ps[0] && Interleaves(ps[1..], a[1..], b) {
        InterleavesKeepsOrder(ps[1..], a[1..], b);
      } else {
        InterleavesKeepsOrder(ps[1..], a, b[1..]);
      }
    }
  }

  /** The offboarding split is the only order-keeping way to separate the
      riders bound for `station` from the others. */
  lemma {:induction false} SplitUnique(ps: seq<Passenger>, station: string, a: seq<Passenger>, b: seq<Passenger>)
    requires Interleaves(ps, a, b)
    requires forall p :: p in a ==> p.destination == station
    requires forall p :: p in b ==> p.destination != station
    ensures a == Arriving(ps, station) && b == Staying(ps, station)
  {
    if ps != [] {
      if a != [] && a[0] == ps[0] && Interleaves(ps[1..], a[1..], b) {
        assert a[0] in a;
        assert forall p :: p in a[1..] ==> p in a;
        SplitUnique(ps[1..], station, a[1..], b);
      } else {
        assert b[0] in b;
        assert forall p :: p in b[1..] ==> p in b;
        SplitUnique(ps[1..], station, a, b[1..]);
      }
    }
  }

  /** What get_offboarding_passengers promises of its two lists. */
  lemma OffboardingSplit(ps: seq<Passenger>, station: string)
    ensures forall p :: p in Arriving(ps, station) ==> p.destination == station
    ensures forall p :: p in Staying(ps, station) ==> p.destination != station
    ensures multiset(Arriving(ps, station)) + multiset(Staying(ps, station)) == multiset(ps)
    ensures IsSubsequence(Arriving(ps, station), ps) && IsSubsequence(Staying(ps, station), ps)
  {
    SplitInterleaves(ps, station);
    InterleavesPermutes(ps, Arriving(ps, station), Staying(ps, station));
    InterleavesKeepsOrder(ps, Arriving(ps, station), Staying(ps, station));
  }

  /** Removal deletes every copy of a matching rider and keeps every copy of
      the others. */
  lemma {:induction false} WithoutCount(ps: seq<Passenger>, name: string, station: string, p: Passenger)
    ensures multiset(Without(ps, name, station))[p]
         == if p.name == name && p.destination == station then 0 else multiset(ps)[p]
  {
    if ps != [] {
      WithoutCount(ps[1..], name, station, p);
      assert ps == [ps[0]] + ps[1..];
    }
  }

  /** Removal keeps the remaining riders in boarding order. */
  lemma {:induction false} WithoutKeepsOrder(ps: seq<Passenger>, name: string, station: string)
    ensures IsSubsequence(Without(ps, name, station), ps)
  {
    if ps != [] {
      WithoutKeepsOrder(ps[1..], name, station);
    }
  }

  /** Removing a pair nobody matches changes nothing. */
  lemma {:induction false} WithoutNoMatch(ps: seq<Passenger>, name: string, station: string)
    requires forall p :: p in ps ==> !(p.name == name && p.destination == station)
    ensures Without(ps, name, station) == ps
  {
    if ps != [] {
      assert forall p :: p in ps[1..] ==> p in ps;
      WithoutNoMatch(ps[1..], name, station);
    }
  }

  /** Removing the same pair twice is removing it once. */
  lemma WithoutIdempotent(ps: seq<Passenger>, name: string, station: string)
    ensures Without(Without(ps, name, station), name, station) == Without(ps, name, station)
  {
    WithoutNoMatch(Without(ps, name, station), name, station);
  }

  /** A name appears in the snapshot exactly when some rider on board has it. */
  lemma NamesMembership(ps: seq<Passenger>, name: string)
    ensures name in Names(ps) <==> exists p :: p in ps && p.name == name
  {
    if name in Names(ps) {
      var i :| 0 <= i < |ps| && Names(ps)[i] == name;
      assert ps[i] in ps;
    }
  }

  // ---------------------------------------------------------------------
  // The state machine
  // ---------------------------------------------------------------------

  class MetroSystem {
    /** The station list, fixed for the life of the system. */
    const stations: seq<string>
    /** The train's position, an index into `stations`. */
    var currentIdx: nat
    /** The riders on board, in boarding order; duplicates allowed. */
    var passengers: seq<Passenger>

    /** The line has a station, the train is at one of them, and every
        rider is bound for one of them. */
    ghost predicate Valid()
      reads this
    {
      && stations != []
      && currentIdx < |stations|
      && forall p :: p in passengers ==> p.destination in stations
    }

    /** A system at the first station with nobody on board. */
    constructor (stations: seq<string>)
      requires stations != []
      ensures Valid()
      ensures this.stations == stations && currentIdx == 0 && passengers == []
    {
      this.stations := stations;
      currentIdx := 0;
      passengers := [];
    }

    /** Construction as the source performs it: refused for an empty list. */
    static method Create(stations: seq<string>) returns (r: Result<MetroSystem>)
      ensures r.Failure? <==> stations == []
      ensures r.Failure? ==> r.error == NoStations
      ensures r.Success? ==> && fresh(r.value) && r.value.Valid()
                             && r.value.stations == stations
                             && r.value.currentIdx == 0 && r.value.passengers == []
    {
      if stations == [] {
        return Failure(NoStations);
      }
      var m := new MetroSystem(stations);
      return Success(m);
    }

    /** Back to the first station, everybody off, whatever came before. */
    method Reset()
      requires Valid()
      modifies this`currentIdx, this`passengers
      ensures Valid()
      ensures currentIdx == 0 && passengers == []
      ensures CurrentStation() == stations[0]
    {
      currentIdx := 0;
      passengers := [];
    }

    /** Boards `p` at the end of the list, or refuses an unknown destination
        and changes nothing. */
    method AddPassenger(p: Passenger) returns (outcome: Outcome)
      requires Valid()
      modifies this`passengers
      ensures Valid()
      ensures outcome.Fail? <==> p.destination !in stations
      ensures outcome.Fail? ==> outcome.error == InvalidDestination(p.destination)
      ensures passengers == if outcome.Pass? then old(passengers) + [p] else old(passengers)
    {
      if p.destination !in stations {
        return Fail(InvalidDestination(p.destination));
      }
      passengers := passengers + [p];
      outcome := Pass;
    }

    /** One station on, wrapping from the last station to the first. */
    method MoveToNextStation()
      requires Valid()
      modifies this`currentIdx
      ensures Valid()
      ensures currentIdx == Next(old(currentIdx), |stations|)
    {
      currentIdx := (currentIdx + 1) % |stations|;
    }

    /** Takes off and returns the riders bound for the current station;
        the others stay, in their order. */
    method GetOffboardingPassengers() returns (off: seq<Passenger>)
      requires Valid()
      modifies this`passengers
      ensures Valid()
      ensures off == Arriving(old(passengers), CurrentStation())
      ensures passengers == Staying(old(passengers), CurrentStation())
      ensures forall p :: p in off ==> p.destination == CurrentStation()
      ensures forall p :: p in passengers ==> p.destination != CurrentStation()
      ensures multiset(off) + multiset(passengers) == multiset(old(passengers))
      ensures IsSubsequence(off, old(passengers)) && IsSubsequence(passengers, old(passengers))
    {
      var station := CurrentStation();
      OffboardingSplit(passengers, station);
      off := Arriving(passengers, station);
      passengers := Staying(passengers, station);
    }

    /** Takes off every rider called `name` bound for `atStation`, wherever
        the train is. */
    method Remove(name: string, atStation: string)
      requires Valid()
      modifies this`passengers
      ensures Valid()
      ensures passengers == Without(old(passengers), name, atStation)
      ensures forall p :: multiset(passengers)[p]
                       == if p.name == name && p.destination == atStation then 0 else multiset(old(passengers))[p]
      ensures IsSubsequence(passengers, old(passengers))
    {
      forall p {
        WithoutCount(passengers, name, atStation, p);
      }
      WithoutKeepsOrder(passengers, name, atStation);
      passengers := Without(passengers, name, atStation);
    }

    /** The station the train is at. */
    function CurrentStation(): (s: string)
      reads this
      requires Valid()
      ensures s in stations
    {
      stations[currentIdx]
    }

    /** The current station and the names of the riders on board. */
    function GetState(): (st: State)
      reads this
      requires Valid()
      ensures st.position in stations && st.position == CurrentStation()
      ensures |st.passengers| == |passengers|
      ensures forall i :: 0 <= i < |passengers| ==> st.passengers[i] == passengers[i].name
    {
      State(CurrentStation(), Names(passengers))
    }
  }
}
