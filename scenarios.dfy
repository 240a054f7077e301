/** The scenarios the repository's tests walk through, written as clients of
    the model: each builds a fresh system, drives it through the calls of
    the scenario and promises, in its postcondition, at least what the test
    checks. MoveTrainOneRound is the loop they share.
    What the tests read from console narration (who got off, where) is the
    list MoveTrain returns. */
module Scenarios {
  import opened Classes
  import opened Api

  // ---------------------------------------------------------------------
  // The façade on line A–E
  // ---------------------------------------------------------------------

  /** Ana boards for A and Luis for C at A; two moves later the train is at
      C, Luis has got off and Ana, whose station has not come round again,
      is still aboard. */
  method AddAndMove() returns (boarded: State, final: State)
    ensures "Ana" in boarded.passengers && "Luis" in boarded.passengers
    ensures final.position == "C"
    ensures "Luis" !in final.passengers && "Ana" in final.passengers
  {
    var m := NewMetro();
    ResetState(m);
    AddPassenger(m, "Ana", "A");
    AddPassenger(m, "Luis", "C");
    boarded := GetState(m);
    assert boarded.passengers == ["Ana", "Luis"];
    var off1 := MoveTrain(m);
    var off2 := MoveTrain(m);
    assert m.passengers == [Passenger("Ana", "A")];
    final := GetState(m);
  }

  /** Carlos boards for D and is then removed by name and station. */
  method RemoveBoarded() returns (before: State, after: State)
    ensures "Carlos" in before.passengers
    ensures "Carlos" !in after.passengers
  {
    var m := NewMetro();
    ResetState(m);
    AddPassenger(m, "Carlos", "D");
    before := GetState(m);
    assert before.passengers == ["Carlos"];
    RemovePassenger(m, "Carlos", "D");
    assert m.passengers == [];
    after := GetState(m);
  }

  /** Marta boards for B; the next move takes the train to B and lets her
      off there. */
  method AlightingReported() returns (alighted: seq<Passenger>, final: State)
    ensures Names(alighted) == ["Marta"]
    ensures final.position == "B"
  {
    var m := NewMetro();
    ResetState(m);
    AddPassenger(m, "Marta", "B");
    alighted := MoveTrain(m);
    assert alighted == [Passenger("Marta", "B")];
    final := GetState(m);
  }

  /** Boarding for X, which is not on the line, is refused and leaves the
      system as it was. */
  method InvalidDestinationIgnored() returns (before: State, after: State)
    ensures after == before
    ensures "Juan" !in after.passengers
  {
    var m := NewMetro();
    ResetState(m);
    before := GetState(m);
    AddPassenger(m, "Juan", "X");
    after := GetState(m);
  }

  /** Maria and Pedro, both bound for B, get off together at the first
      move; Laura, bound for C, stays. */
  method SharedDestination() returns (final: State)
    ensures "Maria" !in final.passengers && "Pedro" !in final.passengers
    ensures "Laura" in final.passengers
  {
    var m := NewMetro();
    ResetState(m);
    AddPassenger(m, "Maria", "B");
    AddPassenger(m, "Pedro", "B");
    AddPassenger(m, "Laura", "C");
    var off := MoveTrain(m);
    assert m.passengers == [Passenger("Laura", "C")];
    final := GetState(m);
  }

  /** The tests' loop: as many calls of MoveTrain as the line has
      stations, which brings the train back to where it was and empties it. */
  method MoveTrainOneRound(m: MetroSystem)
    requires m.Valid()
    modifies m
    ensures m.Valid()
    ensures m.currentIdx == old(m.currentIdx) && m.passengers == []
  {
    ghost var start := m.currentIdx;
    ghost var aboard := m.passengers;
    var n := |m.stations|;
    var i := 0;
    while i < n
      invariant 0 <= i <= n
      invariant m.Valid()
      invariant m.currentIdx == Advance(start, n, i)
      invariant m.passengers == AfterMoves(aboard, m.stations, start, i)
    {
      var off := MoveTrain(m);
      i := i + 1;
    }
    FullRoundEmptiesTrain(aboard, m.stations, start);
  }

  /** Carlos boards at A for A and is not let off on boarding; five moves
      bring the train round to A again, and he has got off. */
  method CircularRoute() returns (boarded: State, final: State)
    ensures boarded.position == "A" && "Carlos" in boarded.passengers
    ensures final.position == "A" && "Carlos" !in final.passengers
  {
    var m := NewMetro();
    ResetState(m);
    AddPassenger(m, "Carlos", "A");
    boarded := GetState(m);
    assert boarded.passengers == ["Carlos"];
    MoveTrainOneRound(m);
    final := GetState(m);
  }

  /** Removing a name nobody has leaves Ana aboard. */
  method RemoveUnknownName() returns (final: State)
    ensures "Ana" in final.passengers
  {
    var m := NewMetro();
    ResetState(m);
    AddPassenger(m, "Ana", "B");
    RemovePassenger(m, "Inexistente", "B");
    assert m.passengers == [Passenger("Ana", "B")];
    final := GetState(m);
  }

  // ---------------------------------------------------------------------
  // The state machine on line X–Y–Z
  // ---------------------------------------------------------------------

  /** An empty station list is refused; a new system on X, Y, Z is at X
      with nobody aboard. */
  method Construction() returns (refused: bool, initial: State)
    ensures refused
    ensures initial == State("X", [])
  {
    var none := MetroSystem.Create([]);
    refused := none.Failure?;
    var m := new MetroSystem(["X", "Y", "Z"]);
    initial := m.GetState();
  }

  /** After a move and a boarding, reset brings the system back to X with
      nobody aboard. */
  method ResetClears() returns (final: State)
    ensures final == State("X", [])
  {
    var m := new MetroSystem(["X", "Y", "Z"]);
    m.MoveToNextStation();
    var outcome := m.AddPassenger(Passenger("Bob", "Y"));
    m.Reset();
    final := m.GetState();
  }

  /** Carol, bound for Z, is accepted; Dave, bound for W, is refused. */
  method Boarding() returns (accepted: Outcome, refusal: Outcome, final: State)
    ensures accepted == Pass && "Carol" in final.passengers
    ensures refusal == Fail(InvalidDestination("W")) && "Dave" !in final.passengers
  {
    var m := new MetroSystem(["X", "Y", "Z"]);
    accepted := m.AddPassenger(Passenger("Carol", "Z"));
    refusal := m.AddPassenger(Passenger("Dave", "W"));
    assert m.passengers == [Passenger("Carol", "Z")];
    final := m.GetState();
  }

  /** Three moves on X, Y, Z visit Y, then Z, then X again. */
  method WrapAround() returns (first: string, second: string, third: string)
    ensures first == "Y" && second == "Z" && third == "X"
  {
    var m := new MetroSystem(["X", "Y", "Z"]);
    m.MoveToNextStation();
    first := m.CurrentStation();
    m.MoveToNextStation();
    second := m.CurrentStation();
    m.MoveToNextStation();
    third := m.CurrentStation();
  }

  /** With Eve bound for Y and Frank for Z, offboarding at Y returns Eve
      and leaves Frank. */
  method OffboardingAtY() returns (off: seq<Passenger>, final: State)
    ensures Names(off) == ["Eve"]
    ensures final.passengers == ["Frank"]
  {
    var m := new MetroSystem(["X", "Y", "Z"]);
    var o1 := m.AddPassenger(Passenger("Eve", "Y"));
    var o2 := m.AddPassenger(Passenger("Frank", "Z"));
    m.MoveToNextStation();
    off := m.GetOffboardingPassengers();
    assert off == [Passenger("Eve", "Y")];
    assert m.passengers == [Passenger("Frank", "Z")];
    final := m.GetState();
  }

  /** Of two riders called Grace, removal at X takes only the one bound
      for X; the other gets off at Y. */
  method RemoveMatchesStation() returns (afterRemove: State, off: seq<Passenger>)
    ensures afterRemove.passengers == ["Grace"]
    ensures off == [Passenger("Grace", "Y")]
  {
    var m := new MetroSystem(["X", "Y", "Z"]);
    var o1 := m.AddPassenger(Passenger("Grace", "X"));
    var o2 := m.AddPassenger(Passenger("Grace", "Y"));
    m.Remove("Grace", "X");
    assert m.passengers == [Passenger("Grace", "Y")];
    afterRemove := m.GetState();
    m.MoveToNextStation();
    off := m.GetOffboardingPassengers();
  }
}
