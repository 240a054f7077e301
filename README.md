# Circular metro line — a Dafny model

This project models a small simulation of one circular metro line. A train
goes round a fixed, ordered list of stations. Riders board with a declared
destination. A rider gets off when the façade moves the train to that
station.

There are two layers, one Dafny module each, and a third module of client
scenarios:

- `classes.dfy`, module `Classes`, models `classes.py`. The `Passenger`
  record is a datatype `Passenger(name, destination)`. `MetroSystem` is a
  class with three fields:
  - `stations`, a `const seq<string>`, so it cannot change after construction;
  - `currentIdx`, a `nat`;
  - `passengers`, a `seq<Passenger>` in boarding order.

  `Valid()` is the object invariant: the line has a station, the index is
  in bounds, and every rider on board is bound for a station of the line.
  Every method keeps it.
  The list comprehensions of `get_offboarding_passengers` and `remove` are
  the pure filters `Arriving`, `Staying` and `Without`. Lemmas about them
  state the source's promises:
  - the offboarding split is an order-keeping interleaving
    (`Interleaves`) of the riders, hence a permutation of them;
  - it is the only split of that kind;
  - removal deletes every copy of a matching rider and nothing else, keeps
    order, is idempotent, and does nothing when no rider matches.

  Positions are handled by `Next` (one move, wrapping at the end) and
  `Advance` (k moves). `FullCycle` shows that a full round returns to the
  start.
- `api.dfy`, module `Api`, models `api.py`. The façade's single shared
  system becomes an explicit `MetroSystem` that each operation takes as a
  parameter. `NewMetro` builds it over `LINE = ["A","B","C","D","E"]`.
  `AddPassenger` swallows the invalid-destination refusal, so state is
  left unchanged. `MoveTrain` moves one station on and then lets off
  everyone bound for the station reached. It returns who got off; the
  source prints that list instead. `AfterMoves` describes the riders left
  after k moves. `FullRoundEmptiesTrain` proves that one full round
  returns the train to its start and leaves nobody aboard whose destination
  is a station of the line.
- `scenarios.dfy`, module `Scenarios`: the scenarios of `test.py` and
  `test_classes.py`, written as methods. Each scenario builds a fresh
  system, makes the scenario's calls, and promises in its postcondition at
  least what its test asserts. `MoveTrainOneRound` is the shared loop of
  one round of moves; it works on a system it is given.

The two `ValueError`s of the source are modelled as values:
- `MetroSystem.Create` returns `Failure(NoStations)` for an empty list.
- `MetroSystem.AddPassenger` returns `Fail(InvalidDestination(d))` and
  leaves the riders unchanged.

The plain constructor requires a non-empty list. `Create` is the form that
checks the list, as the source's `__init__` does.

## Model

| member | source | states |
|---|---|---|
| `Classes.Next` | classes.py:30-32 | one move stays on the line: it is the next index before the last station and wraps to 0 from the last |
| `Classes.Advance` | classes.py:30-32 | any number of moves keeps the index within the line |
| `Classes.AdvanceNoWrap` | classes.py:32 | before the end of the line, k moves lead k stations on |
| `Classes.AdvanceWraps` | classes.py:32 | from index i, the train is back at the first station after n - i moves |
| `Classes.AdvanceCompose` | classes.py:32 | a moves followed by b moves equal a + b moves |
| `Classes.FullCycle` | classes.py:32 | as many moves as there are stations return the train to its starting station, from any start |
| `Classes.ReachesEveryStation` | classes.py:32 | every station is reached from any start within 1 to n moves |
| `Classes.Arriving` | classes.py:38-40 | the riders kept are exactly those on board whose destination is the station |
| `Classes.Staying` | classes.py:38-41 | the riders kept are exactly those on board whose destination is not the station |
| `Classes.Without` | classes.py:44-48 | the riders kept are exactly those that do not match both the name and the station |
| `Classes.Names` | classes.py:59 | one name per rider, position by position, in onboard order |
| `Classes.SplitInterleaves` | classes.py:38-42 | the leaving and staying lists deal out the onboard list, each keeping its order |
| `Classes.InterleavesPermutes` | classes.py:40-41 | such a dealing out is a permutation: the multisets of the two halves add up to the whole |
| `Classes.InterleavesKeepsOrder` | classes.py:40-41 | each half of such a dealing out is a subsequence of the whole |
| `Classes.SplitUnique` | classes.py:40-41 | the offboarding split is the only order-keeping split into riders bound for the station and the others |
| `Classes.OffboardingSplit` | classes.py:34-42 | whoever leaves is bound for the station; whoever stays is not; together they are a permutation of the riders; each list keeps boarding order |
| `Classes.WithoutCount` | classes.py:44-48 | removal deletes every copy of a matching rider, including duplicates, and keeps every copy of the others |
| `Classes.WithoutKeepsOrder` | classes.py:45-48 | the riders left after removal keep their order |
| `Classes.WithoutNoMatch` | classes.py:44-48 | removing a pair that nobody matches leaves the list as it was |
| `Classes.WithoutIdempotent` | classes.py:44-48 | removing the same pair twice is the same as removing it once |
| `Classes.NamesMembership` | classes.py:55-60 | a name is in the snapshot if and only if some rider on board has it |
| `Classes.MetroSystem.constructor` | classes.py:12-17 | for a non-empty list: the invariant holds, the train is at index 0, nobody is on board, the stations are the given ones |
| `Classes.MetroSystem.Create` | classes.py:12-17 | fails exactly when the station list is empty; otherwise a fresh valid system at index 0 with nobody on board |
| `Classes.MetroSystem.Reset` | classes.py:19-22 | from any valid state: index 0, first station, no riders; the stations are untouched |
| `Classes.MetroSystem.AddPassenger` | classes.py:24-28 | fails exactly when the destination is not a station; on failure the riders are unchanged; otherwise the rider is appended at the end; the index cannot change |
| `Classes.MetroSystem.MoveToNextStation` | classes.py:30-32 | the index becomes the next one on the line, wrapping to 0; the riders cannot change |
| `Classes.MetroSystem.GetOffboardingPassengers` | classes.py:34-42 | returns the riders bound for the current station and keeps the others, both in order and together a permutation; the index cannot change |
| `Classes.MetroSystem.Remove` | classes.py:44-48 | deletes exactly the riders matching both name and station, every copy, and keeps the rest in order, wherever the train is |
| `Classes.MetroSystem.CurrentStation` | classes.py:50-53 | the current station is one of the line's stations |
| `Classes.MetroSystem.GetState` | classes.py:55-60 | the position is the current station; the passenger list has one name per rider, in onboard order; nothing is modified |
| `Api.NewMetro` | api.py:5 | the façade's system is over A to E, at A, with nobody on board |
| `Api.ResetState` | api.py:8-10 | afterwards the train is at the first station (A on the façade's line) with nobody on board |
| `Api.AddPassenger` | api.py:14-21 | a known destination appends the rider, even one bound for the current station; an unknown one leaves the riders as they were; the position cannot change |
| `Api.RemovePassenger` | api.py:23-24 | deletes exactly the riders matching both name and station; with a name nobody has, the riders are unchanged |
| `Api.MoveTrain` | api.py:27-36 | the train moves one station on, cyclically; everyone bound for the new station leaves at once and is returned; everyone bound elsewhere stays, in order; nobody left aboard is bound for the new station |
| `Api.GetState` | api.py:39-43 | returns the current station and the names on board, in order |
| `Api.AfterMoves` | api.py:32-33 | after k moves nobody is aboard who was not aboard before, and there are no more riders than before |
| `Api.AfterMovesMembership` | api.py:32-33 | a rider is still aboard after k moves if and only if none of the stations reached in those moves is the rider's destination |
| `Api.LeavesWithinOneRound` | api.py:32-33 | a rider bound for a station of the line has left within one round of moves |
| `Api.FullRoundEmptiesTrain` | api.py:32-33 | one round of moves returns the train to its start and leaves nobody aboard |
| `Scenarios.MoveTrainOneRound` | test.py:89-90 | a loop of as many moves as there are stations returns the train to where it was and empties it |
| `Scenarios.AddAndMove` | test.py:28-41 | Ana (for A) and Luis (for C) board at A; after two moves the train is at C, Luis is off and Ana is still aboard |
| `Scenarios.RemoveBoarded` | test.py:44-49 | Carlos, bound for D, is aboard and then removed |
| `Scenarios.AlightingReported` | test.py:52-59 | Marta, bound for B, is the one who gets off at the next move, which reaches B |
| `Scenarios.InvalidDestinationIgnored` | test.py:62-68 | boarding for X leaves the state exactly as before, and Juan is not aboard |
| `Scenarios.SharedDestination` | test.py:71-81 | Maria and Pedro, both bound for B, leave together at the first move; Laura, bound for C, stays |
| `Scenarios.CircularRoute` | test.py:84-94 | Carlos boards at A bound for A and is aboard after boarding; five moves bring the train back to A, and he has left |
| `Scenarios.RemoveUnknownName` | test.py:97-102 | removing a name nobody has leaves Ana aboard |
| `Scenarios.Construction` | test_classes.py:17-24 | an empty station list is refused; a new system on X, Y, Z is at X with nobody aboard |
| `Scenarios.ResetClears` | test_classes.py:26-34 | after a move and a boarding, reset gives position X and no riders |
| `Scenarios.Boarding` | test_classes.py:36-46 | Carol, bound for Z, is accepted and aboard; Dave, bound for W, is refused with an invalid-destination error and is not aboard |
| `Scenarios.WrapAround` | test_classes.py:48-56 | three moves on X, Y, Z visit Y, then Z, then X again |
| `Scenarios.OffboardingAtY` | test_classes.py:58-70 | offboarding at Y returns Eve alone and leaves Frank alone aboard |
| `Scenarios.RemoveMatchesStation` | test_classes.py:72-87 | of two riders called Grace, removal at X takes only the one bound for X; the other gets off at Y |

## Left out

- Console output. All `print` calls of `api.py` are dropped. The riders who get off at a move are returned by `Api.MoveTrain` instead of being printed. Tests that search the printed text are modelled by that returned list or by the state.
- The text of the error messages. Only the kind of refusal is modelled (`NoStations`, `InvalidDestination(d)`).
- The import-time singleton of `api.py`. It is an explicit `MetroSystem` built by `Api.NewMetro` and passed to each façade operation.
- Aliasing and object identity. The source keeps the caller's own station list and passenger objects. The model keeps values, so a caller cannot change the stations after construction. Two riders with the same name and destination cannot be told apart; this matches how `remove` matches riders.
- The `dict` that `get_state` returns. It is the datatype `State(position, passengers)`.
- `run_lint.py` is not part of this model. It only runs a linter and parses the linter's output.
- `Passenger` on its own has no behaviour to prove beyond holding its two fields (test_classes.py:6-9). Its datatype constructor and field names give that.
- Classes.MetroSystem.CurrentStation: its contract says only that the result is one of the line's stations. That the result is `stations[currentIdx]` is the function's definition, which callers see.
