/** The two-party software lock shared by board (id 0) and host (id 1).

    Every access to the shared words `flag[0]`, `flag[1]` and `turn` is a step of
    its own, so a schedule (a sequence of ids) is one interleaving of the two
    processors. Memory is sequentially consistent. */
module SoftwareLock {

  /** 0 is the board, 1 is the host. */
  type Id = i: nat | i < 2

  function Other(id: Id): Id { 1 - id }

  /** What the next access of a processor will be. */
  datatype Pc =
    | Outside    // about to write flag[id] = 1
    | WriteTurn  // about to write turn = id
    | ReadFlag   // about to read flag[!id]
    | ReadTurn   // about to read turn
    | Inside     // holds the section, about to write flag[id] = 0

  datatype RawState = State(flag: seq<bool>, turn: nat, pc: seq<Pc>)

  type State = s: RawState | |s.flag| == 2 && |s.pc| == 2
    witness State([false, false], 0, [Outside, Outside])

  /** Both flags are clear; `turn` may hold anything. */
  predicate Initial(s: State) {
    s.flag == [false, false] && s.pc == [Outside, Outside]
  }

  /** One shared access of processor `id`. */
  function Step(s: State, id: Id): State {
    match s.pc[id]
    case Outside => s.(flag := s.flag[id := true], pc := s.pc[id := WriteTurn])
    case WriteTurn => s.(turn := id, pc := s.pc[id := ReadFlag])
    case ReadFlag => s.(pc := s.pc[id := if s.flag[Other(id)] then ReadTurn else Inside])
    case ReadTurn => s.(pc := s.pc[id := if s.turn == id then ReadFlag else Inside])
    case Inside => s.(flag := s.flag[id := false], pc := s.pc[id := Outside])
  }

  function Exec(s: State, schedule: seq<Id>): State
    decreases |schedule|
  {
    if schedule == [] then s else Exec(Step(s, schedule[0]), schedule[1..])
  }

  predicate Spinning(s: State, id: Id) {
    s.pc[id] == ReadFlag || s.pc[id] == ReadTurn
  }

  /** Processor `id` is kept out while its rival has the right of way. */
  ghost predicate Ordered(s: State, id: Id) {
    && s.flag[id] == (s.pc[id] != Outside)
    && (Spinning(s, id) || s.pc[id] == Inside ==> s.turn < 2)
    && (s.pc[id] == Inside ==> s.pc[Other(id)] != Inside)
    && (s.pc[id] == Inside && Spinning(s, Other(id)) ==> s.turn == Other(id))
  }

  ghost predicate Inv(s: State) {
    Ordered(s, 0) && Ordered(s, 1)
  }

  lemma StepKeepsInv(s: State, id: Id)
    requires Inv(s)
    ensures Inv(Step(s, id))
  {
  }

  lemma {:induction false} ExecKeepsInv(s: State, schedule: seq<Id>)
    requires Inv(s)
    ensures Inv(Exec(s, schedule))
    decreases |schedule|
  {
    if schedule != [] {
      StepKeepsInv(s, schedule[0]);
      ExecKeepsInv(Step(s, schedule[0]), schedule[1..]);
    }
  }

  /** Board and host are never in the section together, whatever the interleaving. */
  lemma MutualExclusion(s: State, schedule: seq<Id>)
    requires Initial(s)
    ensures !(Exec(s, schedule).pc[0] == Inside && Exec(s, schedule).pc[1] == Inside)
  {
    ExecKeepsInv(s, schedule);
  }

  /** Accesses a side with the right of way still needs. */
  function Remaining(s: State, id: Id): nat {
    if s.pc[id] == Inside then 0
    else if s.pc[id] == ReadFlag && s.pc[Other(id)] == Outside then 1
    else if s.pc[id] == ReadTurn && s.turn == Other(id) then 1
    else 2
  }

  /** A spinning side with the right of way enters by its own accesses alone. */
  lemma EnterAlone(s: State, id: Id) returns (path: seq<Id>)
    requires Inv(s) && Spinning(s, id)
    requires s.pc[Other(id)] == Outside || (s.turn == Other(id) && s.pc[Other(id)] != Inside)
    ensures Exec(s, path).pc[id] == Inside
    ensures |path| == Remaining(s, id) && forall k :: 0 <= k < |path| ==> path[k] == id
    decreases Remaining(s, id)
  {
    var rest := [];
    if Step(s, id).pc[id] != Inside {
      StepKeepsInv(s, id);
      rest := EnterAlone(Step(s, id), id);
    }
    path := [id] + rest;
    assert path[1..] == rest;
  }

  /** The lock never wedges: from every reachable state in which somebody waits and
      nobody is inside, at most four accesses lead to an entry. When both sides spin,
      the accesses of the winner alone are enough, at most two of them. */
  lemma Progress(s: State, schedule: seq<Id>) returns (winner: Id, path: seq<Id>)
    requires Initial(s)
    requires var t := Exec(s, schedule);
      t.pc != [Outside, Outside] && t.pc[0] != Inside && t.pc[1] != Inside
    ensures Exec(Exec(s, schedule), path).pc[winner] == Inside
    ensures |path| <= 4
    ensures Spinning(Exec(s, schedule), 0) && Spinning(Exec(s, schedule), 1) ==>
              |path| <= 2 && forall k :: 0 <= k < |path| ==> path[k] == winner
  {
    ExecKeepsInv(s, schedule);
    winner, path := ProgressFrom(Exec(s, schedule));
  }

  /** Sides that have raised their flag but not yet written turn. */
  function Announcing(s: State): nat {
    (if s.pc[0] == WriteTurn then 1 else 0) + (if s.pc[1] == WriteTurn then 1 else 0)
  }

  lemma ProgressFrom(t: State) returns (winner: Id, path: seq<Id>)
    requires Inv(t)
    requires t.pc != [Outside, Outside] && t.pc[0] != Inside && t.pc[1] != Inside
    ensures Exec(t, path).pc[winner] == Inside
    ensures |path| <= 2 + Announcing(t)
    ensures Spinning(t, 0) && Spinning(t, 1) ==> |path| <= 2 && forall k :: 0 <= k < |path| ==> path[k] == winner
    decreases Announcing(t)
  {
    if t.pc[0] == WriteTurn || t.pc[1] == WriteTurn {
      var first: Id := if t.pc[0] == WriteTurn then 0 else 1;
      StepKeepsInv(t, first);
      var rest;
      winner, rest := ProgressFrom(Step(t, first));
      path := [first] + rest;
      assert path[1..] == rest;
    } else {
      winner := if t.pc[0] == Outside || (t.pc[1] != Outside && t.turn == 0) then 1 else 0;
      path := EnterAlone(t, winner);
    }
  }

  /** How many times `id` enters the section along a schedule. */
  function Entries(s: State, schedule: seq<Id>, id: Id): nat
    decreases |schedule|
  {
    if schedule == [] then 0
    else
      var t := Step(s, schedule[0]);
      (if s.pc[id] != Inside && t.pc[id] == Inside then 1 else 0) + Entries(t, schedule[1..], id)
  }

  /** `id` spins in every state of the run but possibly the last. */
  ghost predicate SpinsAlong(s: State, schedule: seq<Id>, id: Id)
    decreases |schedule|
  {
    schedule == [] || (Spinning(s, id) && SpinsAlong(Step(s, schedule[0]), schedule[1..], id))
  }

  /** Once a side has written turn, the other side enters at most once before it does,
      and not at all when the other side wrote turn last. */
  lemma {:induction false} BoundedBypass(s: State, schedule: seq<Id>, id: Id)
    requires Inv(s)
    requires SpinsAlong(s, schedule, id)
    ensures Entries(s, schedule, Other(id)) <= 1
    ensures Entries(s, schedule, Other(id)) == 1 ==> s.turn == id && Spinning(s, Other(id))
    decreases |schedule|
  {
    if schedule != [] {
      StepKeepsInv(s, schedule[0]);
      BoundedBypass(Step(s, schedule[0]), schedule[1..], id);
    }
  }

  function Count(schedule: seq<Id>, id: Id): nat {
    if schedule == [] then 0 else (if schedule[0] == id then 1 else 0) + Count(schedule[1..], id)
  }

  /** Accesses the rival still makes before it has written turn. */
  function Distance(pc: Pc): nat {
    match pc
    case WriteTurn => 1
    case Outside => 2
    case Inside => 3
    case ReadTurn => 4
    case ReadFlag => 5
  }

  lemma {:induction false} RivalYields(s: State, schedule: seq<Id>, id: Id)
    requires Inv(s)
    requires SpinsAlong(s, schedule, id) && Spinning(Exec(s, schedule), id)
    requires s.turn == Other(id) || Count(schedule, Other(id)) >= Distance(s.pc[Other(id)])
    requires s.turn == Other(id) ==> s.pc[Other(id)] != Inside
    ensures Exec(s, schedule).turn == Other(id) && Exec(s, schedule).pc[Other(id)] != Inside
    decreases |schedule|
  {
    if schedule != [] {
      StepKeepsInv(s, schedule[0]);
      RivalYields(Step(s, schedule[0]), schedule[1..], id);
    }
  }

  /** Bounded waiting: if the rival makes five accesses and then `id` makes two, `id` has
      been let into the section by then. */
  lemma BoundedWaiting(s: State, before: seq<Id>, after: seq<Id>, id: Id)
    requires Inv(s)
    requires Spinning(s, id)
    requires Count(before, Other(id)) >= 5 && Count(after, id) >= 2
    ensures !(SpinsAlong(s, before, id) && SpinsAlong(Exec(s, before), after, id)
              && Spinning(Exec(Exec(s, before), after), id))
  {
    if SpinsAlong(s, before, id) && SpinsAlong(Exec(s, before), after, id)
       && Spinning(Exec(Exec(s, before), after), id) {
      RivalYields(s, before, id);
      ExecKeepsInv(s, before);
      WinnerEnters(Exec(s, before), after, id);
    }
  }

  /** With turn given away by the rival, two own accesses are enough. */
  lemma {:induction false} WinnerEnters(s: State, schedule: seq<Id>, id: Id)
    requires Inv(s) && Spinning(s, id)
    requires s.turn == Other(id) && s.pc[Other(id)] != Inside
    requires Count(schedule, id) >= (if s.pc[id] == ReadTurn then 1 else 2)
    ensures !SpinsAlong(s, schedule, id) || !Spinning(Exec(s, schedule), id)
    decreases |schedule|
  {
    if SpinsAlong(s, schedule, id) {
      var t := Step(s, schedule[0]);
      StepKeepsInv(s, schedule[0]);
      if Spinning(t, id) {
        WinnerEnters(t, schedule[1..], id);
      }
    }
  }
}
