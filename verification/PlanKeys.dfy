/** The run's plan key under concurrency. Reading the key, making one and filling
    the empty column are separate statements, so any number of calls interleave
    with each other and with the write that ends the run. */
module PlanKeys {
  import opened Options
  import opened Runs

  /** Where one call of CreatePlanKey or PlanKey stands. */
  datatype Call =
    | Reads(creates: bool)      // about to read the column
    | Fills(made: Key)          // found it empty, made a key, about to store it
    | RereadsWinner             // stored nothing, about to read the winner's key
    | Returned(creates: bool, key: Option<Key>)

  datatype KeyState = KeyState(column: Option<Key>, ended: bool, calls: map<nat, Call>)

  datatype KeyAction =
    | Begin(call: nat, creates: bool)
    | Step(call: nat, made: Key)
    | EndRun

  /** A call's next statement: the column and the call after it. */
  function Stepped(column: Option<Key>, ended: bool, call: Call, made: Key): (Option<Key>, Call) {
    match call
    case Reads(creates) =>
      (column, if column.Some? || !creates then Returned(creates, column) else Fills(made))
    case Fills(key) =>
      if column.None? && !ended then (Some(key), Returned(true, Some(key))) else (column, RereadsWinner)
    case RereadsWinner => (column, Returned(true, column))
    case Returned(_, _) => (column, call)
  }

  function Do(s: KeyState, action: KeyAction): KeyState {
    match action
    case Begin(call, creates) => if call in s.calls then s else s.(calls := s.calls[call := Reads(creates)])
    case Step(call, made) =>
      if call !in s.calls then s
      else
        var (column, next) := Stepped(s.column, s.ended, s.calls[call], made);
        s.(column := column, calls := s.calls[call := next])
    case EndRun => s.(column := None, ended := true)
  }

  function Replay(actions: seq<KeyAction>): KeyState {
    if actions == [] then KeyState(None, false, map[])
    else Do(Replay(actions[..|actions| - 1]), actions[|actions| - 1])
  }

  predicate Got(s: KeyState, call: nat, key: Key) {
    call in s.calls && s.calls[call].Returned? && s.calls[call].key == Some(key)
  }

  /** A run has one key in its life: while it has it every call returns it, and
      it loses it only by ending. */
  ghost predicate OneKey(s: KeyState) {
    && (s.ended ==> s.column.None?)
    && (forall c: nat, k: Key :: Got(s, c, k) ==> s.column == Some(k) || s.ended)
    && (forall c: nat, d: nat, k: Key, l: Key :: Got(s, c, k) && Got(s, d, l) ==> k == l)
  }

  lemma {:induction false} OneKeyAlways(actions: seq<KeyAction>)
    ensures OneKey(Replay(actions))
  {
    if actions != [] {
      var s, action := Replay(actions[..|actions| - 1]), actions[|actions| - 1];
      OneKeyAlways(actions[..|actions| - 1]);
      forall c: nat, k: Key | Got(Do(s, action), c, k)
        ensures Got(s, c, k) || s.column == Some(k) || (s.column.None? && !s.ended && Do(s, action).column == Some(k))
      {
      }
    }
  }

  /** Every successful call, whichever order they ran in, has the same key, and
      it is the column's while the run is in flight; a run that ended has none. */
  lemma SuccessfulCallsAgree(actions: seq<KeyAction>, c: nat, d: nat, k: Key, l: Key)
    requires Got(Replay(actions), c, k) && Got(Replay(actions), d, l)
    ensures k == l
    ensures Replay(actions).column == if Replay(actions).ended then None else Some(k)
  {
    OneKeyAlways(actions);
  }

  /** After a run has ended no call, however far it had come, gets a key: what a
      call has returned by then is all it ever returns. */
  lemma {:induction false} NoKeyAfterTheEnd(actions: seq<KeyAction>, n: nat, c: nat, k: Key)
    requires n <= |actions| && Replay(actions[..n]).ended
    ensures Replay(actions).ended && Replay(actions).column.None?
    ensures Got(Replay(actions), c, k) ==> Got(Replay(actions[..n]), c, k)
  {
    if n == |actions| {
      assert actions[..n] == actions;
      OneKeyAlways(actions);
    } else {
      assert actions[..|actions| - 1][..n] == actions[..n];
      NoKeyAfterTheEnd(actions[..|actions| - 1], n, c, k);
    }
  }

  /** Whoever lost the race to fill the column finds the winner's key in it, until
      the run ends; and a call that makes a key comes back without one only then. */
  ghost predicate CreatesSucceed(s: KeyState) {
    forall c :: c in s.calls ==>
      && (s.calls[c] == RereadsWinner ==> s.column.Some? || s.ended)
      && (s.calls[c] == Returned(true, None) ==> s.ended)
  }

  lemma {:induction false} CreatesSucceedAlways(actions: seq<KeyAction>)
    ensures CreatesSucceed(Replay(actions))
  {
    if actions != [] {
      CreatesSucceedAlways(actions[..|actions| - 1]);
    }
  }

  /** A call that makes keys fails only of a run that has ended. */
  lemma FailedCreatesMeanEnded(actions: seq<KeyAction>, c: nat)
    requires c in Replay(actions).calls && Replay(actions).calls[c] == Returned(true, None)
    ensures Replay(actions).ended
  {
    CreatesSucceedAlways(actions);
  }

  /** And a call takes at most three statements, and then has returned. */
  lemma CallsReturn(s: KeyState, call: nat, a: Key, b: Key, c: Key)
    requires call in s.calls
    ensures Do(Do(Do(s, Step(call, a)), Step(call, b)), Step(call, c)).calls[call].Returned?
  {
  }
}
