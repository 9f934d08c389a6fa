/** Permission questions, asked of the authorization server in batches no larger
    than it accepts. */
module BatchChecks {
  import opened Options

  /** Stack ids are numbered in the order they sort. */
  type StackId = nat

  datatype Capability = CanView | CanOperate | CanApprove | CanManageAccess

  datatype Check = Check(capability: Capability, stack: StackId)

  /** The server's answer to one check of a batch. */
  datatype Single = Allowed(allowed: bool) | Failed

  /** The authorization server, whatever it answers: which ids name an object at
      all, and a response, keyed by position, to each batch. */
  datatype Server = Server(wellFormed: StackId -> bool, batch: seq<Check> -> map<nat, Single>)

  // ---- Batches ----

  const MAX_CHECKS_PER_BATCH := 50

  predicate WellFormed(server: Server, checks: seq<Check>) {
    forall i :: 0 <= i < |checks| ==> server.wellFormed(checks[i].stack)
  }

  /** The server answers every batch it accepts from the one relation. */
  ghost predicate Faithful(server: Server, allowed: Check -> bool) {
    forall chunk :: |chunk| <= MAX_CHECKS_PER_BATCH && WellFormed(server, chunk) ==>
      server.batch(chunk) == map i: nat | i < |chunk| :: Allowed(allowed(chunk[i]))
  }

  /** A response with one answer for each of n checks and nothing else. */
  predicate Complete(response: map<nat, Single>, n: nat) {
    |response| == n && forall i: nat :: i < n ==> i in response && response[i].Allowed?
  }

  function Decoded(response: map<nat, Single>, n: nat): seq<bool>
    requires Complete(response, n)
  {
    seq(n, i requires 0 <= i < n => response[i].allowed)
  }

  function Chunk(checks: seq<Check>): (chunk: seq<Check>)
    ensures checks != [] ==> chunk != []
  {
    if |checks| <= MAX_CHECKS_PER_BATCH then checks else checks[..MAX_CHECKS_PER_BATCH]
  }

  /** The answers to a list of checks, chunk by chunk, or none at all. */
  function Answers(server: Server, checks: seq<Check>): Option<seq<bool>> {
    if checks == [] then Some([])
    else
      var chunk := Chunk(checks);
      var response := server.batch(chunk);
      if !WellFormed(server, chunk) || !Complete(response, |chunk|) then None
      else
        match Answers(server, checks[|chunk|..])
        case None => None
        case Some(rest) => Some(Decoded(response, |chunk|) + rest)
  }

  function Joined(first: seq<bool>, rest: Option<seq<bool>>): Option<seq<bool>> {
    match rest
    case None => None
    case Some(answers) => Some(first + answers)
  }

  predicate Answerable(server: Server, chunk: seq<Check>) {
    WellFormed(server, chunk) && Complete(server.batch(chunk), |chunk|)
  }

  /** Once these answers are in, the rest of the checks decide. */
  predicate Answered(server: Server, checks: seq<Check>, start: nat, answers: seq<bool>)
    requires start <= |checks|
  {
    Answers(server, checks) == Joined(answers, Answers(server, checks[start..]))
  }

  lemma NothingAnswered(server: Server, checks: seq<Check>)
    ensures Answered(server, checks, 0, [])
  {
    assert checks[0..] == checks;
    var answers := Answers(server, checks);
    if answers.Some? { assert [] + answers.value == answers.value; }
  }

  lemma AllAnswered(server: Server, checks: seq<Check>, answers: seq<bool>)
    requires Answered(server, checks, |checks|, answers)
    ensures Answers(server, checks) == Some(answers)
  {
    assert checks[|checks|..] == [] && answers + [] == answers;
  }

  lemma NextAnswered(server: Server, checks: seq<Check>, start: nat, answers: seq<bool>, chunk: seq<Check>)
    requires start < |checks| && Answered(server, checks, start, answers) && chunk == Chunk(checks[start..])
    ensures if Answerable(server, chunk)
            then Answered(server, checks, start + |chunk|, answers + Decoded(server.batch(chunk), |chunk|))
            else Answers(server, checks) == None
  {
    var rest := checks[start..];
    assert rest[|chunk|..] == checks[start + |chunk|..];
    if Answerable(server, chunk) && Answers(server, rest[|chunk|..]).Some? {
      var decoded, others := Decoded(server.batch(chunk), |chunk|), Answers(server, rest[|chunk|..]).value;
      assert answers + (decoded + others) == (answers + decoded) + others;
    }
  }

  /** One batch: its answers go to their own places after start. */
  method CheckBatch(server: Server, chunk: seq<Check>, results: array<bool>, start: nat) returns (ok: bool)
    requires 0 < |chunk| <= MAX_CHECKS_PER_BATCH && start + |chunk| <= results.Length
    modifies results
    ensures ok <==> Answerable(server, chunk)
    ensures results[..start] == old(results[..start])
    ensures ok ==> results[start..start + |chunk|] == Decoded(server.batch(chunk), |chunk|)
  {
    for n := 0 to |chunk|
      invariant forall i :: 0 <= i < n ==> server.wellFormed(chunk[i].stack)
    {
      if !server.wellFormed(chunk[n].stack) { return false; }
    }
    var response := server.batch(chunk);
    if |response| != |chunk| { return false; }
    for n := 0 to |chunk|
      invariant results[..start] == old(results[..start])
      invariant forall i: nat :: i < n ==> i in response && response[i].Allowed? && results[start + i] == response[i].allowed
    {
      if n !in response || response[n].Failed? { return false; }
      results[start + n] := response[n].allowed;
    }
    return true;
  }

  /** Answers the checks in order, splitting them as the server requires. */
  method CanAll(server: Server, checks: seq<Check>) returns (answers: Option<seq<bool>>)
    ensures answers == Answers(server, checks)
  {
    if |checks| == 0 { return Some([]); }
    var results := new bool[|checks|];
    var start := 0;
    NothingAnswered(server, checks);
    assert results[..0] == [];
    while start < |checks|
      invariant 0 <= start <= |checks| && Answered(server, checks, start, results[..start])
    {
      var end := if start + MAX_CHECKS_PER_BATCH < |checks| then start + MAX_CHECKS_PER_BATCH else |checks|;
      var chunk := checks[start..end];
      assert chunk == Chunk(checks[start..]);
      NextAnswered(server, checks, start, results[..start], chunk);
      var ok := CheckBatch(server, chunk, results, start);
      if !ok { return None; }
      assert results[..end] == results[..start] + results[start..end];
      start := end;
    }
    AllAnswered(server, checks, results[..start]);
    return Some(results[..start]);
  }

  function Pointwise(allowed: Check -> bool, checks: seq<Check>): seq<bool> {
    seq(|checks|, i requires 0 <= i < |checks| => allowed(checks[i]))
  }

  /** For any number of checks, a faithful server's answers are those to each check
      on its own; one check of no object fails them all. */
  lemma {:induction false} CanAllIsPointwise(server: Server, allowed: Check -> bool, checks: seq<Check>)
    requires Faithful(server, allowed)
    ensures Answers(server, checks) ==
            if WellFormed(server, checks) then Some(Pointwise(allowed, checks)) else None
  {
    if checks != [] {
      var chunk := Chunk(checks);
      var rest := checks[|chunk|..];
      CanAllIsPointwise(server, allowed, rest);
      if WellFormed(server, chunk) { FaithfulIsComplete(server, allowed, chunk); }
      assert checks == chunk + rest;
      Split(server, allowed, chunk, rest);
    } else {
      assert Pointwise(allowed, checks) == [];
    }
  }

  lemma Split(server: Server, allowed: Check -> bool, chunk: seq<Check>, rest: seq<Check>)
    ensures WellFormed(server, chunk + rest) <==> WellFormed(server, chunk) && WellFormed(server, rest)
    ensures Pointwise(allowed, chunk + rest) == Pointwise(allowed, chunk) + Pointwise(allowed, rest)
  {
    var checks := chunk + rest;
    assert forall i :: 0 <= i < |chunk| ==> chunk[i] == checks[i];
    assert forall i :: 0 <= i < |rest| ==> rest[i] == checks[|chunk| + i];
    assert forall i :: |chunk| <= i < |checks| ==> checks[i] == rest[i - |chunk|];
  }

  lemma FaithfulIsComplete(server: Server, allowed: Check -> bool, chunk: seq<Check>)
    requires Faithful(server, allowed) && |chunk| <= MAX_CHECKS_PER_BATCH && WellFormed(server, chunk)
    ensures Complete(server.batch(chunk), |chunk|)
    ensures Decoded(server.batch(chunk), |chunk|) == Pointwise(allowed, chunk)
  {
    FirstNaturals(|chunk|, server.batch(chunk));
  }

  lemma {:induction false} FirstNaturals<T>(n: nat, entries: map<nat, T>)
    requires forall i: nat :: i in entries <==> i < n
    ensures |entries| == n
  {
    if n > 0 {
      FirstNaturals(n - 1, entries - {n - 1});
      assert entries.Keys == (entries - {n - 1}).Keys + {n - 1};
    } else {
      assert entries == map[];
    }
  }

  /** The server said yes to this check, in its own place of a batch it accepts. */
  ghost predicate SaidYes(server: Server, check: Check) {
    exists chunk, k: nat :: SaysYesAt(server, chunk, k, check)
  }

  predicate SaysYesAt(server: Server, chunk: seq<Check>, k: nat, check: Check) {
    && k < |chunk| <= MAX_CHECKS_PER_BATCH && WellFormed(server, chunk) && chunk[k] == check
    && k in server.batch(chunk) && server.batch(chunk)[k] == Allowed(true)
  }

  /** Whatever the server answers, nothing is allowed that it did not say yes to:
      every check is answered, each yes is its own. */
  lemma {:induction false} CanAllFailsClosed(server: Server, checks: seq<Check>)
    ensures var answers := Answers(server, checks);
            answers.Some? ==> |answers.value| == |checks|
                              && forall i :: 0 <= i < |checks| && answers.value[i] ==> SaidYes(server, checks[i])
  {
    var answers := Answers(server, checks);
    if checks != [] && answers.Some? {
      var chunk := Chunk(checks);
      var rest := checks[|chunk|..];
      CanAllFailsClosed(server, rest);
      forall i | 0 <= i < |checks| && answers.value[i] ensures SaidYes(server, checks[i]) {
        if i < |chunk| {
          assert SaysYesAt(server, chunk, i, checks[i]);
        } else {
          assert checks[i] == rest[i - |chunk|];
        }
      }
    }
  }

  lemma YesIsAllowed(server: Server, allowed: Check -> bool, check: Check)
    requires Faithful(server, allowed) && SaidYes(server, check)
    ensures allowed(check)
  {
    var chunk, k: nat :| SaysYesAt(server, chunk, k, check);
    assert server.batch(chunk) == map i: nat | i < |chunk| :: Allowed(allowed(chunk[i]));
  }

  /** One batch is answered exactly when every id in it names an object and the
      response holds one answer for each check and nothing else; each answer is then
      the one in the check's own place. */
  lemma BatchIsAnsweredExactly(server: Server, chunk: seq<Check>)
    requires 0 < |chunk| <= 50
    ensures var response := server.batch(chunk); var answers := Answers(server, chunk);
            && (answers.Some? <==>
                  && (forall i :: 0 <= i < |chunk| ==> server.wellFormed(chunk[i].stack))
                  && |response| == |chunk| && forall i: nat :: i < |chunk| ==> i in response && response[i].Allowed?)
            && (answers.Some? ==>
                  |answers.value| == |chunk| && forall i: nat :: i < |chunk| ==> answers.value[i] == response[i].allowed)
  {
    assert Answers(server, chunk[|chunk|..]) == Some([]);
  }
}
