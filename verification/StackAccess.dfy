/** The stacks a caller may see, read from the stack table page by page and checked
    batch by batch, and what the caller may do with each of them. */
module StackAccess {
  import opened Options
  import opened BatchChecks

  // ---- Pages ----

  datatype Stack = Stack(id: StackId, createdAt: int)

  /** The order stacks are listed in: newest first, and the later id first. */
  predicate PageOrderBefore(left: Stack, right: Stack) {
    if left.createdAt != right.createdAt then left.createdAt > right.createdAt else left.id > right.id
  }

  ghost predicate Ordered(stacks: seq<Stack>) {
    forall i, j :: 0 <= i < j < |stacks| ==> PageOrderBefore(stacks[i], stacks[j])
  }

  /** Listed stacks are newest first, and of one moment the later id first. */
  lemma ListedNewestFirst(stacks: seq<Stack>, i: nat, j: nat)
    requires Ordered(stacks) && i < j < |stacks|
    ensures stacks[i].createdAt >= stacks[j].createdAt
    ensures stacks[i].createdAt == stacks[j].createdAt ==> stacks[i].id > stacks[j].id
  {
    assert PageOrderBefore(stacks[i], stacks[j]);
  }

  const PAGE_SIZE := 50

  predicate IsAfter(cursor: Option<Stack>, stack: Stack) {
    cursor.None? || PageOrderBefore(cursor.value, stack)
  }

  function After(table: seq<Stack>, cursor: Option<Stack>): seq<Stack> {
    if table == [] then []
    else (if IsAfter(cursor, table[0]) then [table[0]] else []) + After(table[1..], cursor)
  }

  /** The page the query returns: a tenant's stacks in order, those after the
      cursor, as many as the limit. */
  function ListStacksPage(table: seq<Stack>, cursor: Option<Stack>, limit: nat): seq<Stack> {
    var rest := After(table, cursor);
    if |rest| <= limit then rest else rest[..limit]
  }

  lemma OrderedTogether(a: seq<Stack>, b: seq<Stack>)
    requires Ordered(a) && Ordered(b) && forall x, y :: x in a && y in b ==> PageOrderBefore(x, y)
    ensures Ordered(a + b)
  {}

  lemma {:induction false} AfterIsTheRest(table: seq<Stack>, cursor: Option<Stack>)
    requires Ordered(table)
    ensures Ordered(After(table, cursor))
    ensures forall stack :: stack in After(table, cursor) <==> stack in table && IsAfter(cursor, stack)
  {
    if table != [] {
      assert table == [table[0]] + table[1..];
      assert Ordered(table[1..]);
      AfterIsTheRest(table[1..], cursor);
      assert forall stack :: stack in table <==> stack == table[0] || stack in table[1..];
      OrderedTogether(if IsAfter(cursor, table[0]) then [table[0]] else [], After(table[1..], cursor));
    }
  }

  lemma {:induction false} AfterShrinks(table: seq<Stack>, cursor: Option<Stack>, next: Stack)
    requires IsAfter(cursor, next)
    ensures |After(table, Some(next))| <= |After(table, cursor)|
    ensures next in table ==> |After(table, Some(next))| < |After(table, cursor)|
  {
    if table != [] {
      AfterShrinks(table[1..], cursor, next);
      assert table == [table[0]] + table[1..];
    }
  }

  /** Of a page: it keeps the limit and the order, starts after the cursor, and
      leaves out only what comes after its last row, and that only if it is full.
      The three checks of a page that the listing makes never fail. */
  lemma PageIsSound(table: seq<Stack>, cursor: Option<Stack>)
    requires Ordered(table)
    ensures var page := ListStacksPage(table, cursor, PAGE_SIZE);
            && |page| <= 50 && Ordered(page)
            && (forall stack :: stack in page ==> stack in table && IsAfter(cursor, stack))
            && (forall stack :: stack in table && IsAfter(cursor, stack) && stack !in page ==>
                  |page| == PAGE_SIZE && PageOrderBefore(page[|page| - 1], stack))
  {
    var rest := After(table, cursor);
    var page := ListStacksPage(table, cursor, PAGE_SIZE);
    AfterIsTheRest(table, cursor);
    forall stack | stack in table && IsAfter(cursor, stack) && stack !in page
      ensures |page| == PAGE_SIZE && PageOrderBefore(page[|page| - 1], stack)
    {
      assert rest == page + rest[|page|..];
      var i :| 0 <= i < |rest[|page|..]| && rest[|page|..][i] == stack;
      assert PageOrderBefore(rest[|page| - 1], rest[|page| + i]);
    }
  }

  /** The stacks whose answer is yes. */
  function Visible(stacks: seq<Stack>, answers: seq<bool>): seq<Stack>
    requires |answers| == |stacks|
  {
    if stacks == [] then []
    else (if answers[0] then [stacks[0]] else []) + Visible(stacks[1..], answers[1..])
  }

  lemma {:induction false} VisibleAreThose(stacks: seq<Stack>, answers: seq<bool>, stack: Stack)
    requires |answers| == |stacks|
    ensures stack in Visible(stacks, answers) <==> exists i :: 0 <= i < |stacks| && stacks[i] == stack && answers[i]
  {
    if stacks != [] {
      VisibleAreThose(stacks[1..], answers[1..], stack);
      assert forall i :: 0 < i < |stacks| ==> stacks[i] == stacks[1..][i - 1] && answers[i] == answers[1..][i - 1];
    }
  }

  lemma {:induction false} VisibleKeepsOrder(stacks: seq<Stack>, answers: seq<bool>)
    requires |answers| == |stacks| && Ordered(stacks)
    ensures Ordered(Visible(stacks, answers)) && forall stack :: stack in Visible(stacks, answers) ==> stack in stacks
  {
    if stacks != [] {
      VisibleKeepsOrder(stacks[1..], answers[1..]);
      assert stacks == [stacks[0]] + stacks[1..];
      OrderedTogether(if answers[0] then [stacks[0]] else [], Visible(stacks[1..], answers[1..]));
    }
  }

  lemma HeadIsIn(stacks: seq<Stack>)
    ensures stacks != [] ==> stacks[0] in stacks
  {}

  lemma {:induction false} OrderedIsUnique(a: seq<Stack>, b: seq<Stack>)
    requires Ordered(a) && Ordered(b) && forall stack :: stack in a <==> stack in b
    ensures a == b
  {
    HeadIsIn(a);
    HeadIsIn(b);
    if a != [] && b != [] {
      assert a[0] in b && b[0] in a;
      assert a[0] == b[0];
      assert a == [a[0]] + a[1..] && b == [b[0]] + b[1..];
      assert forall stack :: stack in a[1..] <==> stack in a && stack != a[0];
      assert forall stack :: stack in b[1..] <==> stack in b && stack != b[0];
      OrderedIsUnique(a[1..], b[1..]);
    }
  }

  // ---- The listing ----

  function ViewChecks(stacks: seq<Stack>): seq<Check> {
    seq(|stacks|, i requires 0 <= i < |stacks| => Check(CanView, stacks[i].id))
  }

  predicate AllNamed(server: Server, stacks: seq<Stack>) {
    forall i :: 0 <= i < |stacks| ==> server.wellFormed(stacks[i].id)
  }

  predicate CanSee(allowed: Check -> bool, stack: Stack) {
    allowed(Check(CanView, stack.id))
  }

  /** Those of the stacks the server said yes to, in order: all the caller may see. */
  ghost predicate VisibleAmong(server: Server, stacks: seq<Stack>, visible: seq<Stack>) {
    && Ordered(visible)
    && (forall stack :: stack in visible ==> stack in stacks && SaidYes(server, Check(CanView, stack.id)))
    && (forall stack :: stack in stacks && MaySee(server, stack) ==> stack in visible)
  }

  /** The server answers faithfully, and allows the caller to see the stack. */
  ghost predicate MaySee(server: Server, stack: Stack) {
    exists allowed :: Faithful(server, allowed) && CanSee(allowed, stack)
  }

  ghost predicate IsFaithful(server: Server) {
    exists allowed :: Faithful(server, allowed)
  }

  /** The stacks of a page the caller may see. */
  method VisibleOfPage(server: Server, candidates: seq<Stack>) returns (visible: Option<seq<Stack>>)
    requires Ordered(candidates)
    ensures visible.Some? ==> AllNamed(server, candidates) && VisibleAmong(server, candidates, visible.value)
    ensures AllNamed(server, candidates) && IsFaithful(server) ==> visible.Some?
  {
    var checks: seq<Check> := [];
    for n := 0 to |candidates|
      invariant AllNamed(server, candidates[..n]) && checks == ViewChecks(candidates[..n])
    {
      if !server.wellFormed(candidates[n].id) { return None; }
      checks := checks + [Check(CanView, candidates[n].id)];
    }
    assert candidates[..|candidates|] == candidates;
    var answers := CanAll(server, checks);
    if answers.None? {
      NoAnswerIsUnfaithful(server, candidates);
      return None;
    }
    CanAllFailsClosed(server, checks);
    var kept := Keep(candidates, answers.value);
    KeptAreVisible(server, candidates, answers.value);
    return Some(kept);
  }

  lemma NoAnswerIsUnfaithful(server: Server, candidates: seq<Stack>)
    requires AllNamed(server, candidates) && Answers(server, ViewChecks(candidates)) == None
    ensures forall allowed :: !Faithful(server, allowed)
  {
    forall allowed ensures !Faithful(server, allowed) {
      if Faithful(server, allowed) { CanAllIsPointwise(server, allowed, ViewChecks(candidates)); }
    }
  }

  lemma KeptAreVisible(server: Server, candidates: seq<Stack>, answers: seq<bool>)
    requires Ordered(candidates) && AllNamed(server, candidates)
    requires Answers(server, ViewChecks(candidates)) == Some(answers) && |answers| == |candidates|
    ensures VisibleAmong(server, candidates, Visible(candidates, answers))
  {
    var checks := ViewChecks(candidates);
    CanAllFailsClosed(server, checks);
    VisibleKeepsOrder(candidates, answers);
    forall stack | stack in Visible(candidates, answers) ensures SaidYes(server, Check(CanView, stack.id)) {
      VisibleAreThose(candidates, answers, stack);
      var i :| 0 <= i < |candidates| && candidates[i] == stack && answers[i];
      assert checks[i] == Check(CanView, stack.id);
    }
    forall stack | stack in candidates && MaySee(server, stack)
      ensures stack in Visible(candidates, answers)
    {
      var allowed :| Faithful(server, allowed) && CanSee(allowed, stack);
      var i :| 0 <= i < |candidates| && candidates[i] == stack;
      CanAllIsPointwise(server, allowed, checks);
      assert checks[i] == Check(CanView, stack.id);
      VisibleAreThose(candidates, answers, stack);
    }
  }

  method Keep(candidates: seq<Stack>, answers: seq<bool>) returns (kept: seq<Stack>)
    requires |answers| == |candidates|
    ensures kept == Visible(candidates, answers)
  {
    kept := [];
    for n := 0 to |candidates|
      invariant Visible(candidates, answers) == kept + Visible(candidates[n..], answers[n..])
    {
      if answers[n] { kept := kept + [candidates[n]]; }
      assert candidates[n..][1..] == candidates[n + 1..] && answers[n..][1..] == answers[n + 1..];
    }
  }

  /** The table, and the server's answers, when a page is read and checked. */
  datatype Moment = Moment(table: seq<Stack>, server: Server)

  /** The stack was in the table, and the server said yes to it, at one moment. */
  ghost predicate AllowedOnce(moments: seq<Moment>, stack: Stack) {
    exists i :: 0 <= i < |moments| && stack in moments[i].table && SaidYes(moments[i].server, Check(CanView, stack.id))
  }

  /** The stack was there, and the caller might see it, throughout. */
  ghost predicate VisibleThroughout(moments: seq<Moment>, stack: Stack) {
    forall i :: 0 <= i < |moments| ==> stack in moments[i].table && MaySee(moments[i].server, stack)
  }

  /** What the listing holds: nothing twice, and nothing but what was there and
      allowed at one moment. */
  ghost predicate Justified(moments: seq<Moment>, accessible: seq<Stack>) {
    Ordered(accessible) && forall stack :: stack in accessible ==> AllowedOnce(moments, stack)
  }

  /** It misses nothing that was there and allowed throughout. */
  ghost predicate MissesNothing(moments: seq<Moment>, accessible: seq<Stack>) {
    forall stack :: VisibleThroughout(moments, stack) ==> stack in accessible
  }

  /** So far: the listing is up to the cursor, and misses nothing up to there. */
  ghost predicate ListedTo(moments: seq<Moment>, cursor: Option<Stack>, accessible: seq<Stack>) {
    && Justified(moments, accessible)
    && (forall stack :: stack in accessible ==> !IsAfter(cursor, stack))
    && (forall stack :: VisibleThroughout(moments, stack) && !IsAfter(cursor, stack) ==> stack in accessible)
  }

  /** The page read at a moment, and those of it the caller may see. */
  ghost predicate PageRead(moment: Moment, cursor: Option<Stack>, page: seq<Stack>, visible: seq<Stack>) {
    && Ordered(moment.table) && page == ListStacksPage(moment.table, cursor, PAGE_SIZE)
    && VisibleAmong(moment.server, page, visible)
  }

  lemma LongerListing(moments: seq<Moment>, n: nat, cursor: Option<Stack>, accessible: seq<Stack>, page: seq<Stack>, visible: seq<Stack>)
    requires n < |moments| && ListedTo(moments, cursor, accessible) && PageRead(moments[n], cursor, page, visible)
    ensures Justified(moments, accessible + visible)
  {
    PageIsSound(moments[n].table, cursor);
    forall x, y | x in accessible && y in visible ensures PageOrderBefore(x, y) {
      assert !IsAfter(cursor, x) && IsAfter(cursor, y);
    }
    OrderedTogether(accessible, visible);
    forall stack | stack in visible ensures AllowedOnce(moments, stack) {
      assert stack in moments[n].table && SaidYes(moments[n].server, Check(CanView, stack.id));
    }
  }

  /** A full page moves the cursor on and misses nothing on the way. */
  lemma FullPageIsListed(moments: seq<Moment>, n: nat, cursor: Option<Stack>, accessible: seq<Stack>, page: seq<Stack>, visible: seq<Stack>)
    requires n < |moments| && ListedTo(moments, cursor, accessible) && PageRead(moments[n], cursor, page, visible)
    requires |page| == PAGE_SIZE
    ensures var last := page[PAGE_SIZE - 1];
            && ListedTo(moments, Some(last), accessible + visible)
            && |After(moments[n].table, Some(last))| < |After(moments[n].table, cursor)|
  {
    var last := page[PAGE_SIZE - 1];
    LongerListing(moments, n, cursor, accessible, page, visible);
    PageIsSound(moments[n].table, cursor);
    assert last in page;
    AfterShrinks(moments[n].table, cursor, last);
    forall stack | stack in accessible + visible ensures !PageOrderBefore(last, stack) {
      if stack in accessible {
        assert !IsAfter(cursor, stack) && IsAfter(cursor, last);
      } else {
        var i :| 0 <= i < |page| && page[i] == stack;
      }
    }
    forall stack | VisibleThroughout(moments, stack) && !IsAfter(Some(last), stack)
      ensures stack in accessible + visible
    {
      assert stack in moments[n].table && MaySee(moments[n].server, stack);
    }
  }

  /** A page that is not full is the last. */
  lemma ShortPageEndsIt(moments: seq<Moment>, n: nat, cursor: Option<Stack>, accessible: seq<Stack>, page: seq<Stack>, visible: seq<Stack>)
    requires n < |moments| && ListedTo(moments, cursor, accessible) && PageRead(moments[n], cursor, page, visible)
    requires |page| < PAGE_SIZE
    ensures Justified(moments, accessible + visible) && MissesNothing(moments, accessible + visible)
  {
    LongerListing(moments, n, cursor, accessible, page, visible);
    PageIsSound(moments[n].table, cursor);
    forall stack | VisibleThroughout(moments, stack)
      ensures stack in accessible + visible
    {
      assert stack in moments[n].table && MaySee(moments[n].server, stack);
    }
  }

  lemma NamedPage(server: Server, table: seq<Stack>, page: seq<Stack>)
    requires AllNamed(server, table) ==> forall stack :: stack in page ==> stack in table
    ensures AllNamed(server, table) ==> AllNamed(server, page)
  {
    forall i | 0 <= i < |page| && AllNamed(server, table) ensures server.wellFormed(page[i].id) {
      assert page[i] in table;
    }
  }

  /** Lists the stacks a caller may see. Each page is read, and checked, at the next
      of the moments, or at the last of them from there on. */
  method ListAccessibleStacks(administrator: bool, moments: seq<Moment>) returns (listed: Option<seq<Stack>>)
    requires |moments| > 0 && forall i :: 0 <= i < |moments| ==> Ordered(moments[i].table)
    ensures administrator ==> listed == Some(moments[0].table)
    ensures !administrator && listed.Some? ==> Justified(moments, listed.value) && MissesNothing(moments, listed.value)
    ensures (forall i :: 0 <= i < |moments| ==> AllNamed(moments[i].server, moments[i].table) && IsFaithful(moments[i].server)) ==> listed.Some?
    ensures !administrator && |moments| == 1 && listed.Some? ==> AllNamed(moments[0].server, moments[0].table)
  {
    if administrator { return Some(moments[0].table); }
    var cursor: Option<Stack> := None;
    var accessible: seq<Stack> := [];
    var n := 0;
    while true
      invariant 0 <= n < |moments| && ListedTo(moments, cursor, accessible)
      invariant |moments| == 1 ==>
        forall stack :: stack in moments[0].table && !IsAfter(cursor, stack) ==> moments[0].server.wellFormed(stack.id)
      decreases |moments| - n, |After(moments[n].table, cursor)|
    {
      PageIsSound(moments[n].table, cursor);
      var candidates := ListStacksPage(moments[n].table, cursor, PAGE_SIZE);
      NamedPage(moments[n].server, moments[n].table, candidates);
      if |candidates| == 0 {
        ShortPageEndsIt(moments, n, cursor, accessible, candidates, []);
        assert accessible + [] == accessible;
        return Some(accessible);
      }
      var visible := VisibleOfPage(moments[n].server, candidates);
      if visible.None? { return None; }
      if |candidates| < PAGE_SIZE {
        ShortPageEndsIt(moments, n, cursor, accessible, candidates, visible.value);
        return Some(accessible + visible.value);
      }
      FullPageIsListed(moments, n, cursor, accessible, candidates, visible.value);
      accessible := accessible + visible.value;
      cursor := Some(candidates[|candidates| - 1]);
      if n + 1 < |moments| { n := n + 1; }
    }
  }

  /** The table's stacks the caller may see, in the table's order. */
  function CanSeeOf(allowed: Check -> bool, table: seq<Stack>): seq<Stack> {
    Visible(table, seq(|table|, i requires 0 <= i < |table| => CanSee(allowed, table[i])))
  }

  /** When nothing changes meanwhile, the listing is exactly the table filtered: no
      stack is missed and none is listed twice, whatever the number of pages. */
  lemma ListingIsTheFilter(server: Server, allowed: Check -> bool, table: seq<Stack>, listed: seq<Stack>)
    requires Ordered(table) && Faithful(server, allowed)
    requires Justified([Moment(table, server)], listed) && MissesNothing([Moment(table, server)], listed)
    ensures listed == CanSeeOf(allowed, table)
  {
    var answers := seq(|table|, i requires 0 <= i < |table| => CanSee(allowed, table[i]));
    VisibleKeepsOrder(table, answers);
    forall stack ensures stack in listed <==> stack in CanSeeOf(allowed, table) {
      VisibleAreThose(table, answers, stack);
      if stack in listed {
        assert AllowedOnce([Moment(table, server)], stack);
        YesIsAllowed(server, allowed, Check(CanView, stack.id));
      }
      if stack in CanSeeOf(allowed, table) {
        assert CanSee(allowed, stack);
        assert VisibleThroughout([Moment(table, server)], stack);
      }
    }
    OrderedIsUnique(listed, CanSeeOf(allowed, table));
  }

  // ---- What the caller may do ----

  /** What a caller may do with one stack. */
  datatype Capabilities = Capabilities(canView: bool, canOperate: bool, canApprove: bool, canManageAccess: bool)

  const RELATIONS := [CanView, CanOperate, CanApprove, CanManageAccess]

  /** Decodes one stack's run of answers, in the order the relations are asked. */
  function CapabilitiesFrom(answers: seq<bool>): Capabilities
    requires |answers| == |RELATIONS|
  {
    Capabilities(answers[0], answers[1], answers[2], answers[3])
  }

  function ChecksOf(id: StackId): seq<Check> {
    seq(|RELATIONS|, i requires 0 <= i < |RELATIONS| => Check(RELATIONS[i], id))
  }

  function ChecksOfAll(ids: seq<StackId>): (checks: seq<Check>)
    ensures |checks| == |RELATIONS| * |ids|
  {
    if ids == [] then [] else ChecksOfAll(ids[..|ids| - 1]) + ChecksOf(ids[|ids| - 1])
  }

  /** Each stack's checks are a run of their own. */
  lemma {:induction false} RunOfChecks(ids: seq<StackId>, i: nat)
    requires i < |ids|
    ensures ChecksOfAll(ids)[|RELATIONS| * i..|RELATIONS| * (i + 1)] == ChecksOf(ids[i])
  {
    var n: nat := |ids| - 1;
    var first, last := ChecksOfAll(ids[..n]), ChecksOf(ids[n]);
    if i < n {
      RunOfChecks(ids[..n], i);
      assert (first + last)[|RELATIONS| * i..|RELATIONS| * (i + 1)] == first[|RELATIONS| * i..|RELATIONS| * (i + 1)];
    } else {
      assert (first + last)[|RELATIONS| * i..|RELATIONS| * (i + 1)] == last;
    }
  }

  function AllowedTo(allowed: Check -> bool, id: StackId): Capabilities {
    Capabilities(allowed(Check(CanView, id)), allowed(Check(CanOperate, id)),
      allowed(Check(CanApprove, id)), allowed(Check(CanManageAccess, id)))
  }

  function Everything(ids: seq<StackId>): map<StackId, Capabilities> {
    map id | id in ids :: Capabilities(true, true, true, true)
  }

  function AllowedToEach(allowed: Check -> bool, ids: seq<StackId>): map<StackId, Capabilities> {
    map id | id in ids :: AllowedTo(allowed, id)
  }

  /** Decodes each stack's run of the answers. */
  method DecodeRuns(ids: seq<StackId>, answers: seq<bool>) returns (capabilities: map<StackId, Capabilities>)
    requires |answers| == |ChecksOfAll(ids)|
    ensures capabilities.Keys == set id | id in ids
    ensures forall allowed :: answers == Pointwise(allowed, ChecksOfAll(ids)) ==> capabilities == AllowedToEach(allowed, ids)
  {
    capabilities := map[];
    for n := 0 to |ids|
      invariant capabilities.Keys == set id | id in ids[..n]
      invariant forall allowed :: answers == Pointwise(allowed, ChecksOfAll(ids)) ==> capabilities == AllowedToEach(allowed, ids[..n])
    {
      var base := n * |RELATIONS|;
      var run := answers[base..base + |RELATIONS|];
      ghost var before := capabilities;
      RunOfChecks(ids, n);
      capabilities := capabilities[ids[n] := CapabilitiesFrom(run)];
      forall allowed | answers == Pointwise(allowed, ChecksOfAll(ids)) ensures capabilities == AllowedToEach(allowed, ids[..n + 1]) {
        RunIsDecoded(allowed, ChecksOfAll(ids), base, ids[n]);
        assert ids[..n + 1] == ids[..n] + [ids[n]];
        assert before == AllowedToEach(allowed, ids[..n]);
      }
    }
    assert ids[..|ids|] == ids;
  }

  /** The checks of every stack, if each names an object. */
  method BuildChecks(server: Server, ids: seq<StackId>) returns (checks: Option<seq<Check>>)
    ensures checks == if forall id :: id in ids ==> server.wellFormed(id) then Some(ChecksOfAll(ids)) else None
  {
    var built: seq<Check> := [];
    for n := 0 to |ids|
      invariant built == ChecksOfAll(ids[..n]) && forall id :: id in ids[..n] ==> server.wellFormed(id)
    {
      if !server.wellFormed(ids[n]) { return None; }
      assert ids[..n + 1][..n] == ids[..n];
      built := built + ChecksOf(ids[n]);
    }
    assert ids[..|ids|] == ids;
    return Some(built);
  }

  /** What the caller may do with each stack, all asked at once. An administrator
      may do everything. */
  method ResolveStacksCapabilities(server: Server, administrator: bool, ids: seq<StackId>)
    returns (resolved: Option<map<StackId, Capabilities>>)
    ensures administrator ==> resolved == Some(Everything(ids))
    ensures resolved.Some? ==> forall id :: id in resolved.value <==> id in ids
    ensures administrator ==> forall id :: id in ids ==> resolved.value[id] == Capabilities(true, true, true, true)
    ensures !administrator && resolved.Some? ==> forall allowed, id :: Faithful(server, allowed) && id in ids ==>
              && resolved.value[id].canView == allowed(Check(CanView, id))
              && resolved.value[id].canOperate == allowed(Check(CanOperate, id))
              && resolved.value[id].canApprove == allowed(Check(CanApprove, id))
              && resolved.value[id].canManageAccess == allowed(Check(CanManageAccess, id))
    ensures !administrator ==> forall allowed :: Faithful(server, allowed) ==>
              resolved == if forall id :: id in ids ==> server.wellFormed(id) then Some(AllowedToEach(allowed, ids)) else None
  {
    if administrator { return Some(Everything(ids)); }
    var checks := BuildChecks(server, ids);
    if checks.None? { return None; }
    var answers := CanAll(server, checks.value);
    AllChecksNamed(server, ids);
    CanAllFailsClosed(server, checks.value);
    forall allowed | Faithful(server, allowed) ensures answers == Some(Pointwise(allowed, checks.value)) {
      CanAllIsPointwise(server, allowed, checks.value);
    }
    if answers.None? { return None; }
    var capabilities := DecodeRuns(ids, answers.value);
    return Some(capabilities);
  }

  lemma {:induction false} AllChecksNamed(server: Server, ids: seq<StackId>)
    ensures WellFormed(server, ChecksOfAll(ids)) <==> forall id :: id in ids ==> server.wellFormed(id)
  {
    if ids != [] {
      var n := |ids| - 1;
      AllChecksNamed(server, ids[..n]);
      var first, last := ChecksOfAll(ids[..n]), ChecksOf(ids[n]);
      assert last[0].stack == ids[n];
      Split(server, _ => true, first, last);
      assert ids == ids[..n] + [ids[n]];
    }
  }

  lemma RunIsDecoded(allowed: Check -> bool, checks: seq<Check>, base: nat, id: StackId)
    requires base + |RELATIONS| <= |checks| && checks[base..base + |RELATIONS|] == ChecksOf(id)
    ensures CapabilitiesFrom(Pointwise(allowed, checks)[base..base + |RELATIONS|]) == AllowedTo(allowed, id)
  {
    var run := checks[base..base + |RELATIONS|];
    assert Pointwise(allowed, checks)[base..base + |RELATIONS|] == Pointwise(allowed, run);
    assert run[0] == Check(RELATIONS[0], id) && run[1] == Check(RELATIONS[1], id);
    assert run[2] == Check(RELATIONS[2], id) && run[3] == Check(RELATIONS[3], id);
  }
}
