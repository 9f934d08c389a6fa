/** The relationship tuples stored about one object, and the role assignments
    among them. Subjects are numbered in the order their names sort. */
module Grants {
  import opened Options

  type Subject = nat

  /** The grantable relations, in the order their names sort. */
  datatype Role = Admin | Approver | Editor | Operator | Owner | Viewer

  function NameOrder(role: Role): nat {
    match role
    case Admin => 0
    case Approver => 1
    case Editor => 2
    case Operator => 3
    case Owner => 4
    case Viewer => 5
  }

  /** A tuple's user is a person, named canonically or not, or something else: the
      platform, a userset. Its relation grants a role, wires the model together, or
      could never have been stored. */
  datatype User = Person(subject: Subject, canonical: bool) | NotAPerson
  datatype Relation = Direct(role: Role) | Structural | Unstorable
  datatype Tuple = Tuple(on: string, user: User, relation: Relation)

  datatype Grant = Grant(subject: Subject, role: Role)

  datatype Class = IsGrant(grant: Grant) | NotAGrant | Malformed

  /** What one stored tuple is to a reader asking about an object. */
  function GrantFromTuple(tuple: Tuple, on: string): Class {
    if tuple.on != on then Malformed
    else if tuple.user.NotAPerson? then NotAGrant
    else if !tuple.user.canonical then Malformed
    else if tuple.relation.Structural? then NotAGrant
    else if tuple.relation.Unstorable? then Malformed
    else IsGrant(Grant(tuple.user.subject, tuple.relation.role))
  }

  /** A tuple is a grant exactly when it is about the object, of a canonically named
      person, and of a role; it is malformed exactly when it is about another object,
      or of a person whose name or relation could not have been stored; and it is
      otherwise no grant. */
  lemma ClassifiedExactly(tuple: Tuple, on: string, grant: Grant)
    ensures GrantFromTuple(tuple, on) == IsGrant(grant) <==>
              tuple == Tuple(on, Person(grant.subject, true), Direct(grant.role))
    ensures GrantFromTuple(tuple, on) == Malformed <==>
              tuple.on != on || (tuple.user.Person? && (!tuple.user.canonical || tuple.relation == Unstorable))
    ensures GrantFromTuple(tuple, on) == NotAGrant <==>
              tuple.on == on && (tuple.user == NotAPerson || (tuple.user.canonical && tuple.relation == Structural))
  {
  }

  /** Grants are listed by subject, and a subject's by the names of the roles. */
  lemma ListedByName(grants: seq<Grant>, i: nat, j: nat)
    requires Sorted(grants) && i < j < |grants|
    ensures grants[i].subject <= grants[j].subject
    ensures grants[i].subject == grants[j].subject ==>
              var order := [Admin, Approver, Editor, Operator, Owner, Viewer];
              exists a, b :: 0 <= a < b < |order| && order[a] == grants[i].role && order[b] == grants[j].role
  {
    var order := [Admin, Approver, Editor, Operator, Owner, Viewer];
    assert order[NameOrder(grants[i].role)] == grants[i].role && order[NameOrder(grants[j].role)] == grants[j].role;
    assert GrantBefore(grants[i], grants[j]);
  }

  predicate GrantBefore(a: Grant, b: Grant) {
    a.subject < b.subject || (a.subject == b.subject && NameOrder(a.role) < NameOrder(b.role))
  }

  ghost predicate Sorted(grants: seq<Grant>) {
    forall i, j :: 0 <= i < j < |grants| ==> GrantBefore(grants[i], grants[j])
  }

  ghost predicate Distinct<T(!new)>(items: seq<T>) {
    forall i, j :: 0 <= i < j < |items| ==> items[i] != items[j]
  }

  /** The roles the tuples assign on the object. */
  ghost function Assigned(tuples: seq<Tuple>, on: string): set<Grant> {
    set tuple | tuple in tuples && GrantFromTuple(tuple, on).IsGrant? :: GrantFromTuple(tuple, on).grant
  }

  /** Nothing about the object that a reader could not have been shown. */
  ghost predicate Trusted(tuples: seq<Tuple>, on: string) {
    forall tuple :: tuple in tuples ==> GrantFromTuple(tuple, on) != Malformed
  }

  const READ_PAGE_SIZE := 100

  /** One page of the stored tuples, and where the next one starts. */
  method ReadPage(tuples: seq<Tuple>, token: nat) returns (page: seq<Tuple>, next: Option<nat>)
    requires token <= |tuples|
    ensures page == if token + READ_PAGE_SIZE < |tuples| then tuples[token..token + READ_PAGE_SIZE] else tuples[token..]
    ensures next == if token + READ_PAGE_SIZE < |tuples| then Some(token + READ_PAGE_SIZE) else None
  {
    if token + READ_PAGE_SIZE < |tuples| {
      page, next := tuples[token..token + READ_PAGE_SIZE], Some(token + READ_PAGE_SIZE);
    } else {
      page, next := tuples[token..], None;
    }
  }

  /** Puts one grant into its place among sorted grants. */
  method Place(grants: seq<Grant>, grant: Grant) returns (placed: seq<Grant>)
    requires Sorted(grants) && grant !in grants
    ensures Sorted(placed) && forall g :: g in placed <==> g == grant || g in grants
  {
    var n := 0;
    while n < |grants| && GrantBefore(grants[n], grant)
      invariant 0 <= n <= |grants|
      invariant forall i :: 0 <= i < n ==> GrantBefore(grants[i], grant)
    {
      n := n + 1;
    }
    assert n < |grants| ==> GrantBefore(grant, grants[n]) by { SameNameSameRole(); }
    placed := grants[..n] + [grant] + grants[n..];
    assert forall g :: g in grants <==> g in grants[..n] || g in grants[n..] by { assert grants == grants[..n] + grants[n..]; }
  }

  lemma SameNameSameRole()
    ensures forall a: Role, b: Role :: NameOrder(a) == NameOrder(b) ==> a == b
  {}

  /** Sorts distinct grants. */
  method Sort(grants: seq<Grant>) returns (sorted: seq<Grant>)
    requires Distinct(grants)
    ensures Sorted(sorted) && forall g :: g in sorted <==> g in grants
  {
    sorted := [];
    for n := 0 to |grants|
      invariant Sorted(sorted) && forall g :: g in sorted <==> g in grants[..n]
    {
      assert grants[n] !in grants[..n];
      sorted := Place(sorted, grants[n]);
    }
  }

  predicate AssignsAt(tuples: seq<Tuple>, on: string, i: nat, grant: Grant) {
    i < |tuples| && GrantFromTuple(tuples[i], on) == IsGrant(grant)
  }

  /** No role is assigned by two of the tuples. */
  ghost predicate NoDuplicates(tuples: seq<Tuple>, on: string) {
    forall i: nat, j: nat, grant :: AssignsAt(tuples, on, i, grant) && AssignsAt(tuples, on, j, grant) ==> i == j
  }

  /** A store that holds no tuple twice assigns no role twice. */
  lemma DistinctTuplesAssignOnce(tuples: seq<Tuple>, on: string)
    requires Distinct(tuples)
    ensures NoDuplicates(tuples, on)
  {
    forall i: nat, j: nat, grant | AssignsAt(tuples, on, i, grant) && AssignsAt(tuples, on, j, grant)
      ensures i == j
    {
      assert tuples[i] == tuples[j] == Tuple(on, Person(grant.subject, true), Direct(grant.role));
    }
  }

  /** What a reader holds after these tuples. */
  ghost predicate ReadSoFar(tuples: seq<Tuple>, on: string, grants: seq<Grant>) {
    && Trusted(tuples, on) && NoDuplicates(tuples, on) && Distinct(grants)
    && forall g :: g in grants <==> g in Assigned(tuples, on)
  }

  lemma AnotherRead(tuples: seq<Tuple>, on: string, grants: seq<Grant>, tuple: Tuple)
    requires ReadSoFar(tuples, on, grants)
    ensures GrantFromTuple(tuple, on).NotAGrant? ==> ReadSoFar(tuples + [tuple], on, grants)
    ensures GrantFromTuple(tuple, on).IsGrant? ==>
              var grant := GrantFromTuple(tuple, on).grant;
              if grant in grants then !NoDuplicates(tuples + [tuple], on)
              else ReadSoFar(tuples + [tuple], on, grants + [grant])
  {
    var next, kind := tuples + [tuple], GrantFromTuple(tuple, on);
    assert forall t :: t in next <==> t in tuples || t == tuple;
    if kind.IsGrant? {
      assert AssignsAt(next, on, |tuples|, kind.grant);
      if kind.grant in grants {
        var i :| 0 <= i < |tuples| && GrantFromTuple(tuples[i], on) == kind;
        assert AssignsAt(next, on, i, kind.grant);
      } else {
        AssignedOnce(tuples, on, tuple);
        assert Assigned(next, on) == Assigned(tuples, on) + {kind.grant};
      }
    } else if kind.NotAGrant? {
      AssignedOnce(tuples, on, tuple);
      assert Assigned(next, on) == Assigned(tuples, on);
    }
  }

  lemma AssignedOnce(tuples: seq<Tuple>, on: string, tuple: Tuple)
    requires NoDuplicates(tuples, on)
    requires GrantFromTuple(tuple, on).IsGrant? ==> GrantFromTuple(tuple, on).grant !in Assigned(tuples, on)
    ensures NoDuplicates(tuples + [tuple], on)
  {
    var next := tuples + [tuple];
    forall i: nat, j: nat, grant | AssignsAt(next, on, i, grant) && AssignsAt(next, on, j, grant)
      ensures i == j
    {
      if i < |tuples| {
        assert AssignsAt(tuples, on, i, grant);
        assert tuples[i] in tuples && grant in Assigned(tuples, on);
      }
      if j < |tuples| {
        assert AssignsAt(tuples, on, j, grant);
        assert tuples[j] in tuples && grant in Assigned(tuples, on);
      }
    }
  }

  lemma PrefixIsClean(tuples: seq<Tuple>, on: string, n: nat)
    requires n <= |tuples|
    ensures Trusted(tuples, on) ==> Trusted(tuples[..n], on)
    ensures NoDuplicates(tuples, on) ==> NoDuplicates(tuples[..n], on)
  {
    if NoDuplicates(tuples, on) {
      forall i: nat, j: nat, grant | AssignsAt(tuples[..n], on, i, grant) && AssignsAt(tuples[..n], on, j, grant)
        ensures i == j
      {
        assert AssignsAt(tuples, on, i, grant) && AssignsAt(tuples, on, j, grant);
      }
    }
  }

  /** Every role assigned on the object, sorted by subject then role, whatever the
      pages the store reads its tuples in; it fails exactly when the store holds
      something it could not have held. */
  method ListGrants(tuples: seq<Tuple>, on: string) returns (listed: Option<seq<Grant>>)
    ensures listed.Some? <==> Trusted(tuples, on) && NoDuplicates(tuples, on)
    ensures listed.Some? ==> Sorted(listed.value) && forall g :: g in listed.value <==> g in Assigned(tuples, on)
  {
    var grants: seq<Grant> := [];
    var token: Option<nat> := Some(0);
    ghost var read := 0;
    while token.Some?
      invariant token == Some(read) || (token.None? && read == |tuples|)
      invariant 0 <= read <= |tuples| && ReadSoFar(tuples[..read], on, grants)
      decreases |tuples| - read, token.Some?
    {
      var page, next := ReadPage(tuples, token.value);
      for n := 0 to |page|
        invariant ReadSoFar(tuples[..read + n], on, grants)
      {
        ghost var before := tuples[..read + n];
        assert page[n] == tuples[read + n] && tuples[..read + n + 1] == before + [page[n]];
        AnotherRead(before, on, grants, page[n]);
        PrefixIsClean(tuples, on, read + n + 1);
        match GrantFromTuple(page[n], on)
        case NotAGrant =>
        case Malformed => return None;
        case IsGrant(grant) =>
          if grant in grants { return None; }
          grants := grants + [grant];
      }
      read := read + |page|;
      token := next;
    }
    assert tuples[..read] == tuples;
    var sorted := Sort(grants);
    return Some(sorted);
  }
}
