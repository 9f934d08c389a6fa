/** Role changes on one stack: creating it, assigning a role and revoking every
    role, each one transaction after another. */
module StackRoles {
  import opened Options
  import opened Grants

  /** The tiers of the platform are grantable, but not on a stack. */
  predicate Storable(role: Role) {
    role != Admin && role != Editor
  }

  datatype Answer = Changed | LastOwner | NotStorable

  // ---- What the commands make of the roles held ----

  function OwnersOf(grants: set<Grant>): set<Grant> {
    set grant | grant in grants && grant.role == Owner
  }

  function HeldBy(grants: set<Grant>, subject: Subject): set<Grant> {
    set grant | grant in grants && grant.subject == subject
  }

  /** The subject holds the role, and none whose name sorts before it. */
  ghost predicate HoldsFirst(grants: set<Grant>, subject: Subject, role: Role) {
    Grant(subject, role) in grants
    && forall other :: Grant(subject, other) in grants ==> NameOrder(role) <= NameOrder(other)
  }

  /** The subject holds the role, and none whose name sorts after it. */
  ghost predicate HoldsLast(grants: set<Grant>, subject: Subject, role: Role) {
    Grant(subject, role) in grants
    && forall other :: Grant(subject, other) in grants ==> NameOrder(other) <= NameOrder(role)
  }

  /** The last-owner guards, as they are written: each looks at one held role. */
  ghost predicate AssignRefused(grants: set<Grant>, subject: Subject, role: Role) {
    HoldsFirst(grants, subject, Owner) && role != Owner && |OwnersOf(grants)| == 1
  }

  ghost predicate RevokeRefused(grants: set<Grant>, subject: Subject) {
    HoldsLast(grants, subject, Owner) && |OwnersOf(grants)| == 1
  }

  /** The subject holds exactly the one role; everyone else keeps theirs. */
  function WithRole(grants: set<Grant>, subject: Subject, role: Role): set<Grant> {
    grants - HeldBy(grants, subject) + {Grant(subject, role)}
  }

  function WithoutRoles(grants: set<Grant>, subject: Subject): set<Grant> {
    grants - HeldBy(grants, subject)
  }

  ghost function AssignAnswer(grants: set<Grant>, subject: Subject, role: Role): Answer {
    if AssignRefused(grants, subject, role) then LastOwner
    else if !Storable(role) then NotStorable
    else Changed
  }

  ghost function RevokeAnswer(grants: set<Grant>, subject: Subject): Answer {
    if RevokeRefused(grants, subject) then LastOwner else Changed
  }

  // ---- The commands ----

  function TupleOf(stack: string, grant: Grant): Tuple {
    Tuple(stack, Person(grant.subject, true), Direct(grant.role))
  }

  function Elements(grants: seq<Grant>): set<Grant> {
    set grant | grant in grants
  }

  lemma OneMoreElement(grants: seq<Grant>, n: nat)
    requires n < |grants|
    ensures Elements(grants[..n + 1]) == Elements(grants[..n]) + {grants[n]}
    ensures OwnersOf(Elements(grants[..n + 1])) ==
              OwnersOf(Elements(grants[..n])) + if grants[n].role == Owner then {grants[n]} else {}
  {
    assert grants[..n + 1] == grants[..n] + [grants[n]];
    assert Elements(grants[..n + 1]) == Elements(grants[..n]) + {grants[n]};
  }

  class StackRelationships {
    const stack: string
    var tuples: seq<Tuple>

    ghost function Held(): set<Grant>
      reads this
    {
      Assigned(tuples, stack)
    }

    ghost predicate Valid()
      reads this
    {
      Distinct(tuples) && Trusted(tuples, stack) && forall grant :: grant in Held() ==> Storable(grant.role)
    }

    /** A stack is created with its creator's grant and its edge to the platform. */
    constructor Create(stack: string, creator: Subject)
      ensures Valid() && this.stack == stack && Held() == {Grant(creator, Owner)}
    {
      this.stack := stack;
      tuples := [TupleOf(stack, Grant(creator, Owner)), Tuple(stack, NotAPerson, Structural)];
      new;
      assert tuples[0] in tuples && tuples[1] in tuples;
    }

    /** Writes one tuple; the store refuses a relation the stack type lacks. */
    method Write(grant: Grant) returns (written: bool)
      requires Valid() && grant !in Held()
      modifies this`tuples
      ensures Valid()
      ensures written <==> Storable(grant.role)
      ensures Held() == old(Held()) + if written then {grant} else {}
    {
      if !Storable(grant.role) { return false; }
      ghost var before := tuples;
      tuples := tuples + [TupleOf(stack, grant)];
      assert forall t :: t in tuples <==> t in before || t == TupleOf(stack, grant);
      AddedTuple(before, stack, grant);
      return true;
    }

    /** Deletes the tuples of the grants. */
    method Delete(grants: seq<Grant>)
      requires Valid() && Elements(grants) <= Held()
      modifies this`tuples
      ensures Valid()
      ensures Held() == old(Held()) - Elements(grants)
    {
      ghost var before := tuples;
      var kept: seq<Tuple> := [];
      for n := 0 to |tuples|
        invariant Distinct(kept)
        invariant forall t :: t in kept <==> t in tuples[..n] && !(exists grant :: grant in grants && t == TupleOf(stack, grant))
      {
        var deleted := false;
        for k := 0 to |grants|
          invariant deleted <==> exists grant :: grant in grants[..k] && tuples[n] == TupleOf(stack, grant)
        {
          if tuples[n] == TupleOf(stack, grants[k]) { deleted := true; }
        }
        assert grants[..|grants|] == grants;
        assert tuples[n] !in tuples[..n];
        if !deleted { kept := kept + [tuples[n]]; }
      }
      tuples := kept;
      assert before[..|before|] == before;
      DeletedTuples(before, kept, stack, grants);
    }

    /** The grants to revoke so that only the role stays, and whether it is there. */
    method Stale(held: seq<Grant>, role: Role) returns (stale: seq<Grant>, alreadyHeld: bool)
      ensures forall g :: g in stale <==> g in held && g.role != role
      ensures alreadyHeld <==> exists g :: g in held && g.role == role
    {
      stale, alreadyHeld := [], false;
      for n := 0 to |held|
        invariant forall g :: g in stale <==> g in held[..n] && g.role != role
        invariant alreadyHeld <==> exists g :: g in held[..n] && g.role == role
      {
        if held[n].role == role { alreadyHeld := true; } else { stale := stale + [held[n]]; }
      }
      assert held[..|held|] == held;
    }

    /** Deletes the subject's other roles and writes this one, if it is not there. */
    method Converge(held: seq<Grant>, subject: Subject, role: Role) returns (written: bool)
      requires Valid() && Elements(held) == HeldBy(Held(), subject)
      modifies this`tuples
      ensures written ==> Valid()
      ensures written <==> Storable(role)
      ensures written ==> Held() == WithRole(old(Held()), subject, role)
    {
      var stale, alreadyHeld := Stale(held, role);
      assert forall g :: g in held <==> g in Elements(held);
      assert Elements(stale) == Elements(held) - {Grant(subject, role)};
      assert alreadyHeld <==> Grant(subject, role) in Elements(held);
      if |stale| > 0 { Delete(stale); } else { assert Elements(stale) == {}; }
      assert Held() == old(Held()) - Elements(stale);
      if alreadyHeld { return true; }
      written := Write(Grant(subject, role));
    }

    /** Assigns the subject one role: every other role of theirs goes. A write the
        store refuses rolls the deletions back. */
    method AssignRole(subject: Subject, role: Role) returns (answer: Answer)
      requires Valid()
      modifies this`tuples
      ensures Valid()
      ensures answer == AssignAnswer(old(Held()), subject, role)
      ensures Held() == if answer == Changed then WithRole(old(Held()), subject, role) else old(Held())
    {
      var begin := tuples;
      var held, owners := HeldRoles(subject);
      if |held| > 0 && held[0].role == Owner && role != Owner && owners == 1 {
        return LastOwner;
      }
      var written := Converge(held, subject, role);
      if !written {
        tuples := begin;
        return NotStorable;
      }
      return Changed;
    }

    /** Revokes every role the subject holds. */
    method RevokeRole(subject: Subject) returns (answer: Answer)
      requires Valid()
      modifies this`tuples
      ensures Valid()
      ensures answer == RevokeAnswer(old(Held()), subject)
      ensures Held() == if answer == Changed then WithoutRoles(old(Held()), subject) else old(Held())
    {
      var held, owners := HeldRoles(subject);
      if |held| > 0 && held[|held| - 1].role == Owner && owners == 1 {
        return LastOwner;
      }
      if |held| > 0 { Delete(held); }
      return Changed;
    }

    /** The subject's grants, in the order they are listed, and how many owners the
        stack has. */
    method HeldRoles(subject: Subject) returns (held: seq<Grant>, owners: nat)
      requires Valid()
      ensures Elements(held) == HeldBy(Held(), subject)
      ensures owners == |OwnersOf(Held())|
      ensures |held| > 0 && held[0].role == Owner <==> HoldsFirst(Held(), subject, Owner)
      ensures |held| > 0 && held[|held| - 1].role == Owner <==> HoldsLast(Held(), subject, Owner)
    {
      DistinctTuplesAssignOnce(tuples, stack);
      var listed := ListGrants(tuples, stack);
      held, owners := Tally(listed.value, subject);
      assert Elements(listed.value) == Held();
      FirstAndLast(Held(), subject, held);
    }

    static method Tally(grants: seq<Grant>, subject: Subject) returns (held: seq<Grant>, owners: nat)
      requires Sorted(grants)
      ensures Sorted(held) && Elements(held) == HeldBy(Elements(grants), subject)
      ensures owners == |OwnersOf(Elements(grants))|
    {
      held, owners := [], 0;
      for n := 0 to |grants|
        invariant Sorted(held) && forall g :: g in held <==> g in grants[..n] && g.subject == subject
        invariant owners == |OwnersOf(Elements(grants[..n]))|
      {
        OneMoreElement(grants, n);
        assert grants[n] !in Elements(grants[..n]);
        if grants[n].role == Owner {
          owners := owners + 1;
        }
        if grants[n].subject == subject {
          SortedLonger(held, grants[n]);
          held := held + [grants[n]];
        }
      }
      assert grants[..|grants|] == grants;
    }
  }

  lemma SortedLonger(grants: seq<Grant>, last: Grant)
    requires Sorted(grants) && forall g :: g in grants ==> GrantBefore(g, last)
    ensures Sorted(grants + [last]) && forall g :: g in grants + [last] <==> g in grants || g == last
  {}

  lemma AddedTuple(before: seq<Tuple>, stack: string, grant: Grant)
    ensures Assigned(before + [TupleOf(stack, grant)], stack) == Assigned(before, stack) + {grant}
    ensures Trusted(before, stack) ==> Trusted(before + [TupleOf(stack, grant)], stack)
  {
    var after := before + [TupleOf(stack, grant)];
    assert forall t :: t in after <==> t in before || t == TupleOf(stack, grant);
    assert GrantFromTuple(TupleOf(stack, grant), stack) == IsGrant(grant);
  }

  lemma DeletedTuples(before: seq<Tuple>, kept: seq<Tuple>, stack: string, grants: seq<Grant>)
    requires forall t :: t in kept <==> t in before && !(exists grant :: grant in grants && t == TupleOf(stack, grant))
    ensures Assigned(kept, stack) == Assigned(before, stack) - Elements(grants)
    ensures Trusted(before, stack) ==> Trusted(kept, stack)
  {
    forall t | t in before && GrantFromTuple(t, stack).IsGrant?
      ensures t == TupleOf(stack, GrantFromTuple(t, stack).grant)
    {}
  }

  lemma FirstAndLast(grants: set<Grant>, subject: Subject, held: seq<Grant>)
    requires Sorted(held) && Elements(held) == HeldBy(grants, subject)
    ensures |held| > 0 && held[0].role == Owner <==> HoldsFirst(grants, subject, Owner)
    ensures |held| > 0 && held[|held| - 1].role == Owner <==> HoldsLast(grants, subject, Owner)
  {
    SameNameSameRole();
    assert forall role :: Grant(subject, role) in grants ==> Grant(subject, role) in Elements(held);
    if |held| > 0 {
      assert held[0] in Elements(held) && held[|held| - 1] in Elements(held);
    }
  }

  // ---- Every stack keeps an owner ----

  ghost predicate SingleRoles(grants: set<Grant>) {
    forall a, b :: a in grants && b in grants && a.subject == b.subject ==> a == b
  }

  ghost predicate Sound(grants: set<Grant>) {
    SingleRoles(grants) && OwnersOf(grants) != {}
  }

  lemma OneOwner(grants: set<Grant>, owner: Grant)
    requires owner in OwnersOf(grants)
    ensures |OwnersOf(grants)| == 1 <==> OwnersOf(grants) == {owner}
  {
    if |OwnersOf(grants)| == 1 {
      assert |OwnersOf(grants) - {owner}| == 0;
      assert OwnersOf(grants) == OwnersOf(grants) - {owner} + {owner};
    }
  }

  /** The owners a change leaves: an assignment of another role, and a revocation,
      both take the subject's ownership and no one else's. */
  lemma OwnersLeft(grants: set<Grant>, subject: Subject, role: Role)
    ensures role != Owner ==> OwnersOf(WithRole(grants, subject, role)) == OwnersOf(grants) - {Grant(subject, Owner)}
    ensures OwnersOf(WithoutRoles(grants, subject)) == OwnersOf(grants) - {Grant(subject, Owner)}
    ensures Grant(subject, Owner) in OwnersOf(WithRole(grants, subject, Owner))
  {}

  /** The guards never refuse a change that leaves an owner. */
  lemma RefusalsAreDeserved(grants: set<Grant>, subject: Subject, role: Role)
    ensures AssignRefused(grants, subject, role) ==> OwnersOf(WithRole(grants, subject, role)) == {}
    ensures RevokeRefused(grants, subject) ==> OwnersOf(WithoutRoles(grants, subject)) == {}
  {
    OwnersLeft(grants, subject, role);
    if Grant(subject, Owner) in grants { OneOwner(grants, Grant(subject, Owner)); }
  }

  /** They let through a change that leaves none exactly when the only owner holds
      a second role, on the side of owner that the guard does not look at. */
  lemma GuardsMissExactly(grants: set<Grant>, subject: Subject, role: Role)
    requires OwnersOf(grants) != {}
    ensures !AssignRefused(grants, subject, role) && OwnersOf(WithRole(grants, subject, role)) == {} <==>
              role != Owner && OwnersOf(grants) == {Grant(subject, Owner)}
              && exists other :: Grant(subject, other) in grants && NameOrder(other) < NameOrder(Owner)
    ensures !RevokeRefused(grants, subject) && OwnersOf(WithoutRoles(grants, subject)) == {} <==>
              OwnersOf(grants) == {Grant(subject, Owner)}
              && exists other :: Grant(subject, other) in grants && NameOrder(other) > NameOrder(Owner)
  {
    OwnersLeft(grants, subject, role);
    if Grant(subject, Owner) in grants {
      assert Grant(subject, Owner) in OwnersOf(grants);
      OneOwner(grants, Grant(subject, Owner));
    } else {
      assert OwnersOf(grants) - {Grant(subject, Owner)} == OwnersOf(grants);
    }
  }

  /** Alone, neither guard keeps an owner: the only owner of these stacks is an
      operator, or a viewer, too. */
  lemma GuardsAloneAreNotEnough()
    ensures var grants := {Grant(0, Operator), Grant(0, Owner)};
            OwnersOf(grants) != {} && AssignAnswer(grants, 0, Viewer) == Changed && OwnersOf(WithRole(grants, 0, Viewer)) == {}
    ensures var grants := {Grant(0, Owner), Grant(0, Viewer)};
            OwnersOf(grants) != {} && RevokeAnswer(grants, 0) == Changed && OwnersOf(WithoutRoles(grants, 0)) == {}
  {
    assert Grant(0, Owner) in OwnersOf({Grant(0, Operator), Grant(0, Owner)});
    assert Grant(0, Owner) in OwnersOf({Grant(0, Owner), Grant(0, Viewer)});
    assert Grant(0, Operator) in {Grant(0, Operator), Grant(0, Owner)};
    assert Grant(0, Viewer) in {Grant(0, Owner), Grant(0, Viewer)};
  }

  /** With one role each, the guards refuse exactly the changes that would leave
      the stack without an owner. */
  lemma GuardsAreExact(grants: set<Grant>, subject: Subject, role: Role)
    requires Sound(grants)
    ensures AssignRefused(grants, subject, role) <==> OwnersOf(WithRole(grants, subject, role)) == {}
    ensures RevokeRefused(grants, subject) <==> OwnersOf(WithoutRoles(grants, subject)) == {}
  {
    RefusalsAreDeserved(grants, subject, role);
    GuardsMissExactly(grants, subject, role);
  }

  // ---- Any serial run ----

  datatype Command = Assign(subject: Subject, role: Role) | Revoke(subject: Subject)

  ghost function Do(grants: set<Grant>, command: Command): set<Grant> {
    match command
    case Assign(subject, role) =>
      if AssignAnswer(grants, subject, role) == Changed then WithRole(grants, subject, role) else grants
    case Revoke(subject) =>
      if RevokeAnswer(grants, subject) == Changed then WithoutRoles(grants, subject) else grants
  }

  ghost function Replay(creator: Subject, commands: seq<Command>): set<Grant> {
    if commands == [] then {Grant(creator, Owner)}
    else Do(Replay(creator, commands[..|commands| - 1]), commands[|commands| - 1])
  }

  /** However its roles are changed, a stack has an owner and nobody holds two roles
      on it. */
  lemma {:induction false} EveryStackKeepsAnOwner(creator: Subject, commands: seq<Command>)
    ensures Sound(Replay(creator, commands))
  {
    if commands == [] {
      assert Grant(creator, Owner) in OwnersOf(Replay(creator, commands));
    } else {
      var grants, command := Replay(creator, commands[..|commands| - 1]), commands[|commands| - 1];
      EveryStackKeepsAnOwner(creator, commands[..|commands| - 1]);
      GuardsAreExact(grants, command.subject, if command.Assign? then command.role else Viewer);
    }
  }

  /** A change touches the roles of nobody else, and leaves its subject with exactly
      the role assigned, or none. */
  lemma ChangesAreExact(creator: Subject, commands: seq<Command>, command: Command, subject: Subject)
    ensures var before := Replay(creator, commands); var after := Do(before, command);
            && (subject != command.subject || after == before ==> HeldBy(after, subject) == HeldBy(before, subject))
            && (after != before ==>
                  HeldBy(after, command.subject) == if command.Assign? then {Grant(command.subject, command.role)} else {})
  {}

  // ---- Each command, grant by grant ----

  predicate OnlyOwner(grants: set<Grant>, subject: Subject) {
    Grant(subject, Owner) in grants && forall grant :: grant in grants && grant.role == Owner ==> grant.subject == subject
  }

  lemma OnlyOwnerExactly(grants: set<Grant>, subject: Subject)
    ensures OnlyOwner(grants, subject) <==> OwnersOf(grants) == {Grant(subject, Owner)}
  {
    if OwnersOf(grants) == {Grant(subject, Owner)} {
      assert Grant(subject, Owner) in OwnersOf(grants);
      assert forall grant :: grant in grants && grant.role == Owner ==> grant in OwnersOf(grants);
    }
  }

  /** With one role each, an assignment is refused to the only owner exactly when it
      is of another role, and of a role a stack cannot store in any case; otherwise the
      subject has it, and only it, and everybody else has what they had. */
  lemma AssignsExactly(grants: set<Grant>, subject: Subject, role: Role)
    requires Sound(grants)
    ensures var after, answer := Do(grants, Assign(subject, role)), AssignAnswer(grants, subject, role);
            && (answer == LastOwner <==> role != Owner && OnlyOwner(grants, subject))
            && (answer == NotStorable <==> role in {Admin, Editor} && !OnlyOwner(grants, subject))
            && if answer == Changed
               then forall grant :: grant in after <==> grant == Grant(subject, role) || (grant in grants && grant.subject != subject)
               else after == grants
  {
    RefusedToOnlyOwner(grants, subject, role);
  }

  lemma RefusedToOnlyOwner(grants: set<Grant>, subject: Subject, role: Role)
    requires Sound(grants)
    ensures AssignRefused(grants, subject, role) <==> role != Owner && OnlyOwner(grants, subject)
    ensures RevokeRefused(grants, subject) <==> OnlyOwner(grants, subject)
  {
    GuardsAreExact(grants, subject, role);
    OwnersLeft(grants, subject, role);
    OnlyOwnerExactly(grants, subject);
    if OwnersOf(grants) - {Grant(subject, Owner)} == {} {
      assert OwnersOf(grants) <= {Grant(subject, Owner)};
    }
  }

  /** A revocation is refused exactly to the only owner; otherwise the subject has no
      role, and everybody else has what they had. */
  lemma RevokesExactly(grants: set<Grant>, subject: Subject)
    requires Sound(grants)
    ensures var after, answer := Do(grants, Revoke(subject)), RevokeAnswer(grants, subject);
            && (answer == LastOwner <==> OnlyOwner(grants, subject))
            && (answer == Changed <==> !OnlyOwner(grants, subject))
            && if answer == Changed
               then forall grant :: grant in after <==> grant in grants && grant.subject != subject
               else after == grants
  {
    RefusedToOnlyOwner(grants, subject, Viewer);
  }
}
