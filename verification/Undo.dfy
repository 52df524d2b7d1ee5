/** Deleting after ensuring puts everything back. */
module Undo {
  import opened Strings
  import opened Subject
  import opened Store
  import opened Protocol
  import opened Ownership
  import opened Safety
  import opened Attempts
  import opened Resolution
  import Allowlist

  // ---- stages of a fault-free attempt

  lemma LookUpStage(digest: Digest, t: Task, kind: Kind, s: State)
    ensures var r := Resolve(s.directory, kind, t.job.want.Ref(kind));
            Exec(digest, LookUp(t, kind), s, [])
              == if r.None? then (Stopped(NotFound(kind)), s, []) else Exec(digest, WithTarget(t, kind, r.value), s, [])
  {
    hide TrimSpace, Pick, WithTarget, Exec;
    ExecStep(digest, LookUp(t, kind), s, []);
    if !Resolves(kind, Serve(s, Request(LookUp(t, kind))).1) {
      ExecStep(digest, Search(t, kind), s, []);
      ExecEnd(digest, Stopped(NotFound(kind)), s, []);
    }
  }

  lemma CheckStage(digest: Digest, t: Task, slot: Slot, s: State)
    ensures Exec(digest, CheckBinding(t, slot), s, [])
         == Exec(digest, WithBinding(t, slot),
                 if AnyGrantsTo(s.At(slot), t.account) then s else After(s, MakeBinding(t, slot)), [])
  {
    hide AnyGrantsTo, WithBinding, FreshId, BindingName, OwnershipLabels, Exec;
    ExecStep(digest, CheckBinding(t, slot), s, []);
    if !AnyGrantsTo(s.At(slot), t.account) {
      ExecStep(digest, MakeBinding(t, slot), s, []);
    }
  }

  /** One reference: resolved, allowed, and bound where it was not. */
  lemma GrantStage(digest: Digest, t: Task, kind: Kind, s: State) returns (slot: Slot)
    requires GrantsInKind(s, kind, t.account)
    requires Exec(digest, LookUp(t, kind), s, []).0.Ensured?
    ensures Exec(digest, LookUp(t, kind), s, [])
              == Exec(digest, WithBinding(t, slot), After(s, MakeBinding(t, slot)), [])
    ensures slot.kind == kind
    ensures exists target :: Resolve(s.directory, kind, t.job.want.Ref(kind)) == Some(target) && target.id == slot.id
  {
    hide TrimSpace, Resolve, AnyGrantsTo, WithBinding, After, Allowlist.Permitted, GrantsOf, Exec;
    LookUpStage(digest, t, kind, s);
    ExecEnd(digest, Stopped(NotAllowed(kind)), s, []);
    var r := Resolve(s.directory, kind, t.job.want.Ref(kind));
    slot := Slot(kind, r.value.id);
    CheckStage(digest, t, slot, s);
    NoGrant(s.At(slot), t.account);
  }

  /** No slot of the kind grants to the account. */
  ghost predicate GrantsInKind(s: State, kind: Kind, account: string) {
    forall slot: Slot | slot.kind == kind :: GrantsOf(s.At(slot), Some(account)) == []
  }

  function AccountMade(s: State, j: Job): ServiceAccount {
    var c := Request(MakeAccount(j));
    Resource(FreshId(s.next), c.name, c.labels, c.accountInfo)
  }

  function IdentityMade(s: State, j: Job, account: string): FederatedIdentity {
    var c := Request(MakeIdentity(j, account));
    Resource(FreshId(s.next), c.name, c.labels, c.identityInfo)
  }

  lemma FreshStage(digest: Digest, j: Job, s: State)
    requires Select(s.accounts, j.Labels()) == [] && Select(s.identities, j.Labels()) == []
    ensures var x := AccountMade(s, j);
            var s1 := After(s, MakeAccount(j));
            var s2 := After(s1, MakeIdentity(j, x.id));
            Exec(digest, FindAccount(j), s, [])
              == Exec(digest, FromPolicy(Task(j, x.id, IdentityMade(s1, j, x.id).id, [])), s2, [])
  {
    hide OwnershipLabels, LabelsMatch, FreshId, ServiceAccountName, FederatedIdentityName, Description, FromPolicy,
      Select, Find, Exec;
    FoundIsHeld(s.accounts, j.Labels());
    FoundIsHeld(s.identities, j.Labels());
    SelectFacts(s.accounts, j.Labels());
    SelectFacts(s.identities, j.Labels());
    var x := AccountMade(s, j);
    var s1 := After(s, MakeAccount(j));
    ExecStep(digest, FindAccount(j), s, []);
    ExecStep(digest, MakeAccount(j), s, []);
    ExecStep(digest, FindIdentity(j, x.id), s1, []);
    ExecStep(digest, MakeIdentity(j, x.id), s1, []);
  }

  // ---- stages of a fault-free deletion

  lemma DropLookUpStage(digest: Digest, c: Cleanup, account: string, kind: Kind, s: State)
    ensures var r := Resolve(s.directory, kind, c.Ref(kind));
            Exec(digest, DropLookUp(c, account, kind), s, [])
              == if r.None? then Exec(digest, DropAfter(c, account, kind), s, [])
                 else Exec(digest, DropListBindings(c, account, Slot(kind, r.value.id)), s, [])
  {
    hide TrimSpace, Pick, DropAfter, Exec;
    ExecStep(digest, DropLookUp(c, account, kind), s, []);
    if !Resolves(kind, Serve(s, Request(DropLookUp(c, account, kind))).1) {
      ExecStep(digest, DropSearch(c, account, kind), s, []);
    }
  }

  lemma {:induction false} RemovableLast(had: seq<Binding>, b: Binding, account: string)
    requires GrantsOf(had, Some(account)) == [] && GrantsTo(b, account) && Managed(b.labels)
    requires forall z | z in had :: z.id != b.id
    ensures Removable(had + [b], account) == [b] && Without(had + [b], b.id) == had
  {
    hide Managed;
    if had != [] {
      assert (had + [b])[1..] == had[1..] + [b];
      assert had == [had[0]] + had[1..];
      RemovableLast(had[1..], b, account);
    }
  }

  lemma {:induction false} WithoutLast<T>(had: seq<Resource<T>>, x: Resource<T>)
    requires forall z | z in had :: z.id != x.id
    ensures Without(had + [x], x.id) == had
  {
    if had != [] {
      assert (had + [x])[1..] == had[1..] + [x];
      assert had == [had[0]] + had[1..];
      WithoutLast(had[1..], x);
    }
  }

  /** The slot loses the one binding that was added to it. */
  lemma DropGrantStage(digest: Digest, c: Cleanup, account: string, s: State, slot: Slot, had: seq<Binding>,
                       b: Binding)
    requires var r := Resolve(s.directory, slot.kind, c.Ref(slot.kind)); r.Some? && r.value.id == slot.id
    requires s.At(slot) == had + [b] && GrantsTo(b, account) && Managed(b.labels)
    requires GrantsOf(had, Some(account)) == [] && forall z | z in had :: z.id != b.id
    ensures Exec(digest, DropLookUp(c, account, slot.kind), s, [])
         == Exec(digest, DropAfter(c, account, slot.kind), s.(bindings := s.bindings[slot := had]), [])
  {
    hide TrimSpace, Resolve, DropAfter, Managed, Removable, Without, GrantsOf, Exec, Step;
    DropLookUpStage(digest, c, account, slot.kind, s);
    RemovableLast(had, b, account);
    DropOneStage(digest, c, account, s, slot, b);
  }

  lemma DropOneStage(digest: Digest, c: Cleanup, account: string, s: State, slot: Slot, b: Binding)
    requires Removable(s.At(slot), account) == [b]
    ensures Exec(digest, DropListBindings(c, account, slot), s, [])
         == Exec(digest, DropAfter(c, account, slot.kind),
                 s.(bindings := s.bindings[slot := Without(s.At(slot), b.id)]), [])
  {
    hide TrimSpace, DropAfter, Removable, Without, Exec;
    assert [b][1..] == [];
    ExecStep(digest, DropListBindings(c, account, slot), s, []);
    ExecStep(digest, DropBinding(c, account, slot, [b]), s, []);
  }

  // ---- the two together

  /** What the role, then the policy, stage added, taken off again. */
  ghost predicate SameResources(s: State, s': State) {
    && s'.accounts == s.accounts && s'.identities == s.identities && s'.directory == s.directory
    && s'.providers == s.providers
    && forall slot :: s'.At(slot) == s.At(slot)
  }

  /** The state with one more binding in a slot, and what is known of it. */
  lemma BindingMade(s: State, t: Task, slot: Slot)
    requires Sound(s) && Issued(s.next, t.account)
    ensures var s' := After(s, MakeBinding(t, slot));
            && |s'.At(slot)| == |s.At(slot)| + 1
            && var b := s'.At(slot)[|s.At(slot)|];
               && s'.At(slot) == s.At(slot) + [b] && GrantsTo(b, t.account) && Managed(b.labels)
               && (forall z | z in s.At(slot) :: z.id != b.id)
               && s' == s.(bindings := s.bindings[slot := s.At(slot) + [b]], next := s.next + 1)
               && Sound(s') && Issued(s'.next, t.account)
  {
    hide LabelsMatch, OwnershipLabels, Managed, BindingName, FreshId, Registered;
    var s' := After(s, MakeBinding(t, slot));
    var b := s'.At(slot)[|s.At(slot)|];
    OwnershipMatch(b.labels, t.job.key, t.job.want.namespace, t.job.want.name);
    AddBinding(s, slot, b, map[]);
    IssuedLater(s.next, s'.next, t.account);
    assert SoundSlot(s.next, s.At(slot));
    RegisteredNotFresh(s.next, s.At(slot));
  }

  lemma RegisteredNotFresh<T>(next: nat, xs: seq<Resource<T>>)
    requires Registered(next, xs)
    ensures forall x | x in xs :: x.id != FreshId(next)
  {
    hide FreshId;
    FreshIsIssued(next);
  }

  /** From the role reference on: bind, then drop, in any store that agrees on the role slots. */
  lemma UndoRole(digest: Digest, t: Task, s: State, c: Cleanup)
    requires Sound(s) && Issued(s.next, t.account) && GrantsInKind(s, Role, t.account)
    requires c.Ref(Role) == t.job.want.Ref(Role)
    requires Exec(digest, FromRole(t), s, []).0.Ensured?
    ensures var (p, s', _) := Exec(digest, FromRole(t), s, []);
            && s'.accounts == s.accounts && s'.identities == s.identities && s'.directory == s.directory
            && s'.providers == s.providers
            && p.task.job == t.job && p.task.account == t.account && t.bound <= p.task.bound
            && (t.bound == [] ==> BoundPolicy(p.task.bound) == "")
            && (forall slot: Slot | slot.kind == Policy :: s'.At(slot) == s.At(slot))
            && forall q: State | q.directory == s.directory
                                 && (forall slot: Slot | slot.kind == Role :: q.At(slot) == s'.At(slot)) ::
                 RestoresRole(digest, c, t.account, s, q)
  {
    hide TrimSpace, Resolve, LabelsMatch, OwnershipLabels, Sound, Issued, GrantsOf, Managed, BindingName, FreshId,
      DropFromRole, Exec, RestoresRole, GrantsInKind;
    var (p, s', _) := Exec(digest, FromRole(t), s, []);
    if t.job.want.Ref(Role) == "" {
      ExecEnd(digest, Ensured(t), s, []);
      forall q: State | q.directory == s.directory
                        && (forall slot: Slot | slot.kind == Role :: q.At(slot) == s'.At(slot))
        ensures RestoresRole(digest, c, t.account, s, q)
      {
        NoRoleNoDrop(digest, c, t.account, s, q);
      }
    } else {
      var slot := GrantStage(digest, t, Role, s);
      BindingMade(s, t, slot);
      ExecEnd(digest, Ensured(t.(bound := t.bound + [slot])), After(s, MakeBinding(t, slot)), []);
      assert s' == After(s, MakeBinding(t, slot));
      assert GrantsOf(s.At(slot), Some(t.account)) == [] by { NoneInKind(s, slot, t.account); }
      var b := s'.At(slot)[|s.At(slot)|];
      forall q: State | q.directory == s.directory
                        && (forall other: Slot | other.kind == Role :: q.At(other) == s'.At(other))
        ensures RestoresRole(digest, c, t.account, s, q)
      {
        DropGrantStage(digest, c, t.account, q, slot, s.At(slot), b);
        RoleDropped(digest, c, t.account, s, q, q.(bindings := q.bindings[slot := s.At(slot)]));
      }
    }
  }

  lemma NoneInKind(s: State, slot: Slot, account: string)
    requires GrantsInKind(s, slot.kind, account)
    ensures GrantsOf(s.At(slot), Some(account)) == []
  {}

  /** Dropping from the role on ends at the account, with the role slots as in s and all else as in q. */
  ghost predicate RestoresRole(digest: Digest, c: Cleanup, account: string, s: State, q: State) {
    exists q' :: Exec(digest, DropFromRole(c, account), q, []) == Exec(digest, DropAccount(c, account), q', [])
                 && RoleSlotsOf(s, q, q')
  }

  ghost predicate RoleSlotsOf(s: State, q: State, q': State) {
    && q'.accounts == q.accounts && q'.identities == q.identities && q'.directory == q.directory
    && q'.providers == q.providers
    && forall slot :: q'.At(slot) == if slot.kind == Role then s.At(slot) else q.At(slot)
  }

  lemma NoRoleNoDrop(digest: Digest, c: Cleanup, account: string, s: State, q: State)
    requires c.Ref(Role) == "" && forall slot: Slot | slot.kind == Role :: q.At(slot) == s.At(slot)
    ensures RestoresRole(digest, c, account, s, q)
  {
    hide TrimSpace;
    assert RoleSlotsOf(s, q, q);
  }

  lemma RoleDropped(digest: Digest, c: Cleanup, account: string, s: State, q: State, q': State)
    requires c.Ref(Role) != "" && RoleSlotsOf(s, q, q')
    requires Exec(digest, DropLookUp(c, account, Role), q, []) == Exec(digest, DropAfter(c, account, Role), q', [])
    ensures RestoresRole(digest, c, account, s, q)
  {
    hide TrimSpace;
  }

  /** The end of a deletion, once the bindings are gone. */
  lemma DropAccountStage(digest: Digest, c: Cleanup, x: ServiceAccount, had: seq<ServiceAccount>, q: State)
    requires q.accounts == had + [x] && forall z | z in had :: z.id != x.id
    ensures Exec(digest, DropAccount(c, x.id), q, []) == (Dropped(c), q.(accounts := had), [])
  {
    hide Without;
    WithoutLast(had, x);
    assert Exec(digest, Dropped(c), q.(accounts := had), []) == (Dropped(c), q.(accounts := had), []);
  }

  lemma FindLast<T>(had: seq<Resource<T>>, x: Resource<T>, own: Labels)
    requires Select(had, own) == [] && LabelsMatch(x.labels, own)
    ensures Find(had + [x], own) == Some(x)
  {
    hide LabelsMatch;
    SelectSnoc(had, x, own);
    SelectFacts(had + [x], own);
  }

  /** The beginning of a deletion that finds what an ensure has just made. */
  lemma DropIdentityStage(digest: Digest, c: Cleanup, q: State, x: ServiceAccount, y: FederatedIdentity,
                          identities: seq<FederatedIdentity>)
    requires Find(q.accounts, c.Labels()) == Some(x) && Find(q.identities, c.Labels()) == Some(y)
    requires Without(q.identities, y.id) == identities
    ensures Exec(digest, DropFindIdentity(c), q, [])
              == Exec(digest, DropFromPolicy(c, x.id), q.(identities := identities), [])
  {
    hide LabelsMatch, OwnershipLabels, DropFromPolicy, Find, Without;
    var q' := q.(identities := identities);
    assert Step(digest, DropFindIdentity(c), q, Ok) == (DropIdentity(c, y.id), q);
    assert Step(digest, DropIdentity(c, y.id), q, Ok) == (DropFindAccount(c), q');
    assert Step(digest, DropFindAccount(c), q', Ok) == (DropFromPolicy(c, x.id), q');
    ThreeSteps(digest, DropFindIdentity(c), q, DropIdentity(c, y.id), q, DropFindAccount(c), q',
               DropFromPolicy(c, x.id), q');
  }

  lemma ThreeSteps(digest: Digest, p0: Position, s0: State, p1: Position, s1: State, p2: Position, s2: State,
                   p3: Position, s3: State)
    requires !Terminal(p0) && !Terminal(p1) && !Terminal(p2)
    requires Step(digest, p0, s0, Ok) == (p1, s1) && Step(digest, p1, s1, Ok) == (p2, s2)
             && Step(digest, p2, s2, Ok) == (p3, s3)
    ensures Exec(digest, p0, s0, []) == Exec(digest, p3, s3, [])
  {
    hide Step, Terminal;
    assert Exec(digest, p0, s0, []) == Exec(digest, p1, s1, []);
    assert Exec(digest, p1, s1, []) == Exec(digest, p2, s2, []);
    assert Exec(digest, p2, s2, []) == Exec(digest, p3, s3, []);
  }

  /** What binding and dropping from the policy on amounts to. */
  ghost predicate Undone(digest: Digest, t: Task, s: State, c: Cleanup) {
    var (p, s', _) := Exec(digest, FromPolicy(t), s, []);
    && p.Ensured?
    && s'.accounts == s.accounts && s'.identities == s.identities && s'.directory == s.directory
    && s'.providers == s.providers
    && p.task.job == t.job && p.task.account == t.account
    && forall q: State | q.directory == s.directory && (forall slot: Slot :: q.At(slot) == s'.At(slot)) ::
         RestoresAll(digest, c, t.account, s, q)
  }

  lemma UndoWithoutPolicy(digest: Digest, t: Task, s: State, c: Cleanup)
    requires Sound(s) && Issued(s.next, t.account) && GrantsInKind(s, Role, t.account)
    requires t.bound == [] && c.Ref(Role) == t.job.want.Ref(Role) && t.job.want.Ref(Policy) == ""
    requires Exec(digest, FromPolicy(t), s, []).0.Ensured?
    requires c.Ref(Policy) == TrimSpace(BoundPolicy(Exec(digest, FromPolicy(t), s, []).0.task.bound))
    ensures Undone(digest, t, s, c)
  {
    hide LabelsMatch, OwnershipLabels, Sound, Issued, GrantsOf, DropFromRole, FromRole, TrimSpace, Exec, GrantsInKind;
    var (p, s', _) := Exec(digest, FromPolicy(t), s, []);
    UndoRole(digest, t, s, c);
    EmptyIsBlank();
    assert c.Ref(Policy) == "";
    forall q: State | q.directory == s.directory && (forall slot: Slot :: q.At(slot) == s'.At(slot))
      ensures RestoresAll(digest, c, t.account, s, q)
    {
      assert RestoresRole(digest, c, t.account, s, q);
      AllFromRole(digest, c, t.account, s, s, q, q);
    }
  }

  lemma GrantsElsewhere(s: State, s1: State, slot: Slot, account: string)
    requires GrantsInKind(s, Role, account) && slot.kind == Policy && s1.bindings == s.bindings[slot := s1.At(slot)]
    ensures GrantsInKind(s1, Role, account)
  {
    hide GrantsOf;
    forall other: Slot | other.kind == Role
      ensures GrantsOf(s1.At(other), Some(account)) == []
    {
      assert s1.At(other) == s.At(other);
    }
  }

  lemma UndoWithPolicy(digest: Digest, t: Task, s: State, c: Cleanup)
    requires Sound(s) && Issued(s.next, t.account) && GrantsInKind(s, Role, t.account)
             && GrantsInKind(s, Policy, t.account)
    requires t.bound == [] && c.Ref(Role) == t.job.want.Ref(Role) && t.job.want.Ref(Policy) != ""
    requires Exec(digest, FromPolicy(t), s, []).0.Ensured?
    requires c.Ref(Policy) == TrimSpace(BoundPolicy(Exec(digest, FromPolicy(t), s, []).0.task.bound))
    requires ReResolves(s.directory, t.job.want.Ref(Policy))
    ensures Undone(digest, t, s, c)
  {
    hide Resolve, LabelsMatch, OwnershipLabels, Sound, Issued, GrantsOf, Managed, BindingName, FreshId, DropFromRole,
      FromRole, TrimSpace, Exec, GrantsInKind, After, RestoresAll, RestoresRole;
    var (p, s', _) := Exec(digest, FromPolicy(t), s, []);
    var slot := GrantStage(digest, t, Policy, s);
    var target := Resolve(s.directory, Policy, t.job.want.Ref(Policy)).value;
    var t1, s1 := t.(bound := [slot]), After(s, MakeBinding(t, slot));
    assert t.bound + [slot] == [slot];
    assert WithBinding(t, slot) == FromRole(t1);
    BindingMade(s, t, slot);
    GrantsElsewhere(s, s1, slot, t.account);
    assert GrantsInKind(s1, Role, t1.account);
    UndoRole(digest, t1, s1, c);
    assert [slot][0] == slot && p.task.bound[0] == slot;
    assert c.Ref(Policy) == TrimSpace(target.id);
    forall q: State | q.directory == s.directory && (forall other: Slot :: q.At(other) == s'.At(other))
      ensures RestoresAll(digest, c, t.account, s, q)
    {
      DropPolicyPart(digest, c, t.account, s, s1, s', q, slot);
    }
  }

  lemma DropPolicyPart(digest: Digest, c: Cleanup, account: string, s: State, s1: State, s': State, q: State,
                       slot: Slot)
    requires slot.kind == Policy && |s1.At(slot)| == |s.At(slot)| + 1
    requires var b := s1.At(slot)[|s.At(slot)|];
             && s1.At(slot) == s.At(slot) + [b] && GrantsTo(b, account) && Managed(b.labels)
             && forall z | z in s.At(slot) :: z.id != b.id
    requires s1.bindings == s.bindings[slot := s1.At(slot)]
    requires GrantsInKind(s, Policy, account)
    requires c.Ref(Policy) != "" && Resolve(q.directory, Policy, c.Ref(Policy)).Some?
             && Resolve(q.directory, Policy, c.Ref(Policy)).value.id == slot.id
    requires forall other: Slot :: q.At(other) == s'.At(other)
    requires forall other: Slot | other.kind == Policy :: s'.At(other) == s1.At(other)
    requires forall r: State | r.directory == q.directory
                               && (forall other: Slot | other.kind == Role :: r.At(other) == s'.At(other)) ::
               RestoresRole(digest, c, account, s1, r)
    ensures RestoresAll(digest, c, account, s, q)
  {
    hide Resolve, LabelsMatch, GrantsOf, Managed, DropFromRole, TrimSpace, Exec, RestoresAll, RestoresRole;
    var b := s1.At(slot)[|s.At(slot)|];
    assert GrantsOf(s.At(slot), Some(account)) == [];
    assert q.At(slot) == s1.At(slot);
    DropGrantStage(digest, c, account, q, slot, s.At(slot), b);
    var q1 := q.(bindings := q.bindings[slot := s.At(slot)]);
    assert forall other: Slot | other.kind == Role :: q1.At(other) == s'.At(other);
    assert RestoresRole(digest, c, account, s1, q1);
    forall other: Slot
      ensures s.At(other) == if other.kind == Role then s1.At(other) else q1.At(other)
    {
      assert other != slot ==> s1.At(other) == s.At(other);
    }
    AllFromRole(digest, c, account, s, s1, q, q1);
  }

  lemma UndoPolicy(digest: Digest, t: Task, s: State, c: Cleanup)
    requires Sound(s) && Issued(s.next, t.account) && GrantsInKind(s, Role, t.account)
             && GrantsInKind(s, Policy, t.account)
    requires t.bound == [] && c.Ref(Role) == t.job.want.Ref(Role)
    requires Exec(digest, FromPolicy(t), s, []).0.Ensured?
    requires c.Ref(Policy) == TrimSpace(BoundPolicy(Exec(digest, FromPolicy(t), s, []).0.task.bound))
    requires t.job.want.Ref(Policy) != "" ==> ReResolves(s.directory, t.job.want.Ref(Policy))
    ensures Undone(digest, t, s, c)
  {
    hide Undone, Sound, Issued, GrantsInKind, Exec, FromPolicy, TrimSpace, ReResolves;
    if t.job.want.Ref(Policy) == "" {
      UndoWithoutPolicy(digest, t, s, c);
    } else {
      UndoWithPolicy(digest, t, s, c);
    }
  }

  /** The identity of the policy a reference resolves to is not blank and, trimmed, resolves to itself. */
  ghost predicate ReResolves(d: Directory, ref: string) {
    var r := Resolve(d, Policy, ref);
    r.Some? ==> !Blank(r.value.id) && ResolvesTo(d, Policy, TrimSpace(r.value.id), r.value.id)
  }

  /** The service gives policies proper identities. */
  ghost predicate ProperIdentities(d: Directory) {
    && (forall t | t in d.policies :: !Blank(t.id) && Tight(t.id))
    && (forall slot | slot in d.direct && slot.kind == Policy :: Tight(slot.id))
  }

  /** With proper, unique identities and direct lookup by identity, every reference resolves to one that resolves to
      itself. */
  lemma IdentitiesReResolve(d: Directory, ref: string)
    requires DirectById(d) && UniqueIdentities(d.policies) && ProperIdentities(d)
    ensures ReResolves(d, ref)
  {
    hide TrimSpace, EqualFold, Tight;
    var r := Resolve(d, Policy, ref);
    if r.Some? {
      if Slot(Policy, ref) !in d.direct || Blank(d.direct[Slot(Policy, ref)].id) {
        var i := PolicyPick(d.policies, ref);
        assert r.value in d.policies;
      }
      TightIsFixed(r.value.id);
      ResolveAgain(d, ref, r.value);
    }
  }

  /** Dropping from the policy on ends at the account, with every slot as in s and all else as in q. */
  ghost predicate RestoresAll(digest: Digest, c: Cleanup, account: string, s: State, q: State) {
    exists q' :: Exec(digest, DropFromPolicy(c, account), q, []) == Exec(digest, DropAccount(c, account), q', [])
                 && AllSlotsOf(s, q, q')
  }

  ghost predicate AllSlotsOf(s: State, q: State, q': State) {
    && q'.accounts == q.accounts && q'.identities == q.identities && q'.directory == q.directory
    && q'.providers == q.providers
    && forall slot :: q'.At(slot) == s.At(slot)
  }

  lemma AllFromRole(digest: Digest, c: Cleanup, account: string, s: State, s1: State, q: State, q1: State)
    requires RestoresRole(digest, c, account, s1, q1)
    requires Exec(digest, DropFromPolicy(c, account), q, []) == Exec(digest, DropFromRole(c, account), q1, [])
    requires q1.accounts == q.accounts && q1.identities == q.identities && q1.directory == q.directory
             && q1.providers == q.providers
    requires forall slot: Slot :: s.At(slot) == if slot.kind == Role then s1.At(slot) else q1.At(slot)
    ensures RestoresAll(digest, c, account, s, q)
  {
    hide DropFromRole, DropFromPolicy;
    var q' :| Exec(digest, DropFromRole(c, account), q1, []) == Exec(digest, DropAccount(c, account), q', [])
              && RoleSlotsOf(s1, q1, q');
    assert AllSlotsOf(s, q, q');
  }

  /** Delete undoes ensure: from a store with nothing of the owner, a fault-free ensure followed by a fault-free delete
      with the policy identity it returned, the same role reference and the same issuer restores every list and every
      slot. */
  lemma DeleteUndoesEnsure(digest: Digest, want: EnsureInput, s: State)
    requires Sound(s)
    requires Exec(digest, StartEnsure(want), s, []).0.Ensured?
    requires var own := JobOf(digest, want, s).Labels();
             Select(s.accounts, own) == [] && Select(s.identities, own) == []
    requires want.Ref(Policy) != "" ==> ReResolves(s.directory, want.Ref(Policy))
    ensures var (p, s1, _) := Exec(digest, StartEnsure(want), s, []);
            var r := ResultOf(p.task);
            var (q, s2, _) :=
              Exec(digest, StartDelete(digest, want.namespace, want.name, r.issuer, want.roleRef, r.policy), s1, []);
            q.Dropped? && SameResources(s, s2)
  {
    hide ReResolves, Select, Sound, TrimSpace, JobOf, SameResources, Exec, StartEnsure;
    DeleteUndoes(digest, want, s, want.roleRef, ResultOf(Exec(digest, StartEnsure(want), s, []).0.task).policy);
  }

  /** The same with any texts that trim to the identity and to the role reference. */
  lemma DeleteUndoes(digest: Digest, want: EnsureInput, s: State, roleRef: string, policy: string)
    requires Sound(s)
    requires Exec(digest, StartEnsure(want), s, []).0.Ensured?
    requires TrimSpace(roleRef) == want.Ref(Role)
    requires TrimSpace(policy) == TrimSpace(ResultOf(Exec(digest, StartEnsure(want), s, []).0.task).policy)
    requires var own := JobOf(digest, want, s).Labels();
             Select(s.accounts, own) == [] && Select(s.identities, own) == []
    requires want.Ref(Policy) != "" ==> ReResolves(s.directory, want.Ref(Policy))
    ensures var (p, s1, _) := Exec(digest, StartEnsure(want), s, []);
            var r := ResultOf(p.task);
            var (q, s2, _) :=
              Exec(digest, StartDelete(digest, want.namespace, want.name, r.issuer, roleRef, policy), s1, []);
            r.issuer == JobOf(digest, want, s).issuer && q.Dropped? && SameResources(s, s2)
  {
    hide Resolve, LabelsMatch, OwnershipLabels, Sound, Issued, GrantsOf, Managed, FreshId, Select, TrimSpace,
      BuildSubject, ResourceKey, FromPolicy, DropFromPolicy, SelectProvider, NormalizeIssuer, GrantsInKind, After,
      AccountMade, IdentityMade, Exec, ReResolves, RestoresAll;
    var (p, s', _) := Exec(digest, StartEnsure(want), s, []);
    var j := JobOf(digest, want, s);
    var x, s1 := AccountMade(s, j), After(s, MakeAccount(j));
    var y, s2 := IdentityMade(s1, j, x.id), After(s1, MakeIdentity(j, x.id));
    var t := Task(j, x.id, y.id, []);
    StartIsFound(digest, want, s);
    FreshStage(digest, j, s);
    MadeFacts(s, j);
    var c := Cleanup(want.namespace, want.name, j.key, roleRef, policy);
    UndoPolicy(digest, t, s2, c);
    DeleteFacts(digest, want, j, roleRef, policy);
    FindLast(s.accounts, x, c.Labels());
    FindLast(s.identities, y, c.Labels());
    WithoutLast(s.identities, y);
    DropIdentityStage(digest, c, s', x, y, s.identities);
    var q := s'.(identities := s.identities);
    assert forall slot :: q.At(slot) == s'.At(slot);
    assert RestoresAll(digest, c, x.id, s2, q);
    Finish(digest, c, x, s, s2, q);
  }

  /** The store with the account and the identity an ensure has just made. */
  lemma MadeFacts(s: State, j: Job)
    requires Sound(s)
    ensures var x, s1 := AccountMade(s, j), After(s, MakeAccount(j));
            var y, s2 := IdentityMade(s1, j, x.id), After(s1, MakeIdentity(j, x.id));
            && s2 == s.(accounts := s.accounts + [x], identities := s.identities + [y], next := s.next + 2)
            && Sound(s2) && Issued(s2.next, x.id)
            && (forall z | z in s.accounts :: z.id != x.id) && (forall z | z in s.identities :: z.id != y.id)
            && LabelsMatch(x.labels, j.Labels()) && LabelsMatch(y.labels, j.Labels())
            && GrantsInKind(s2, Role, x.id) && GrantsInKind(s2, Policy, x.id)
  {
    hide LabelsMatch, OwnershipLabels, FreshId, ServiceAccountName, FederatedIdentityName, Description, Registered,
      GrantsOf, SoundSlot;
    var x, s1 := AccountMade(s, j), After(s, MakeAccount(j));
    var y, s2 := IdentityMade(s1, j, x.id), After(s1, MakeIdentity(j, x.id));
    OwnershipMatch(j.Labels(), j.key, j.want.namespace, j.want.name);
    AddAccount(s, x, j.Labels());
    AddIdentity(s1, y, j.Labels());
    RegisteredNotFresh(s.next, s.accounts);
    RegisteredNotFresh(s1.next, s.identities);
    FreshIsIssued(s.next);
    IssuedLater(s.next + 1, s2.next, x.id);
    forall slot: Slot
      ensures GrantsOf(s2.At(slot), Some(x.id)) == []
    {
      assert s2.At(slot) == s.At(slot);
      NoGrantToFresh(s.next, s.At(slot));
    }
  }

  lemma {:induction false} NoGrants(bs: seq<Binding>, a: Option<string>)
    requires forall b | b in bs :: b.info.account != a
    ensures GrantsOf(bs, a) == []
  {
    if bs != [] {
      assert bs == [bs[0]] + bs[1..];
      NoGrants(bs[1..], a);
    }
  }

  lemma NoGrantToFresh(next: nat, bs: seq<Binding>)
    requires SoundSlot(next, bs)
    ensures GrantsOf(bs, Some(FreshId(next))) == []
  {
    hide FreshId;
    FreshIsIssued(next);
    NoGrants(bs, Some(FreshId(next)));
  }

  lemma DeleteFacts(digest: Digest, want: EnsureInput, j: Job, roleRef: string, policy: string)
    requires j.want == want && BuildSubject(want.namespace, want.name) == Some(j.subject)
    requires j.key == ResourceKey(digest, want.namespace, want.name, j.subject, j.issuer)
    ensures StartDelete(digest, want.namespace, want.name, j.issuer, roleRef, policy)
         == DropFindIdentity(Cleanup(want.namespace, want.name, j.key, roleRef, policy))
  {
    hide BuildSubject, ResourceKey;
  }

  lemma Finish(digest: Digest, c: Cleanup, x: ServiceAccount, s: State, s2: State, q: State)
    requires RestoresAll(digest, c, x.id, s2, q) && q.accounts == s.accounts + [x] && q.identities == s.identities
    requires q.directory == s.directory && q.providers == s.providers && s2.bindings == s.bindings
    requires forall z | z in s.accounts :: z.id != x.id
    ensures var (p, s', _) := Exec(digest, DropFromPolicy(c, x.id), q, []);
            p == Dropped(c) && SameResources(s, s')
  {
    hide DropFromPolicy, Exec;
    var q' :| Exec(digest, DropFromPolicy(c, x.id), q, []) == Exec(digest, DropAccount(c, x.id), q', [])
              && AllSlotsOf(s2, q, q');
    DropAccountStage(digest, c, x, s.accounts, q');
    forall slot: Slot
      ensures q'.At(slot) == s.At(slot)
    {
      assert s2.At(slot) == s.At(slot);
    }
  }

  /** The job an ensure works on once it has a provider. */
  function JobOf(digest: Digest, want: EnsureInput, s: State): Job {
    var p := WithProvider(digest, want, SelectProvider(s.providers, want.cluster));
    if p.FindAccount? then p.job else Job(want, Provider("", "", map[]), "", "", "")
  }

  lemma StartIsFound(digest: Digest, want: EnsureInput, s: State)
    requires Exec(digest, StartEnsure(want), s, []).0.Ensured?
    ensures var j := JobOf(digest, want, s);
            && Exec(digest, StartEnsure(want), s, []) == Exec(digest, FindAccount(j), s, [])
            && j.want == want && BuildSubject(want.namespace, want.name) == Some(j.subject)
            && j.key == ResourceKey(digest, want.namespace, want.name, j.subject, j.issuer)
  {
    hide TrimSpace, SelectProvider, BuildSubject, NormalizeIssuer, ResourceKey, Request;
    assert StartEnsure(want) == FindProvider(want);
    assert Exec(digest, FindProvider(want), s, [])
             == Exec(digest, WithProvider(digest, want, SelectProvider(s.providers, want.cluster)), s, []);
  }
}
