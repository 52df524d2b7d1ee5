/** A second ensure after a successful one: what it answers, and exactly when it writes nothing. */
module Quiescence {
  import opened Strings
  import opened Subject
  import opened Sorting
  import opened Store
  import opened Protocol
  import opened Ownership
  import opened Safety
  import opened Attempts
  import opened Resolution
  import opened Undo
  import Allowlist

  /** The attempt makes no writing call up to its end. */
  ghost predicate Quiet(digest: Digest, p: Position, s: State, script: Script)
    decreases Stage(p), Left(p)
  {
    Terminal(p) ||
    (!IsWrite(Request(p)) &&
     (StageDrops(digest, p, s, Head(script));
      var (p', s') := Step(digest, p, s, Head(script));
      Quiet(digest, p', s', Tail(script))))
  }

  /** Without faults, the input's reference leads to this slot: it resolves to its identity and is permitted. */
  predicate LeadsTo(d: Directory, want: EnsureInput, slot: Slot) {
    Grantable(d, want, slot.kind) && ResolvesTo(d, slot.kind, want.Ref(slot.kind), slot.id)
  }

  /** Every slot bound is still the one its reference leads to without faults. */
  ghost predicate AllLead(d: Directory, want: EnsureInput, bound: seq<Slot>) {
    forall slot | slot in bound :: LeadsTo(d, want, slot)
  }

  /** The service may return scopes and audiences of an identity in another order. */
  ghost predicate Shuffled(x: FederatedIdentity, y: FederatedIdentity) {
    && y == x.(info := x.info.(scopes := y.info.scopes, audiences := y.info.audiences))
    && multiset(y.info.scopes) == multiset(x.info.scopes)
    && multiset(y.info.audiences) == multiset(x.info.audiences)
  }

  ghost predicate Reordered(s: State, s': State) {
    && s' == s.(identities := s'.identities)
    && |s'.identities| == |s.identities|
    && forall i | 0 <= i < |s.identities| :: Shuffled(s.identities[i], s'.identities[i])
  }

  /** Everything an update compares, except the subject. */
  ghost predicate UpToDate(x: FederatedIdentity, j: Job) {
    && multiset(x.info.scopes) == multiset(j.want.scopes)
    && multiset(x.info.audiences) == multiset(j.want.audiences)
    && (x.info.matchMode == "" || x.info.matchMode == MATCH_ANY)
    && x.name == IdentityName(j) && x.info.description == Description(j.subject)
    && LabelsMatch(x.labels, j.Labels()) && x.info.annotatedSubject == j.subject
  }

  lemma NeedsUpdateIff(x: FederatedIdentity, j: Job)
    ensures !NeedsUpdate(x, j) <==> UpToDate(x, j) && x.info.subject == j.subject
  {
    hide LabelsMatch, OwnershipLabels, FederatedIdentityName, Description, SameAfterSort;
    SameAfterSortIff(x.info.scopes, j.want.scopes);
    SameAfterSortIff(x.info.audiences, j.want.audiences);
  }

  // ---- what the first attempt leaves behind

  /** Where a failed answer stops the attempt, success means the call worked. */
  lemma SuccessNeedsOk(digest: Digest, p: Position, s: State, script: Script)
    requires !Terminal(p) && Advance(digest, p, Failed).Stopped?
    ensures Exec(digest, p, s, script).0.Ensured? ==> Head(script) == Ok
  {
    hide Advance, Request, Serve;
    var (p', s') := Step(digest, p, s, Head(script));
    assert Head(script) != Ok ==> p' == Advance(digest, p, Failed);
    assert p'.Stopped? ==> Exec(digest, p', s', Tail(script)).0 == p';
  }

  lemma AccountStage(digest: Digest, j: Job, s: State, script: Script)
    returns (x: ServiceAccount, s': State, rest: Script)
    requires Exec(digest, FindAccount(j), s, script).0.Ensured?
    ensures Exec(digest, FindAccount(j), s, script) == Exec(digest, FindIdentity(j, x.id), s', rest)
    ensures Find(s'.accounts, j.Labels()) == Some(x) && (script == [] ==> rest == [])
    ensures var found := Find(s.accounts, j.Labels()); if found.None? then x == AccountMade(s, j) else found == Some(x)
    ensures s'.identities == s.identities && s'.directory == s.directory && s'.providers == s.providers
            && s'.bindings == s.bindings
  {
    hide LabelsMatch, OwnershipLabels, FreshId, ServiceAccountName, Find, Select;
    assert Head(script) == Ok;
    rest := Tail(script);
    var r := Find(s.accounts, j.Labels());
    if r.Some? {
      x, s' := r.value, s;
    } else {
      assert Exec(digest, FindAccount(j), s, script) == Exec(digest, MakeAccount(j), s, rest);
      assert Head(rest) == Ok;
      s' := After(s, MakeAccount(j));
      x := AccountMade(s, j);
      rest := Tail(rest);
      FoundIsHeld(s.accounts, j.Labels());
      OwnershipMatch(x.labels, j.key, j.want.namespace, j.want.name);
      FindLast(s.accounts, x, j.Labels());
    }
  }

  lemma FirstDiffers<T>(xs: seq<Resource<T>>, x: Resource<T>)
    requires DistinctIds(xs) && xs != [] && x in xs[1..]
    ensures xs[0].id != x.id && DistinctIds(xs[1..])
  {
    var i :| 0 <= i < |xs[1..]| && xs[1..][i] == x;
    assert xs[i + 1] == x;
  }

  lemma {:induction false} FindReplaced<T>(xs: seq<Resource<T>>, x: Resource<T>, y: Resource<T>, own: Labels)
    requires Find(xs, own) == Some(x) && y.id == x.id && LabelsMatch(y.labels, own) && DistinctIds(xs)
    ensures Find(Replace(xs, y), own) == Some(y) && Lookup(xs, x.id) == Some(x)
  {
    hide LabelsMatch, DistinctIds;
    var r := Replace(xs, y);
    if !LabelsMatch(xs[0].labels, own) {
      FindFacts(xs[1..], own);
      FirstDiffers(xs, x);
      FindReplaced(xs[1..], x, y, own);
      assert r[1..] == Replace(xs[1..], y) && r[0] == xs[0];
    } else {
      assert r[0] == y;
    }
  }

  /** The identity has its subject and its provider from here: the job's where it is new, else what it was found
      with. */
  predicate OriginFrom(y: FederatedIdentity, found: Option<FederatedIdentity>, j: Job) {
    match found
    case None => y.info.subject == j.subject && y.info.provider == j.provider.id
    case Some(x) => y.info.subject == x.info.subject && y.info.provider == x.info.provider
  }

  /** The owner's identity is up to date after this stage; its subject and provider are the old ones where there was
      one. */
  lemma IdentityStage(digest: Digest, j: Job, account: string, s: State, script: Script)
    returns (y: FederatedIdentity, s': State, rest: Script)
    requires DistinctIds(s.identities)
    requires Exec(digest, FindIdentity(j, account), s, script).0.Ensured?
    ensures Exec(digest, FindIdentity(j, account), s, script)
              == Exec(digest, FromPolicy(Task(j, account, y.id, [])), s', rest)
    ensures Find(s'.identities, j.Labels()) == Some(y) && UpToDate(y, j) && (script == [] ==> rest == [])
    ensures OriginFrom(y, Find(s.identities, j.Labels()), j)
    ensures s'.accounts == s.accounts && s'.directory == s.directory && s'.providers == s.providers
            && s'.bindings == s.bindings
  {
    hide LabelsMatch, OwnershipLabels, FreshId, FederatedIdentityName, Description, Find, Select, FromPolicy,
      NeedsUpdate, UpToDate, Replace, Lookup;
    assert Head(script) == Ok;
    rest := Tail(script);
    var own := j.Labels();
    OwnershipMatch(own, j.key, j.want.namespace, j.want.name);
    match Find(s.identities, own)
    case None =>
      assert Exec(digest, FindIdentity(j, account), s, script) == Exec(digest, MakeIdentity(j, account), s, rest);
      SuccessNeedsOk(digest, MakeIdentity(j, account), s, rest);
      s' := After(s, MakeIdentity(j, account));
      y := IdentityMade(s, j, account);
      rest := Tail(rest);
      FoundIsHeld(s.identities, own);
      FindLast(s.identities, y, own);
      MadeUpToDate(s, j, account);
    case Some(x) =>
      NeedsUpdateIff(x, j);
      if !NeedsUpdate(x, j) {
        y, s' := x, s;
      } else {
        assert Exec(digest, FindIdentity(j, account), s, script)
                 == Exec(digest, FixIdentity(j, account, x.id), s, rest);
        SuccessNeedsOk(digest, FixIdentity(j, account, x.id), s, rest);
        y := Updated(x, Request(FixIdentity(j, account, x.id)));
        s' := s.(identities := Replace(s.identities, y));
        FindReplaced(s.identities, x, y, own);
        FixedUpToDate(j, account, x);
        assert Step(digest, FixIdentity(j, account, x.id), s, Ok) == (FromPolicy(Task(j, account, y.id, [])), s');
        rest := Tail(rest);
      }
  }

  lemma MadeUpToDate(s: State, j: Job, account: string)
    ensures UpToDate(IdentityMade(s, j, account), j)
  {
    hide LabelsMatch, OwnershipLabels, FederatedIdentityName, Description, FreshId;
    OwnershipMatch(j.Labels(), j.key, j.want.namespace, j.want.name);
  }

  lemma FixedUpToDate(j: Job, account: string, x: FederatedIdentity)
    ensures UpToDate(Updated(x, Request(FixIdentity(j, account, x.id))), j)
  {
    hide LabelsMatch, OwnershipLabels, FederatedIdentityName, Description;
    OwnershipMatch(j.Labels(), j.key, j.want.namespace, j.want.name);
  }

  /** A reference is settled: the slot it was bound to grants to the account. */
  ghost predicate Settled(s: State, t: Task, kind: Kind, slot: Slot) {
    slot.kind == kind && AnyGrantsTo(s.At(slot), t.account)
  }

  lemma TargetStage(digest: Digest, t: Task, kind: Kind, s: State, script: Script)
    returns (target: Target, rest: Script)
    requires Exec(digest, LookUp(t, kind), s, script).0.Ensured?
    ensures Exec(digest, LookUp(t, kind), s, script) == Exec(digest, WithTarget(t, kind, target), s, rest)
    ensures script == [] ==> rest == [] && Resolve(s.directory, kind, t.job.want.Ref(kind)) == Some(target)
  {
    hide TrimSpace, Pick, WithTarget, Answered, Exec;
    ResolutionFollows(digest, t, kind, s, script);
    AnsweredInFull(s.directory, kind, t.job.want.Ref(kind));
    var (r, rest') := Answered(s.directory, kind, t.job.want.Ref(kind), script);
    if r.Failure? { ExecEnd(digest, Stopped(r.error), s, rest'); }
    target, rest := r.value, rest';
  }

  lemma KindStage(digest: Digest, t: Task, kind: Kind, s: State, script: Script)
    returns (slot: Slot, s': State, rest: Script)
    requires Exec(digest, LookUp(t, kind), s, script).0.Ensured?
    ensures Exec(digest, LookUp(t, kind), s, script) == Exec(digest, WithBinding(t, slot), s', rest)
    ensures Settled(s', t, kind, slot)
    ensures script == [] ==> rest == [] && LeadsTo(s.directory, t.job.want, slot)
    ensures s'.accounts == s.accounts && s'.identities == s.identities && s'.directory == s.directory
            && s'.providers == s.providers
    ensures forall other: Slot | other != slot :: s'.At(other) == s.At(other)
  {
    hide TrimSpace, Resolve, AnyGrantsTo, WithBinding, Allowlist.Permitted, BindingName, OwnershipLabels, FreshId,
      Exec;
    var target, rest0 := TargetStage(digest, t, kind, s, script);
    slot := Slot(kind, target.id);
    ExecEnd(digest, Stopped(NotAllowed(kind)), s, rest0);
    assert WithTarget(t, kind, target) == CheckBinding(t, slot);
    SuccessNeedsOk(digest, CheckBinding(t, slot), s, rest0);
    ExecStep(digest, CheckBinding(t, slot), s, rest0);
    rest := Tail(rest0);
    if AnyGrantsTo(s.At(slot), t.account) {
      s' := s;
    } else {
      SuccessNeedsOk(digest, MakeBinding(t, slot), s, rest);
      ExecStep(digest, MakeBinding(t, slot), s, rest);
      s' := After(s, MakeBinding(t, slot));
      rest := Tail(rest);
      GrantAdded(s, t, slot);
    }
  }

  lemma GrantAdded(s: State, t: Task, slot: Slot)
    ensures AnyGrantsTo(After(s, MakeBinding(t, slot)).At(slot), t.account)
  {
    hide OwnershipLabels, BindingName, FreshId;
    var bs := After(s, MakeBinding(t, slot)).At(slot);
    assert bs[|s.At(slot)|] in bs && GrantsTo(bs[|s.At(slot)|], t.account);
  }

  /** Every reference the job asks for is settled in s, and together they lead to the end. */
  ghost predicate AllSettled(s: State, t: Task, end: Task) {
    exists ps: seq<Slot>, rs: seq<Slot> ::
      && end == t.(bound := ps + rs)
      && (if t.job.want.Ref(Policy) == "" then ps == [] else |ps| == 1 && Settled(s, t, Policy, ps[0]))
      && (if t.job.want.Ref(Role) == "" then rs == [] else |rs| == 1 && Settled(s, t, Role, rs[0]))
  }

  lemma SettledElsewhere(s: State, s': State, t: Task, t': Task, kind: Kind, slot: Slot)
    requires Settled(s, t, kind, slot) && s'.At(slot) == s.At(slot) && t'.account == t.account
    ensures Settled(s', t', kind, slot)
  {
    hide AnyGrantsTo;
  }

  lemma RoleStage(digest: Digest, t: Task, s: State, script: Script) returns (rs: seq<Slot>)
    requires Exec(digest, FromRole(t), s, script).0.Ensured?
    ensures var (p, s', _) := Exec(digest, FromRole(t), s, script);
            && p == Ensured(t.(bound := t.bound + rs))
            && (if t.job.want.Ref(Role) == "" then rs == [] else |rs| == 1 && Settled(s', t, Role, rs[0]))
            && s'.accounts == s.accounts && s'.identities == s.identities && s'.directory == s.directory
            && s'.providers == s.providers
            && forall slot: Slot | slot.kind == Policy :: s'.At(slot) == s.At(slot)
    ensures script == [] ==> AllLead(s.directory, t.job.want, rs)
  {
    hide TrimSpace, Settled, LeadsTo;
    if t.job.want.Ref(Role) == "" {
      rs := [];
      assert t.bound + [] == t.bound;
    } else {
      var slot, s2, rest := KindStage(digest, t, Role, s, script);
      KindOfSettled(s2, t, Role, slot);
      rs := [slot];
      assert WithBinding(t, slot) == Ensured(t.(bound := t.bound + [slot]));
    }
  }

  lemma BindingStage(digest: Digest, t: Task, s: State, script: Script)
    requires t.bound == [] && Exec(digest, FromPolicy(t), s, script).0.Ensured?
    ensures var (p, s', _) := Exec(digest, FromPolicy(t), s, script);
            && AllSettled(s', t, p.task)
            && s'.accounts == s.accounts && s'.identities == s.identities && s'.directory == s.directory
            && s'.providers == s.providers
            && (script == [] ==> AllLead(s.directory, t.job.want, p.task.bound))
  {
    hide TrimSpace, Settled, FromRole, Exec, LeadsTo;
    var (p, s', _) := Exec(digest, FromPolicy(t), s, script);
    if t.job.want.Ref(Policy) == "" {
      var rs := RoleStage(digest, t, s, script);
      assert [] + rs == rs;
    } else {
      var slot, s1, rest := KindStage(digest, t, Policy, s, script);
      KindOfSettled(s1, t, Policy, slot);
      var t1 := t.(bound := [slot]);
      assert [] + [slot] == [slot];
      assert WithBinding(t, slot) == FromRole(t1);
      var rs := RoleStage(digest, t1, s1, rest);
      SettledElsewhere(s1, s', t, t, Policy, slot);
      if rs != [] { SettledElsewhere(s', s', t1, t, Role, rs[0]); }
      assert [slot][0] == slot;
    }
  }

  lemma KindOfSettled(s: State, t: Task, kind: Kind, slot: Slot)
    requires Settled(s, t, kind, slot)
    ensures slot.kind == kind
  {}

  predicate Granting(p: Position) {
    p.LookUp? || p.Search? || p.CheckBinding? || p.MakeBinding? || p.Ensured? || p.Stopped?
  }

  lemma GrantingGoesOn(digest: Digest, p: Position, s: State, o: Outcome)
    requires !Terminal(p) && Granting(p)
    ensures var (p', s') := Step(digest, p, s, o); Granting(p') && s'.identities == s.identities
  {
    hide TrimSpace, Pick, AnyGrantsTo, Allowlist.Permitted, OwnershipLabels, BindingName, FreshId;
  }

  lemma {:induction false} GrantingKeepsIdentities(digest: Digest, p: Position, s: State, script: Script)
    requires Granting(p)
    ensures Exec(digest, p, s, script).1.identities == s.identities
    decreases Stage(p), Left(p)
  {
    hide Granting, Step;
    if !Terminal(p) {
      StageDrops(digest, p, s, Head(script));
      GrantingGoesOn(digest, p, s, Head(script));
      GrantingKeepsIdentities(digest, Step(digest, p, s, Head(script)).0, Step(digest, p, s, Head(script)).1,
                              Tail(script));
    }
  }

  lemma PolicyIsGranting(t: Task)
    ensures Granting(FromPolicy(t))
  {
    hide TrimSpace;
  }

  /** An ensure that succeeds, through whatever faults, leaves the owner's first identity with everything asked for,
      and with the subject and the provider of the identity found beforehand, when there was one. */
  lemma EnsureUpdates(digest: Digest, want: EnsureInput, s: State, script: Script)
    requires DistinctIds(s.identities) && Exec(digest, StartEnsure(want), s, script).0.Ensured?
    ensures var j := JobOf(digest, want, s);
            var found := Find(Exec(digest, StartEnsure(want), s, script).1.identities, j.Labels());
            && j.want == want && found.Some? && UpToDate(found.value, j)
            && OriginFrom(found.value, Find(s.identities, j.Labels()), j)
  {
    hide Exec, StartEnsure, UpToDate, OriginFrom, Find, FromPolicy, Granting, DistinctIds, WithProvider, TrimSpace,
      OwnershipLabels;
    FirstCall(digest, want, s, script);
    var j := JobOf(digest, want, s);
    var x, s1, rest := AccountStage(digest, j, s, Tail(script));
    var y, s2, rest' := IdentityStage(digest, j, x.id, s1, rest);
    PolicyIsGranting(Task(j, x.id, y.id, []));
    GrantingKeepsIdentities(digest, FromPolicy(Task(j, x.id, y.id, [])), s2, rest');
  }

  /** After an ensure that succeeds, the owner's identity has the provider it reports if and only if the identity found
      beforehand, when there was one, had it; and the owner's subject likewise. An update carries neither. */
  lemma OriginIff(digest: Digest, want: EnsureInput, s: State, script: Script)
    requires DistinctIds(s.identities) && Exec(digest, StartEnsure(want), s, script).0.Ensured?
    ensures var j := JobOf(digest, want, s);
            var before := Find(s.identities, j.Labels());
            var after := Find(Exec(digest, StartEnsure(want), s, script).1.identities, j.Labels());
            && after.Some?
            && (after.value.info.provider == j.provider.id <==>
                 (before.Some? ==> before.value.info.provider == j.provider.id))
            && (after.value.info.subject == j.subject <==> (before.Some? ==> before.value.info.subject == j.subject))
  {
    hide Exec, StartEnsure, UpToDate, Find, DistinctIds, OwnershipLabels, JobOf;
    EnsureUpdates(digest, want, s, script);
  }

  // ---- the second attempt

  lemma QuietStep(digest: Digest, p: Position, s: State, script: Script)
    requires !Terminal(p)
    ensures var (p', s') := Step(digest, p, s, Head(script));
            Quiet(digest, p, s, script) <==> !IsWrite(Request(p)) && Quiet(digest, p', s', Tail(script))
  {
    hide Step, Request;
    StageDrops(digest, p, s, Head(script));
  }

  /** What a resolution makes of the rest: only a permitted target whose slot does not grant yet leads to a write. */
  lemma QuietReference(digest: Digest, t: Task, kind: Kind, s: State, script: Script)
    ensures var (r, rest) := Answered(s.directory, kind, t.job.want.Ref(kind), script);
            Quiet(digest, LookUp(t, kind), s, script) <==>
              (r.Success? && WithTarget(t, kind, r.value).CheckBinding? && Head(rest) == Ok ==>
                 var slot := Slot(kind, r.value.id);
                 AnyGrantsTo(s.At(slot), t.account) && Quiet(digest, WithBinding(t, slot), s, Tail(rest)))
  {
    hide TrimSpace, Pick, WithTarget, WithBinding, AnyGrantsTo, Quiet;
    var (r, rest) := Answered(s.directory, kind, t.job.want.Ref(kind), script);
    QuietResolution(digest, t, kind, s, script);
    if r.Success? {
      TargetIsSlot(t, kind, r.value);
      if WithTarget(t, kind, r.value).CheckBinding? {
        QuietCheck(digest, t, Slot(kind, r.value.id), s, rest);
      } else {
        QuietEnd(digest, WithTarget(t, kind, r.value), s, rest);
      }
    } else {
      QuietEnd(digest, Stopped(r.error), s, rest);
    }
  }

  lemma TargetIsSlot(t: Task, kind: Kind, target: Target)
    ensures var p := WithTarget(t, kind, target);
            p == CheckBinding(t, Slot(kind, target.id)) || p == Stopped(NotAllowed(kind))
  {}

  lemma QuietEnd(digest: Digest, p: Position, s: State, script: Script)
    requires Terminal(p)
    ensures Quiet(digest, p, s, script)
  {}

  lemma QuietResolution(digest: Digest, t: Task, kind: Kind, s: State, script: Script)
    ensures var (r, rest) := Answered(s.directory, kind, t.job.want.Ref(kind), script);
            Quiet(digest, LookUp(t, kind), s, script) <==> Quiet(digest, AfterResolution(t, kind, r), s, rest)
  {
    hide TrimSpace, Pick, WithTarget, Quiet;
    QuietStep(digest, LookUp(t, kind), s, script);
    if !Resolves(kind, Perform(s, Request(LookUp(t, kind)), Head(script)).1) {
      QuietStep(digest, Search(t, kind), s, Tail(script));
    }
  }

  lemma QuietCheck(digest: Digest, t: Task, slot: Slot, s: State, script: Script)
    ensures Quiet(digest, CheckBinding(t, slot), s, script) <==>
            (Head(script) == Ok ==>
               AnyGrantsTo(s.At(slot), t.account) && Quiet(digest, WithBinding(t, slot), s, Tail(script)))
  {
    hide WithBinding, AnyGrantsTo, Quiet;
    QuietStep(digest, CheckBinding(t, slot), s, script);
    if Head(script) != Ok {
      QuietEnd(digest, Stopped(CallFailed), s, Tail(script));
    } else if !AnyGrantsTo(s.At(slot), t.account) {
      QuietStep(digest, MakeBinding(t, slot), s, Tail(script));
    }
  }

  lemma ReplayKind(digest: Digest, t: Task, kind: Kind, slot: Slot, s: State)
    requires Settled(s, t, kind, slot) && LeadsTo(s.directory, t.job.want, slot)
    ensures Exec(digest, LookUp(t, kind), s, []) == Exec(digest, WithBinding(t, slot), s, [])
    ensures Quiet(digest, LookUp(t, kind), s, []) <==> Quiet(digest, WithBinding(t, slot), s, [])
  {
    hide TrimSpace, Answered, WithBinding, AnyGrantsTo, Allowlist.Permitted, Exec, Quiet;
    AnsweredInFull(s.directory, kind, t.job.want.Ref(kind));
    LookUpStage(digest, t, kind, s);
    CheckStage(digest, t, slot, s);
    QuietReference(digest, t, kind, s, []);
  }

  lemma ReplayBindings(digest: Digest, t: Task, end: Task, s: State)
    requires t.bound == [] && AllSettled(s, t, end) && AllLead(s.directory, t.job.want, end.bound)
    ensures Exec(digest, FromPolicy(t), s, []) == (Ensured(end), s, []) && Quiet(digest, FromPolicy(t), s, [])
  {
    hide TrimSpace, Settled, LeadsTo;
    var ps: seq<Slot>, rs: seq<Slot> :|
      && end == t.(bound := ps + rs)
      && (if t.job.want.Ref(Policy) == "" then ps == [] else |ps| == 1 && Settled(s, t, Policy, ps[0]))
      && (if t.job.want.Ref(Role) == "" then rs == [] else |rs| == 1 && Settled(s, t, Role, rs[0]));
    var t1 := t.(bound := ps);
    if ps != [] {
      assert ps[0] in end.bound;
      KindOfSettled(s, t, Policy, ps[0]);
      ReplayKind(digest, t, Policy, ps[0], s);
      assert ps == [] + [ps[0]];
    }
    assert Exec(digest, FromPolicy(t), s, []) == Exec(digest, FromRole(t1), s, []);
    assert Quiet(digest, FromPolicy(t), s, []) <==> Quiet(digest, FromRole(t1), s, []);
    if rs != [] {
      assert rs[0] in end.bound;
      KindOfSettled(s, t, Role, rs[0]);
      SettledElsewhere(s, s, t, t1, Role, rs[0]);
      ReplayKind(digest, t1, Role, rs[0], s);
      assert rs == [rs[0]];
      assert WithBinding(t1, rs[0]) == Ensured(end);
    } else {
      assert ps + [] == ps;
    }
  }

  lemma {:induction false} FindShuffled(xs: seq<FederatedIdentity>, ys: seq<FederatedIdentity>, own: Labels)
    requires |xs| == |ys| && forall i | 0 <= i < |xs| :: Shuffled(xs[i], ys[i])
    ensures Find(xs, own).Some? == Find(ys, own).Some?
    ensures Find(xs, own).Some? ==> Shuffled(Find(xs, own).value, Find(ys, own).value)
  {
    hide LabelsMatch;
    if xs != [] {
      assert Shuffled(xs[0], ys[0]);
      assert forall i | 0 <= i < |xs[1..]| :: Shuffled(xs[1..][i], ys[1..][i]);
      FindShuffled(xs[1..], ys[1..], own);
    }
  }

  /** With its account there and its identity up to date, an attempt goes on to the references, unless a call fails or
      the identity has another subject: then it is updated. */
  lemma ReplayAttempt(digest: Digest, j: Job, x: ServiceAccount, y: FederatedIdentity, s: State, script: Script)
    requires Find(s.accounts, j.Labels()) == Some(x) && Find(s.identities, j.Labels()) == Some(y) && UpToDate(y, j)
    ensures var t, rest := Task(j, x.id, y.id, []), Tail(Tail(script));
            if Head(script) != Ok || Head(Tail(script)) != Ok then Quiet(digest, FindAccount(j), s, script)
            else if y.info.subject != j.subject then !Quiet(digest, FindAccount(j), s, script)
            else
              && (Quiet(digest, FindAccount(j), s, script) <==> Quiet(digest, FromPolicy(t), s, rest))
              && Exec(digest, FindAccount(j), s, script) == Exec(digest, FromPolicy(t), s, rest)
  {
    hide LabelsMatch, OwnershipLabels, FromPolicy, NeedsUpdate, UpToDate, Find, Description, FederatedIdentityName,
      Exec, Quiet;
    NeedsUpdateIff(y, j);
    QuietStep(digest, FindAccount(j), s, script);
    ExecStep(digest, FindAccount(j), s, script);
    if Head(script) != Ok {
      QuietEnd(digest, Stopped(CallFailed), s, Tail(script));
    } else {
      QuietStep(digest, FindIdentity(j, x.id), s, Tail(script));
      ExecStep(digest, FindIdentity(j, x.id), s, Tail(script));
      if Head(Tail(script)) != Ok {
        QuietEnd(digest, Stopped(CallFailed), s, Tail(Tail(script)));
      } else if y.info.subject != j.subject {
        QuietStep(digest, FixIdentity(j, x.id, y.id), s, Tail(Tail(script)));
      }
    }
  }

  lemma FirstCall(digest: Digest, want: EnsureInput, s: State, script: Script)
    requires Exec(digest, StartEnsure(want), s, script).0.Ensured?
    ensures want.Valid() && Head(script) == Ok
    ensures var j := JobOf(digest, want, s);
            && WithProvider(digest, want, SelectProvider(s.providers, want.cluster)) == FindAccount(j) && j.want == want
            && Exec(digest, StartEnsure(want), s, script) == Exec(digest, FindAccount(j), s, Tail(script))
  {
    hide TrimSpace, SelectProvider, BuildSubject, NormalizeIssuer, ResourceKey;
    assert StartEnsure(want) == FindProvider(want);
  }

  lemma SecondCall(digest: Digest, want: EnsureInput, s: State, j: Job, script: Script)
    requires want.Valid() && WithProvider(digest, want, SelectProvider(s.providers, want.cluster)) == FindAccount(j)
    ensures if Head(script) != Ok then Quiet(digest, StartEnsure(want), s, script)
            else
              && Exec(digest, StartEnsure(want), s, script) == Exec(digest, FindAccount(j), s, Tail(script))
              && (Quiet(digest, StartEnsure(want), s, script) <==> Quiet(digest, FindAccount(j), s, Tail(script)))
  {
    hide TrimSpace, SelectProvider, BuildSubject, NormalizeIssuer, ResourceKey, WithProvider, Quiet, Exec;
    assert StartEnsure(want) == FindProvider(want);
    QuietStep(digest, FindProvider(want), s, script);
    ExecStep(digest, FindProvider(want), s, script);
    if Head(script) != Ok { QuietEnd(digest, Stopped(CallFailed), s, Tail(script)); }
  }

  /** The identity found beforehand, when there was one, had the owner's subject. */
  predicate SubjectKept(j: Job, s: State) {
    var found := Find(s.identities, j.Labels());
    found.Some? ==> found.value.info.subject == j.subject
  }

  /** What an ensure that succeeded leaves for the next one with the same input, even if the service has reordered
      scopes and audiences meanwhile. */
  lemma Aftermath(digest: Digest, want: EnsureInput, s: State, script: Script, s2: State)
    returns (x: ServiceAccount, y: FederatedIdentity)
    requires Sound(s)
    requires Exec(digest, StartEnsure(want), s, script).0.Ensured?
    requires Reordered(Exec(digest, StartEnsure(want), s, script).1, s2)
    ensures var j := JobOf(digest, want, s);
            var end := Exec(digest, StartEnsure(want), s, script).0;
            && want.Valid() && j.want == want && s2.directory == s.directory
            && WithProvider(digest, want, SelectProvider(s2.providers, want.cluster)) == FindAccount(j)
            && Find(s2.accounts, j.Labels()) == Some(x) && Find(s2.identities, j.Labels()) == Some(y)
            && UpToDate(y, j) && (y.info.subject == j.subject <==> SubjectKept(j, s))
            && end == Ensured(end.task) && AllSettled(s2, Task(j, x.id, y.id, []), end.task)
            && (script == [] ==> AllLead(s.directory, want, end.task.bound))
  {
    hide TrimSpace, SelectProvider, BuildSubject, NormalizeIssuer, ResourceKey, LabelsMatch, OwnershipLabels,
      FromPolicy, NeedsUpdate, UpToDate, AllSettled, Find, Exec, WithProvider, StartEnsure, Shuffled, LeadsTo;
    FirstCall(digest, want, s, script);
    var j := JobOf(digest, want, s);
    var rest, rest': Script, s1, s3: State;
    x, s1, rest := AccountStage(digest, j, s, Tail(script));
    assert DistinctIds(s.identities);
    y, s3, rest' := IdentityStage(digest, j, x.id, s1, rest);
    var t := Task(j, x.id, y.id, []);
    BindingStage(digest, t, s3, rest');
    var (end, s4, _) := Exec(digest, StartEnsure(want), s, script);
    FindShuffled(s4.identities, s2.identities, j.Labels());
    var y2 := Find(s2.identities, j.Labels()).value;
    ShuffledUpToDate(y, y2, j);
    SettledAfterReorder(s4, s2, t, end.task);
    EnsuredByTask(end);
    y := y2;
  }

  /** Quiescence, exactly: after an ensure that succeeded (through whatever faults), an ensure with the same input makes
      only reading calls and answers the same if and only if the identity the first one found, when it found one,
      already had the owner's subject, and every slot it bound is the one its reference leads to without faults. An
      update does not send the subject, so a wrong one is never put right and every later ensure updates again. After a
      first ensure without faults the subject alone decides. */
  lemma QuiescenceIff(digest: Digest, want: EnsureInput, s: State, script: Script, s2: State)
    requires Sound(s)
    requires Exec(digest, StartEnsure(want), s, script).0.Ensured?
    requires Reordered(Exec(digest, StartEnsure(want), s, script).1, s2)
    ensures var end := Exec(digest, StartEnsure(want), s, script).0;
            var kept := SubjectKept(JobOf(digest, want, s), s);
            var led := AllLead(s.directory, want, end.task.bound);
            && end.task.job == JobOf(digest, want, s) && s2.directory == s.directory
            && (Quiet(digest, StartEnsure(want), s2, []) && Exec(digest, StartEnsure(want), s2, []) == (end, s2, [])
                <==> kept && led)
            && (!kept ==> !Quiet(digest, StartEnsure(want), s2, []))
            && (script == [] ==> led)
  {
    hide UpToDate, AllSettled, Find, Exec, Quiet, WithProvider, StartEnsure, FromPolicy, LeadsTo, Sound, Reordered,
      TrimSpace, JobOf, OwnershipLabels;
    var j := JobOf(digest, want, s);
    var x, y := Aftermath(digest, want, s, script, s2);
    var t := Task(j, x.id, y.id, []);
    var (end, _, _) := Exec(digest, StartEnsure(want), s, script);
    SettledEnd(s2, t, end.task);
    SecondCall(digest, want, s2, j, []);
    ReplayAttempt(digest, j, x, y, s2, []);
    if y.info.subject == j.subject {
      if AllLead(s.directory, want, end.task.bound) {
        ReplayBindings(digest, t, end.task, s2);
      } else if Exec(digest, FromPolicy(t), s2, []).0.Ensured? {
        BindingStage(digest, t, s2, []);
      }
    }
  }

  lemma EnsuredByTask(p: Position)
    requires p.Ensured?
    ensures p == Ensured(p.task)
  {}

  lemma SettledEnd(s: State, t: Task, end: Task)
    requires AllSettled(s, t, end)
    ensures end.job == t.job && end.account == t.account && end.identity == t.identity
  {}

  lemma ShuffledUpToDate(x: FederatedIdentity, y: FederatedIdentity, j: Job)
    requires Shuffled(x, y) && UpToDate(x, j)
    ensures UpToDate(y, j) && y.info.subject == x.info.subject && y.id == x.id
  {
    hide LabelsMatch, OwnershipLabels, FederatedIdentityName, Description;
  }

  lemma SettledAfterReorder(s: State, s': State, t: Task, end: Task)
    requires AllSettled(s, t, end) && Reordered(s, s')
    ensures AllSettled(s', t, end)
  {
    hide TrimSpace, Settled;
    var ps: seq<Slot>, rs: seq<Slot> :|
      && end == t.(bound := ps + rs)
      && (if t.job.want.Ref(Policy) == "" then ps == [] else |ps| == 1 && Settled(s, t, Policy, ps[0]))
      && (if t.job.want.Ref(Role) == "" then rs == [] else |rs| == 1 && Settled(s, t, Role, rs[0]));
    if ps != [] { SettledElsewhere(s, s', t, t, Policy, ps[0]); }
    if rs != [] { SettledElsewhere(s, s', t, t, Role, rs[0]); }
  }

  /** A quiet attempt leaves the store as it is. */
  lemma {:induction false} QuietKeepsStore(digest: Digest, p: Position, s: State, script: Script)
    requires Quiet(digest, p, s, script)
    ensures Exec(digest, p, s, script).1 == s
    decreases Stage(p), Left(p)
  {
    hide Step, Request;
    if !Terminal(p) {
      StageDrops(digest, p, s, Head(script));
      StoreAfterStep(digest, p, s, Head(script));
      QuietKeepsStore(digest, Step(digest, p, s, Head(script)).0, s, Tail(script));
    }
  }
}
