/** A failed lookup can lead an ensure to another policy or role: what an ensure may bind, and which inputs stay quiet
    whatever fails. */
module Stability {
  import opened Strings
  import opened Subject
  import opened Store
  import opened Protocol
  import opened Safety
  import opened Resolution
  import opened Undo
  import opened Quiescence
  import Allowlist
  import Guard
  import Runs

  /** The input's reference may lead to this slot, if a lookup fails or if it does not. */
  ghost predicate MayLead(d: Directory, want: EnsureInput, slot: Slot) {
    want.Ref(slot.kind) != "" && Guard.Vetted({d}, want, slot)
  }

  /** Each reference asked for, in order, has a slot that it may lead to. */
  ghost predicate Fits(d: Directory, want: EnsureInput, bound: seq<Slot>) {
    Runs.Kinds(bound) == Runs.Wanted(want) && forall slot | slot in bound :: MayLead(d, want, slot)
  }

  /** A failed lookup makes no difference: whatever a reference may lead to, it leads to without faults. */
  ghost predicate Steadfast(d: Directory, want: EnsureInput) {
    forall slot | MayLead(d, want, slot) :: LeadsTo(d, want, slot)
  }

  /** The account is granted everything its references may lead to. */
  ghost predicate Covered(s: State, want: EnsureInput, account: string) {
    forall slot | MayLead(s.directory, want, slot) :: AnyGrantsTo(s.At(slot), account)
  }

  // ---- what an ensure may bind

  lemma BoundFits(digest: Digest, want: EnsureInput, s: State, script: Script)
    requires Exec(digest, StartEnsure(want), s, script).0.Ensured?
    ensures Fits(s.directory, want, Exec(digest, StartEnsure(want), s, script).0.task.bound)
  {
    hide Exec, StartEnsure, Runs.OnTrack, Runs.Wanted, TrimSpace, Guard.Vetted;
    FirstCall(digest, want, s, script);
    var t := Exec(digest, StartEnsure(want), s, script).0.task;
    Guard.EnsureVetted(digest, want, s, script);
    Runs.StartOnTrack(want);
    Runs.ExecOnTrack(digest, StartEnsure(want), s, script);
    SameInput(digest, FindAccount(JobOf(digest, want, s)), s, Tail(script));
    EndOnTrack(Ensured(t));
    WantedKinds(t.bound, want);
  }

  lemma {:induction false} SameInput(digest: Digest, p: Position, s: State, script: Script)
    requires Exec(digest, p, s, script).0.Ensured? && !p.FindProvider?
    ensures Guard.InputOf(p) == Some(Exec(digest, p, s, script).0.task.job.want)
    decreases Stage(p), Left(p)
  {
    hide Step;
    if !Terminal(p) {
      var (p', s') := Step(digest, p, s, Head(script));
      StageDrops(digest, p, s, Head(script));
      Guard.StepIsAdvance(digest, p, s, Head(script));
      Guard.StepSameInput(digest, p, Perform(s, Request(p), Head(script)).1);
      SameInput(digest, p', s', Tail(script));
    }
  }

  lemma EndOnTrack(p: Position)
    requires p.Ensured? && Runs.OnTrack(p)
    ensures Runs.Kinds(p.task.bound) == Runs.Wanted(p.task.job.want)
  {}

  lemma WantedKinds(bound: seq<Slot>, want: EnsureInput)
    requires Runs.Kinds(bound) == Runs.Wanted(want)
    ensures forall slot | slot in bound :: want.Ref(slot.kind) != ""
  {
    hide TrimSpace;
    forall i | 0 <= i < |bound|
      ensures want.Ref(bound[i].kind) != ""
    {
      assert bound[i].kind == Runs.Kinds(bound)[i];
    }
  }

  /** These outcomes lead from one position and store to another, whatever comes after them. */
  ghost predicate Path(digest: Digest, p: Position, s: State, outcomes: Script, q: Position, s': State) {
    forall tail: Script :: Exec(digest, p, s, outcomes + tail) == Exec(digest, q, s', tail)
  }

  lemma OneCall(digest: Digest, p: Position, s: State, o: Outcome)
    requires !Terminal(p)
    ensures var (q, s') := Step(digest, p, s, o); Path(digest, p, s, [o], q, s')
  {
    hide Exec, Step;
    var (q, s') := Step(digest, p, s, o);
    forall tail: Script
      ensures Exec(digest, p, s, [o] + tail) == Exec(digest, q, s', tail)
    {
      assert Head([o] + tail) == o && Tail([o] + tail) == tail;
      ExecStep(digest, p, s, [o] + tail);
    }
  }

  lemma Onward(digest: Digest, p: Position, s: State, a: Script, q: Position, s': State, b: Script, r: Position,
               s'': State)
    requires Path(digest, p, s, a, q, s') && Path(digest, q, s', b, r, s'')
    ensures Path(digest, p, s, a + b, r, s'')
  {
    hide Exec;
    forall tail: Script
      ensures Exec(digest, p, s, a + b + tail) == Exec(digest, r, s'', tail)
    {
      assert a + b + tail == a + (b + tail);
      assert Exec(digest, p, s, a + (b + tail)) == Exec(digest, q, s', b + tail);
    }
  }

  lemma AccountPath(digest: Digest, j: Job, s: State) returns (outcomes: Script, account: string, s': State)
    ensures Path(digest, FindAccount(j), s, outcomes, FindIdentity(j, account), s')
    ensures s'.directory == s.directory && s'.bindings == s.bindings
    ensures var found := Find(s.accounts, j.Labels()); found.Some? ==> account == found.value.id
  {
    hide LabelsMatch, OwnershipLabels, FreshId, ServiceAccountName, Find, Path;
    OneCall(digest, FindAccount(j), s, Ok);
    var found := Find(s.accounts, j.Labels());
    if found.Some? {
      outcomes, account, s' := [Ok], found.value.id, s;
    } else {
      OneCall(digest, MakeAccount(j), s, Ok);
      account, s' := AccountMade(s, j).id, After(s, MakeAccount(j));
      Onward(digest, FindAccount(j), s, [Ok], MakeAccount(j), s, [Ok], FindIdentity(j, account), s');
      outcomes := [Ok] + [Ok];
    }
  }

  lemma IdentityPath(digest: Digest, j: Job, account: string, s: State)
    returns (outcomes: Script, identity: string, s': State)
    ensures Path(digest, FindIdentity(j, account), s, outcomes, FromPolicy(Task(j, account, identity, [])), s')
    ensures s'.directory == s.directory && s'.bindings == s.bindings
  {
    hide LabelsMatch, OwnershipLabels, FreshId, FederatedIdentityName, Description, Find, FromPolicy, NeedsUpdate,
      Replace, Lookup, Path;
    var p := FindIdentity(j, account);
    OneCall(digest, p, s, Ok);
    match Find(s.identities, j.Labels())
    case None =>
      OneCall(digest, MakeIdentity(j, account), s, Ok);
      identity, s' := IdentityMade(s, j, account).id, After(s, MakeIdentity(j, account));
      Onward(digest, p, s, [Ok], MakeIdentity(j, account), s, [Ok], FromPolicy(Task(j, account, identity, [])), s');
      outcomes := [Ok] + [Ok];
    case Some(x) =>
      identity := x.id;
      if NeedsUpdate(x, j) {
        FindFacts(s.identities, j.Labels());
        LookupFacts(s.identities, x.id);
        OneCall(digest, FixIdentity(j, account, x.id), s, Ok);
        s' := After(s, FixIdentity(j, account, x.id));
        Onward(digest, p, s, [Ok], FixIdentity(j, account, x.id), s, [Ok],
               FromPolicy(Task(j, account, identity, [])), s');
        outcomes := [Ok] + [Ok];
      } else {
        outcomes, s' := [Ok], s;
      }
  }

  lemma LookUpPath(digest: Digest, t: Task, kind: Kind, s: State, target: Target) returns (outcomes: Script)
    requires Guard.Answers(s.directory, kind, t.job.want.Ref(kind), target)
    ensures Path(digest, LookUp(t, kind), s, outcomes, WithTarget(t, kind, target), s)
  {
    hide TrimSpace, Pick, WithTarget, Path;
    if Pick(kind, s.directory.Listed(kind), t.job.want.Ref(kind)) == Some(target) {
      OneCall(digest, LookUp(t, kind), s, FailBefore);
      OneCall(digest, Search(t, kind), s, Ok);
      Onward(digest, LookUp(t, kind), s, [FailBefore], Search(t, kind), s, [Ok], WithTarget(t, kind, target), s);
      outcomes := [FailBefore] + [Ok];
    } else {
      OneCall(digest, LookUp(t, kind), s, Ok);
      outcomes := [Ok];
    }
  }

  lemma CheckPath(digest: Digest, t: Task, slot: Slot, s: State) returns (outcomes: Script, s': State)
    ensures Path(digest, CheckBinding(t, slot), s, outcomes, WithBinding(t, slot), s')
    ensures s'.directory == s.directory && AnyGrantsTo(s'.At(slot), t.account)
    ensures forall other: Slot | other != slot :: s'.At(other) == s.At(other)
  {
    hide WithBinding, AnyGrantsTo, BindingName, OwnershipLabels, FreshId, Path;
    OneCall(digest, CheckBinding(t, slot), s, Ok);
    if AnyGrantsTo(s.At(slot), t.account) {
      outcomes, s' := [Ok], s;
    } else {
      OneCall(digest, MakeBinding(t, slot), s, Ok);
      s' := After(s, MakeBinding(t, slot));
      GrantAdded(s, t, slot);
      Onward(digest, CheckBinding(t, slot), s, [Ok], MakeBinding(t, slot), s, [Ok], WithBinding(t, slot), s');
      outcomes := [Ok] + [Ok];
    }
  }

  lemma KindPath(digest: Digest, t: Task, slot: Slot, s: State) returns (outcomes: Script, s': State)
    requires MayLead(s.directory, t.job.want, slot)
    ensures Path(digest, LookUp(t, slot.kind), s, outcomes, WithBinding(t, slot), s')
    ensures s'.directory == s.directory && AnyGrantsTo(s'.At(slot), t.account)
    ensures forall other: Slot | other != slot :: s'.At(other) == s.At(other)
  {
    hide TrimSpace, Guard.Answers, Allowlist.Permitted, WithBinding, AnyGrantsTo, Path;
    var d, target :| d in {s.directory} && Guard.Vet(d, t.job.want, slot, target);
    var a := LookUpPath(digest, t, slot.kind, s, target);
    assert WithTarget(t, slot.kind, target) == CheckBinding(t, slot);
    var b;
    b, s' := CheckPath(digest, t, slot, s);
    Onward(digest, LookUp(t, slot.kind), s, a, CheckBinding(t, slot), s, b, WithBinding(t, slot), s');
    outcomes := a + b;
  }

  lemma RolePath(digest: Digest, t: Task, s: State, rs: seq<Slot>) returns (outcomes: Script, s': State)
    requires forall slot | slot in rs :: MayLead(s.directory, t.job.want, slot)
    requires Runs.Kinds(rs) == if t.job.want.Ref(Role) != "" then [Role] else []
    ensures Path(digest, FromRole(t), s, outcomes, Ensured(t.(bound := t.bound + rs)), s')
    ensures s'.directory == s.directory && forall slot | slot in rs :: AnyGrantsTo(s'.At(slot), t.account)
    ensures forall other: Slot | other !in rs :: s'.At(other) == s.At(other)
  {
    hide TrimSpace, MayLead, AnyGrantsTo, Exec;
    if t.job.want.Ref(Role) == "" {
      outcomes, s' := [], s;
      assert t.bound + rs == t.bound;
      assert forall tail: Script :: outcomes + tail == tail;
    } else {
      var slot := rs[0];
      assert rs == [slot] && Runs.Kinds(rs)[0] == slot.kind;
      outcomes, s' := KindPath(digest, t, slot, s);
      assert WithBinding(t, slot) == Ensured(t.(bound := t.bound + rs));
    }
  }

  lemma ReferencesPath(digest: Digest, t: Task, s: State, bound: seq<Slot>) returns (outcomes: Script, s': State)
    requires t.bound == [] && Fits(s.directory, t.job.want, bound)
    ensures Path(digest, FromPolicy(t), s, outcomes, Ensured(t.(bound := bound)), s')
    ensures s'.directory == s.directory && forall slot | slot in bound :: AnyGrantsTo(s'.At(slot), t.account)
    ensures forall other: Slot | other !in bound :: s'.At(other) == s.At(other)
  {
    hide TrimSpace, MayLead, AnyGrantsTo, Path, FromRole;
    if t.job.want.Ref(Policy) == "" {
      outcomes, s' := RolePath(digest, t, s, bound);
      assert t.bound + bound == bound;
    } else {
      var slot, rs := bound[0], bound[1..];
      assert Runs.Kinds(bound)[0] == slot.kind && Runs.Kinds(rs) == Runs.Kinds(bound)[1..];
      var t1 := t.(bound := [slot]);
      var a, s1 := KindPath(digest, t, slot, s);
      assert [] + [slot] == [slot];
      assert WithBinding(t, slot) == FromRole(t1);
      var b;
      b, s' := RolePath(digest, t1, s1, rs);
      assert bound == [slot] + rs;
      if |rs| > 0 { assert Runs.Kinds(rs)[0] == rs[0].kind; }
      assert slot !in rs;
      Onward(digest, FromPolicy(t), s, a, FromRole(t1), s1, b, Ensured(t.(bound := bound)), s');
      outcomes := a + b;
    }
  }

  /** Some outcomes make an ensure bind any slots that its references may lead to, and no others change. */
  lemma EnsurePath(digest: Digest, want: EnsureInput, s: State, bound: seq<Slot>)
    returns (script: Script, t: Task)
    requires want.Valid() && Fits(s.directory, want, bound)
    requires var j := JobOf(digest, want, s);
             && WithProvider(digest, want, SelectProvider(s.providers, want.cluster)) == FindAccount(j)
             && j.want == want
    ensures t.bound == bound && Exec(digest, StartEnsure(want), s, script).0 == Ensured(t)
    ensures var s' := Exec(digest, StartEnsure(want), s, script).1;
            && s'.directory == s.directory
            && (forall slot | slot in bound :: AnyGrantsTo(s'.At(slot), t.account))
            && (forall other: Slot | other !in bound :: s'.At(other) == s.At(other))
    ensures var found := Find(s.accounts, JobOf(digest, want, s).Labels()); found.Some? ==> t.account == found.value.id
  {
    hide TrimSpace, WithProvider, SelectProvider, Exec, Fits, FromPolicy, AnyGrantsTo, Find, OwnershipLabels, JobOf;
    var j := JobOf(digest, want, s);
    var p0, p1 := FindProvider(want), FindAccount(j);
    assert StartEnsure(want) == p0;
    OneCall(digest, p0, s, Ok);
    var a, account, s1 := AccountPath(digest, j, s);
    var p2 := FindIdentity(j, account);
    var b, identity, s2 := IdentityPath(digest, j, account, s1);
    var t0 := Task(j, account, identity, []);
    var c, s3 := ReferencesPath(digest, t0, s2, bound);
    t := t0.(bound := bound);
    Onward(digest, p0, s, [Ok], p1, s, a, p2, s1);
    Onward(digest, p0, s, [Ok] + a, p2, s1, b, FromPolicy(t0), s2);
    Onward(digest, p0, s, [Ok] + a + b, FromPolicy(t0), s2, c, Ensured(t), s3);
    script := [Ok] + a + b + c + [];
    ExecEnd(digest, Ensured(t), s3, []);
  }

  /** What an ensure may bind: where one succeeds, there are outcomes with which it binds exactly these slots if and
      only if each is one that its reference may lead to. */
  lemma MayBindIff(digest: Digest, want: EnsureInput, s: State, script: Script, bound: seq<Slot>)
    requires Exec(digest, StartEnsure(want), s, script).0.Ensured?
    ensures (exists other: Script :: var p := Exec(digest, StartEnsure(want), s, other).0;
               p.Ensured? && p.task.bound == bound)
            <==> Fits(s.directory, want, bound)
  {
    hide Exec, StartEnsure, Fits, WithProvider, TrimSpace, JobOf;
    FirstCall(digest, want, s, script);
    if Fits(s.directory, want, bound) {
      var other, t := EnsurePath(digest, want, s, bound);
    }
    forall other: Script | (var p := Exec(digest, StartEnsure(want), s, other).0; p.Ensured? && p.task.bound == bound)
      ensures Fits(s.directory, want, bound)
    {
      BoundFits(digest, want, s, other);
    }
  }

  // ---- quiet whatever fails

  lemma AnswerMayLead(d: Directory, want: EnsureInput, kind: Kind, script: Script)
    requires want.Ref(kind) != ""
    ensures var (r, _) := Answered(d, kind, want.Ref(kind), script);
            r.Success?
            && Allowlist.Permitted(want.Allowed(kind), want.Ref(kind), [r.value.id, r.value.slug, r.value.name])
            ==> MayLead(d, want, Slot(kind, r.value.id))
  {
    hide TrimSpace, Pick, Allowlist.Permitted;
    var (r, _) := Answered(d, kind, want.Ref(kind), script);
    if r.Success? && Allowlist.Permitted(want.Allowed(kind), want.Ref(kind), [r.value.id, r.value.slug, r.value.name]) {
      assert d in {d} && Guard.Vet(d, want, Slot(kind, r.value.id), r.value);
    }
  }

  lemma RoleIsQuiet(digest: Digest, t: Task, s: State, script: Script)
    requires Covered(s, t.job.want, t.account)
    ensures Quiet(digest, FromRole(t), s, script)
  {
    hide TrimSpace, AnyGrantsTo, Quiet, MayLead, Answered, Allowlist.Permitted;
    if t.job.want.Ref(Role) == "" {
      QuietEnd(digest, Ensured(t), s, script);
    } else {
      QuietReference(digest, t, Role, s, script);
      AnswerMayLead(s.directory, t.job.want, Role, script);
      var (r, rest) := Answered(s.directory, Role, t.job.want.Ref(Role), script);
      if r.Success? { QuietEnd(digest, WithBinding(t, Slot(Role, r.value.id)), s, Tail(rest)); }
    }
  }

  lemma ReferencesAreQuiet(digest: Digest, t: Task, s: State, script: Script)
    requires Covered(s, t.job.want, t.account)
    ensures Quiet(digest, FromPolicy(t), s, script)
  {
    hide TrimSpace, AnyGrantsTo, Quiet, MayLead, Answered, Allowlist.Permitted, FromRole;
    if t.job.want.Ref(Policy) == "" {
      RoleIsQuiet(digest, t, s, script);
    } else {
      QuietReference(digest, t, Policy, s, script);
      AnswerMayLead(s.directory, t.job.want, Policy, script);
      var (r, rest) := Answered(s.directory, Policy, t.job.want.Ref(Policy), script);
      if r.Success? { RoleIsQuiet(digest, t.(bound := t.bound + [Slot(Policy, r.value.id)]), s, Tail(rest)); }
    }
  }

  /** A slot that a reference may lead to can take the place of the one bound. */
  lemma Replaced(d: Directory, want: EnsureInput, bound: seq<Slot>, slot: Slot) returns (bound': seq<Slot>)
    requires Fits(d, want, bound) && MayLead(d, want, slot)
    ensures Fits(d, want, bound') && slot in bound'
  {
    hide TrimSpace, Guard.Vetted;
    var kinds := Runs.Kinds(bound);
    assert slot.kind in kinds;
    var i :| 0 <= i < |kinds| && kinds[i] == slot.kind;
    bound' := bound[i := slot];
    assert Runs.Kinds(bound') == kinds;
    assert bound'[i] == slot;
  }

  /** No outcomes make an ensure of this input write. */
  ghost predicate NeverWrites(digest: Digest, want: EnsureInput, s: State) {
    forall script: Script :: Quiet(digest, StartEnsure(want), s, script)
  }

  /** After an ensure that succeeded, no outcomes whatever make a later ensure write, if and only if the subject was
      kept and the account is granted everything its references may lead to. */
  lemma QuietWhateverFailsIff(digest: Digest, want: EnsureInput, s: State, script: Script, s2: State)
    requires Sound(s)
    requires Exec(digest, StartEnsure(want), s, script).0.Ensured?
    requires Reordered(Exec(digest, StartEnsure(want), s, script).1, s2)
    ensures var end := Exec(digest, StartEnsure(want), s, script).0;
            NeverWrites(digest, want, s2) <==>
              SubjectKept(JobOf(digest, want, s), s) && Covered(s2, want, end.task.account)
  {
    hide UpToDate, AllSettled, Find, Exec, Quiet, WithProvider, StartEnsure, FromPolicy, Sound, Reordered, TrimSpace,
      JobOf, OwnershipLabels, MayLead, AnyGrantsTo, Fits, AllLead, SubjectKept;
    var j := JobOf(digest, want, s);
    var x, y := Aftermath(digest, want, s, script, s2);
    var t := Task(j, x.id, y.id, []);
    var end := Exec(digest, StartEnsure(want), s, script).0;
    SettledEnd(s2, t, end.task);
    QuiescenceIff(digest, want, s, script, s2);
    if SubjectKept(j, s) && Covered(s2, want, end.task.account) {
      forall script2: Script
        ensures Quiet(digest, StartEnsure(want), s2, script2)
      {
        SecondCall(digest, want, s2, j, script2);
        ReplayAttempt(digest, j, x, y, s2, Tail(script2));
        ReferencesAreQuiet(digest, t, s2, Tail(Tail(Tail(script2))));
      }
    } else if NeverWrites(digest, want, s2) {
      assert Quiet(digest, StartEnsure(want), s2, []);
      BoundFits(digest, want, s, script);
      SameJobs(digest, want, s, s2, j);
      forall slot | MayLead(s2.directory, want, slot)
        ensures AnyGrantsTo(s2.At(slot), end.task.account)
      {
        var bound := Replaced(s2.directory, want, end.task.bound, slot);
        var script2, t2 := EnsurePath(digest, want, s2, bound);
        assert Quiet(digest, StartEnsure(want), s2, script2);
        QuietKeepsStore(digest, StartEnsure(want), s2, script2);
      }
    }
  }

  lemma SameJobs(digest: Digest, want: EnsureInput, s: State, s2: State, j: Job)
    requires j == JobOf(digest, want, s)
    requires WithProvider(digest, want, SelectProvider(s2.providers, want.cluster)) == FindAccount(j)
    ensures JobOf(digest, want, s2) == j
  {
    hide WithProvider, SelectProvider;
  }

  lemma SettledGrants(s: State, t: Task, end: Task)
    requires AllSettled(s, t, end)
    ensures forall slot | slot in end.bound :: AnyGrantsTo(s.At(slot), t.account)
  {
    hide TrimSpace, AnyGrantsTo;
  }

  // ---- which inputs stay quiet

  /** An ensure succeeds with these outcomes, and leaves the store so, up to the order of scopes and audiences. */
  ghost predicate Leaves(digest: Digest, want: EnsureInput, s: State, script: Script, s2: State) {
    var (p, s', _) := Exec(digest, StartEnsure(want), s, script);
    p.Ensured? && Reordered(s', s2)
  }

  /** The next ensure writes nothing and answers as the first one did. */
  ghost predicate Repeats(digest: Digest, want: EnsureInput, s: State, script: Script, s2: State) {
    && Quiet(digest, StartEnsure(want), s2, [])
    && Exec(digest, StartEnsure(want), s2, []) == (Exec(digest, StartEnsure(want), s, script).0, s2, [])
  }

  lemma SteadfastLeads(d: Directory, want: EnsureInput, bound: seq<Slot>)
    requires Steadfast(d, want) && Fits(d, want, bound)
    ensures AllLead(d, want, bound)
  {
    hide MayLead, LeadsTo;
  }

  /** Where faults make no difference, what is bound for a kind is all that its reference may lead to. */
  lemma SteadfastCovers(s: State, want: EnsureInput, t: Task, end: Task)
    requires Steadfast(s.directory, want) && Fits(s.directory, want, end.bound)
    requires t.job.want == want && AllSettled(s, t, end)
    ensures Covered(s, want, t.account)
  {
    hide TrimSpace, Guard.Vetted, AnyGrantsTo, Grantable;
    var ps: seq<Slot>, rs: seq<Slot> :|
      && end == t.(bound := ps + rs)
      && (if want.Ref(Policy) == "" then ps == [] else |ps| == 1 && Settled(s, t, Policy, ps[0]))
      && (if want.Ref(Role) == "" then rs == [] else |rs| == 1 && Settled(s, t, Role, rs[0]));
    forall slot | MayLead(s.directory, want, slot)
      ensures AnyGrantsTo(s.At(slot), t.account)
    {
      var had := if slot.kind == Policy then ps[0] else rs[0];
      assert had in end.bound;
      assert LeadsTo(s.directory, want, had) && LeadsTo(s.directory, want, slot);
      assert had == slot;
    }
  }

  /** Which inputs stay quiet: every ensure that succeeds, with whatever outcomes, is repeated by the next one without a
      write, if and only if the identity found beforehand had the owner's subject and a failed lookup makes no
      difference to where the references lead. Then no outcomes make a later ensure write either. */
  lemma AlwaysRepeatedIff(digest: Digest, want: EnsureInput, s: State, script0: Script)
    requires Sound(s) && Exec(digest, StartEnsure(want), s, script0).0.Ensured?
    ensures (forall script, s2 | Leaves(digest, want, s, script, s2) :: Repeats(digest, want, s, script, s2)) <==>
              SubjectKept(JobOf(digest, want, s), s) && Steadfast(s.directory, want)
    ensures SubjectKept(JobOf(digest, want, s), s) && Steadfast(s.directory, want) ==>
              forall script, s2 | Leaves(digest, want, s, script, s2) :: NeverWrites(digest, want, s2)
  {
    hide Exec, Quiet, StartEnsure, Sound, Reordered, JobOf, MayLead, AllLead, SubjectKept, LeadsTo, Fits, Steadfast;
    if SubjectKept(JobOf(digest, want, s), s) && Steadfast(s.directory, want) {
      forall script, s2 | Leaves(digest, want, s, script, s2)
        ensures Repeats(digest, want, s, script, s2) && NeverWrites(digest, want, s2)
      {
        SteadfastRepeats(digest, want, s, script, s2);
      }
    } else if forall script, s2 | Leaves(digest, want, s, script, s2) :: Repeats(digest, want, s, script, s2) {
      RepeatedIsSteadfast(digest, want, s, script0);
    }
  }

  lemma SteadfastRepeats(digest: Digest, want: EnsureInput, s: State, script: Script, s2: State)
    requires Sound(s) && Leaves(digest, want, s, script, s2)
    requires SubjectKept(JobOf(digest, want, s), s) && Steadfast(s.directory, want)
    ensures Repeats(digest, want, s, script, s2) && NeverWrites(digest, want, s2)
  {
    hide Exec, Quiet, StartEnsure, Sound, Reordered, JobOf, AllLead, SubjectKept, Fits, Steadfast, AllSettled, Covered,
      WithProvider, Find, UpToDate;
    var end := Exec(digest, StartEnsure(want), s, script).0;
    BoundFits(digest, want, s, script);
    SteadfastLeads(s.directory, want, end.task.bound);
    QuiescenceIff(digest, want, s, script, s2);
    var x, y := Aftermath(digest, want, s, script, s2);
    var t := Task(JobOf(digest, want, s), x.id, y.id, []);
    SettledEnd(s2, t, end.task);
    SteadfastCovers(s2, want, t, end.task);
    QuietWhateverFailsIff(digest, want, s, script, s2);
  }

  lemma RepeatedIsSteadfast(digest: Digest, want: EnsureInput, s: State, script0: Script)
    requires Sound(s) && Exec(digest, StartEnsure(want), s, script0).0.Ensured?
    requires forall script, s2 | Leaves(digest, want, s, script, s2) :: Repeats(digest, want, s, script, s2)
    ensures SubjectKept(JobOf(digest, want, s), s) && Steadfast(s.directory, want)
  {
    hide Exec, Quiet, StartEnsure, Sound, Reordered, JobOf, MayLead, SubjectKept, LeadsTo, Fits, WithProvider,
      TrimSpace;
    FirstCall(digest, want, s, script0);
    BoundFits(digest, want, s, script0);
    var bound0 := Exec(digest, StartEnsure(want), s, script0).0.task.bound;
    RepeatedLeads(digest, want, s, script0);
    forall slot | MayLead(s.directory, want, slot)
      ensures LeadsTo(s.directory, want, slot)
    {
      var bound := Replaced(s.directory, want, bound0, slot);
      var script, t := EnsurePath(digest, want, s, bound);
      RepeatedLeads(digest, want, s, script);
    }
  }

  lemma RepeatedLeads(digest: Digest, want: EnsureInput, s: State, script: Script)
    requires Sound(s) && Exec(digest, StartEnsure(want), s, script).0.Ensured?
    requires var s2 := Exec(digest, StartEnsure(want), s, script).1;
             Leaves(digest, want, s, script, s2) ==> Repeats(digest, want, s, script, s2)
    ensures SubjectKept(JobOf(digest, want, s), s)
    ensures AllLead(s.directory, want, Exec(digest, StartEnsure(want), s, script).0.task.bound)
  {
    hide Exec, Quiet, StartEnsure, Sound, JobOf, AllLead, SubjectKept;
    var s2 := Exec(digest, StartEnsure(want), s, script).1;
    assert Reordered(s2, s2);
    QuiescenceIff(digest, want, s, script, s2);
  }
}
