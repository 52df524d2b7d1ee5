/** When a fault-free attempt succeeds, and how soon a binding becomes ready after faults. */
module Recovery {
  import opened Strings
  import opened Subject
  import opened Store
  import opened Protocol
  import opened Safety
  import opened Conditions
  import opened Resolution
  import opened Undo
  import opened Kube
  import opened Reconcile
  import opened Lifecycle
  import opened History
  import Scopes
  import Leaks
  import Allowlist

  predicate Clean(script: Script) {
    forall o | o in script :: o == Ok
  }

  lemma CleanParts(script: Script)
    requires Clean(script)
    ensures Head(script) == Ok && Clean(Tail(script))
  {
    if script != [] {
      assert script[0] in script;
      assert forall o | o in script[1..] :: o in script;
    }
  }

  /** A script without faults is as good as none. */
  lemma {:induction false} CleanExec(digest: Digest, p: Position, s: State, script: Script)
    requires Clean(script)
    ensures var (q, s', rest) := Exec(digest, p, s, script);
            (q, s', []) == Exec(digest, p, s, []) && Clean(rest)
    decreases Stage(p), Left(p)
  {
    hide Step, Clean;
    if !Terminal(p) {
      CleanParts(script);
      StageDrops(digest, p, s, Ok);
      CleanExec(digest, Step(digest, p, s, Ok).0, Step(digest, p, s, Ok).1, Tail(script));
    }
  }

  // ---- when a fault-free ensure succeeds

  predicate AllGrantable(d: Directory, want: EnsureInput) {
    forall kind | want.Ref(kind) != "" :: Grantable(d, want, kind)
  }

  /** The input is valid, exactly one provider is there with an issuer, the names make a subject, and every reference
      resolves to something the allowlist permits. */
  predicate Provisionable(providers: seq<Provider>, d: Directory, want: EnsureInput) {
    var choice := SelectProvider(providers, want.cluster);
    && want.Valid()
    && choice.OneProvider? && NormalizeIssuer(choice.provider.issuer) != ""
    && BuildSubject(want.namespace, want.name).Some?
    && AllGrantable(d, want)
  }

  lemma KindCompletes(digest: Digest, t: Task, kind: Kind, s: State)
    ensures var r := Resolve(s.directory, kind, t.job.want.Ref(kind));
            if Grantable(s.directory, t.job.want, kind)
            then r.Some? && (exists s': State ::
                   s'.directory == s.directory
                   && Exec(digest, LookUp(t, kind), s, [])
                        == Exec(digest, WithBinding(t, Slot(kind, r.value.id)), s', []))
            else Exec(digest, LookUp(t, kind), s, []).0.Stopped?
  {
    hide TrimSpace, Resolve, AnyGrantsTo, WithBinding, Allowlist.Permitted, BindingName, OwnershipLabels, FreshId,
      Exec;
    LookUpStage(digest, t, kind, s);
    var r := Resolve(s.directory, kind, t.job.want.Ref(kind));
    ExecEnd(digest, Stopped(NotAllowed(kind)), s, []);
    if Grantable(s.directory, t.job.want, kind) {
      var slot := Slot(kind, r.value.id);
      CheckStage(digest, t, slot, s);
      var s' := if AnyGrantsTo(s.At(slot), t.account) then s else After(s, MakeBinding(t, slot));
      assert s'.directory == s.directory;
    }
  }

  lemma RoleCompletes(digest: Digest, t: Task, s: State)
    ensures Exec(digest, FromRole(t), s, []).0.Ensured? <==>
            (t.job.want.Ref(Role) != "" ==> Grantable(s.directory, t.job.want, Role))
  {
    hide TrimSpace, Grantable;
    KindCompletes(digest, t, Role, s);
  }

  lemma BindingsComplete(digest: Digest, t: Task, s: State)
    ensures Exec(digest, FromPolicy(t), s, []).0.Ensured? <==> AllGrantable(s.directory, t.job.want)
  {
    hide TrimSpace, Grantable, FromRole, Exec, Resolve;
    KindCompletes(digest, t, Policy, s);
    if t.job.want.Ref(Policy) == "" {
      RoleCompletes(digest, t, s);
    } else if Grantable(s.directory, t.job.want, Policy) {
      var slot := Slot(Policy, Resolve(s.directory, Policy, t.job.want.Ref(Policy)).value.id);
      var s': State :| s'.directory == s.directory
                && Exec(digest, LookUp(t, Policy), s, []) == Exec(digest, WithBinding(t, slot), s', []);
      var t' := t.(bound := t.bound + [slot]);
      assert WithBinding(t, slot) == FromRole(t');
      RoleCompletes(digest, t', s');
    }
  }

  lemma IdentityCompletes(digest: Digest, j: Job, account: string, s: State)
    ensures exists s': State, id: string :: s'.directory == s.directory
              && Exec(digest, FindIdentity(j, account), s, [])
                   == Exec(digest, FromPolicy(Task(j, account, id, [])), s', [])
  {
    hide LabelsMatch, OwnershipLabels, FreshId, FederatedIdentityName, Description, Find, FromPolicy, NeedsUpdate,
      Replace, Lookup, Exec;
    ExecStep(digest, FindIdentity(j, account), s, []);
    match Find(s.identities, j.Labels())
    case None =>
      ExecStep(digest, MakeIdentity(j, account), s, []);
      assert After(s, MakeIdentity(j, account)).directory == s.directory;
    case Some(x) =>
      if NeedsUpdate(x, j) {
        FindFacts(s.identities, j.Labels());
        LookupFacts(s.identities, x.id);
        ExecStep(digest, FixIdentity(j, account, x.id), s, []);
        assert After(s, FixIdentity(j, account, x.id)).directory == s.directory;
      }
  }

  lemma JobReachesBindings(digest: Digest, j: Job, s: State) returns (t: Task, s2: State)
    ensures s2.directory == s.directory && t == Task(j, t.account, t.identity, [])
    ensures Exec(digest, FindAccount(j), s, []) == Exec(digest, FromPolicy(t), s2, [])
  {
    hide LabelsMatch, OwnershipLabels, FreshId, ServiceAccountName, Find, FromPolicy, Exec;
    var r := Find(s.accounts, j.Labels());
    var account := if r.Some? then r.value.id else AccountMade(s, j).id;
    var s1 := if r.Some? then s else After(s, MakeAccount(j));
    ExecStep(digest, FindAccount(j), s, []);
    if r.None? {
      ExecStep(digest, MakeAccount(j), s, []);
    }
    IdentityCompletes(digest, j, account, s1);
    var s3: State, id: string :| s3.directory == s1.directory
      && Exec(digest, FindIdentity(j, account), s1, []) == Exec(digest, FromPolicy(Task(j, account, id, [])), s3, []);
    t, s2 := Task(j, account, id, []), s3;
  }

  lemma JobCompletes(digest: Digest, j: Job, s: State)
    ensures Exec(digest, FindAccount(j), s, []).0.Ensured? <==> AllGrantable(s.directory, j.want)
  {
    hide Exec, AllGrantable, FromPolicy;
    var t, s2 := JobReachesBindings(digest, j, s);
    BindingsComplete(digest, t, s2);
  }

  /** A fault-free ensure succeeds, whatever state earlier attempts left the store in, exactly when the input is
      provisionable. */
  lemma EnsureCompletesIff(digest: Digest, want: EnsureInput, s: State)
    ensures Exec(digest, StartEnsure(want), s, []).0.Ensured? <==> Provisionable(s.providers, s.directory, want)
  {
    hide TrimSpace, SelectProvider, BuildSubject, NormalizeIssuer, ResourceKey, AllGrantable;
    if want.Valid() {
      assert StartEnsure(want) == FindProvider(want);
      var p := WithProvider(digest, want, SelectProvider(s.providers, want.cluster));
      assert Exec(digest, FindProvider(want), s, []) == Exec(digest, p, s, []);
      if p.FindAccount? { JobCompletes(digest, p.job, s); }
    }
  }

  // ---- when a fault-free reconcile is ready

  /** What a binding needs to become ready, all of it visible before the reconcile. */
  predicate CanBeReady(cfg: Config, c: Cluster, ref: Ref, spec: Spec) {
    var scopes := Scopes.Canonical(cfg.known, Words(spec.scopes));
    && ValidDesired(ref.namespace, spec)
    && Ref(ref.namespace, spec.serviceAccount) in c.accounts
    && scopes.Parsed?
    && Provisionable(c.iam.providers, c.iam.directory, InputOf(cfg, ref.namespace, spec, scopes.scopes))
    && (spec.identityConfigMap || cfg.identityConfigMap ==>
          !Blank(cfg.organisation)
          && !ControlledElsewhere(c, ref, Ref(ref.namespace, ConfigMapName(spec.serviceAccount))))
  }

  predicate IsReady(w: Wib) {
    var cond := OfKind(w.status.conditions, READY);
    w.status.phase == READY && cond.Some? && cond.value.status == True && cond.value.generation == w.generation
  }

  lemma UsableIff(organisation: string, account: string, project: string)
    requires !Blank(account)
    ensures UsableData(ConfigMapData(TrimSpace(organisation), account, TrimSpace(project))) <==> !Blank(organisation)
  {
    hide TrimSpace;
    TrimTwice(organisation);
    TrimTwice(account);
  }

  lemma CleanSync(c: Cluster, ref: Ref, serviceAccount: string, account: string, cfg: Config, script: Script)
    requires Clean(script) && !Blank(account)
    ensures var a := SyncConfigMap(c, ref, serviceAccount, account, cfg.Organisation(), cfg.Project(), script);
            && Clean(a.rest)
            && (a.ok <==> !Blank(cfg.organisation)
                          && !ControlledElsewhere(c, ref, Ref(ref.namespace, ConfigMapName(serviceAccount))))
  {
    hide UsableData, Filled, ConfigMapData, TrimSpace, Clean, Blank;
    UsableIff(cfg.organisation, account, cfg.project);
    CleanParts(script);
    CleanParts(Tail(script));
  }

  lemma CleanAnnotate(c: Cluster, at: Ref, account: string, organisation: string, project: string, script: Script)
    requires Clean(script)
    ensures var a := Annotate(c, at, account, organisation, project, script);
            Clean(a.rest) && (a.ok <==> at in c.accounts)
  {
    hide WithIdentity, Clean;
    CleanParts(script);
    CleanParts(Tail(script));
  }

  lemma CleanPublish(cfg: Config, c: Cluster, ref: Ref, spec: Spec, r: EnsureResult, script: Script)
    requires Clean(script) && !Blank(r.account)
    ensures var t := Publish(cfg, c, ref, spec, r, script);
            && Clean(t.rest) && t.seen.Some?
            && (t.seen.value.ready <==>
                 && Ref(ref.namespace, spec.serviceAccount) in c.accounts
                 && (spec.identityConfigMap || cfg.identityConfigMap ==>
                       !Blank(cfg.organisation)
                       && !ControlledElsewhere(c, ref, Ref(ref.namespace, ConfigMapName(spec.serviceAccount)))))
  {
    hide SyncConfigMap, Annotate, Config.Organisation, Config.Project, Clean, Blank, ControlledElsewhere,
      ConfigMapName;
    CleanSync(c, ref, spec.serviceAccount, r.account, cfg, script);
    SyncTouches(c, ref, spec.serviceAccount, r.account, cfg.Organisation(), cfg.Project(), script);
    var synced := if spec.identityConfigMap || cfg.identityConfigMap
                  then SyncConfigMap(c, ref, spec.serviceAccount, r.account, cfg.Organisation(), cfg.Project(), script)
                  else Answer(c, true, script);
    CleanAnnotate(synced.cluster, Ref(ref.namespace, spec.serviceAccount), r.account, cfg.Organisation(), cfg.Project(),
                  synced.rest);
  }

  lemma CleanProvision(digest: Digest, cfg: Config, c: Cluster, ref: Ref, spec: Spec, scopes: seq<string>,
                       script: Script)
    requires Clean(script) && Healthy(c.iam)
    ensures var t := Provision(digest, cfg, c, ref, spec, scopes, script);
            && Clean(t.rest) && t.seen.Some?
            && (t.seen.value.ready <==>
                 && Provisionable(c.iam.providers, c.iam.directory, InputOf(cfg, ref.namespace, spec, scopes))
                 && Ref(ref.namespace, spec.serviceAccount) in c.accounts
                 && (spec.identityConfigMap || cfg.identityConfigMap ==>
                       !Blank(cfg.organisation)
                       && !ControlledElsewhere(c, ref, Ref(ref.namespace, ConfigMapName(spec.serviceAccount)))))
  {
    hide Exec, StartEnsure, Publish, Provisionable, ControlledElsewhere, Blank, ConfigMapName, Healthy, Clean;
    var want := InputOf(cfg, ref.namespace, spec, scopes);
    CleanExec(digest, StartEnsure(want), c.iam, script);
    EnsureCompletesIff(digest, want, c.iam);
    EnsureHealthy(digest, want, c.iam, script);
    var (p, s, rest) := Exec(digest, StartEnsure(want), c.iam, script);
    if p.Ensured? {
      CleanPublish(cfg, c.(iam := s), ref, spec, ResultOf(p.task), rest);
      assert ControlledElsewhere(c.(iam := s), ref, Ref(ref.namespace, ConfigMapName(spec.serviceAccount)))
          == ControlledElsewhere(c, ref, Ref(ref.namespace, ConfigMapName(spec.serviceAccount))) by {
        SameMaps(c, s, ref, spec);
      }
    }
  }

  lemma SameMaps(c: Cluster, s: State, ref: Ref, spec: Spec)
    ensures var at := Ref(ref.namespace, ConfigMapName(spec.serviceAccount));
            ControlledElsewhere(c.(iam := s), ref, at) == ControlledElsewhere(c, ref, at)
  {}

  lemma CleanBinding(digest: Digest, cfg: Config, c: Cluster, ref: Ref, w: Wib, script: Script)
    requires Clean(script) && Healthy(c.iam) && !w.deleting && FINALIZER in w.finalizers && cfg.Watches(ref.namespace)
    ensures var t := ReconcileBinding(digest, cfg, c, ref, w, script);
            && Clean(t.rest) && t.seen.Some? && t.cluster.objects == c.objects
            && (t.seen.value.ready <==> CanBeReady(cfg, c, ref, w.spec))
  {
    hide Healthy, Provision, ValidDesired, Config.Watches, Scopes.Canonical, Words, Provisionable,
      ControlledElsewhere, Blank, ConfigMapName, Clean;
    CleanParts(script);
    var r := Scopes.Canonical(cfg.known, Words(w.spec.scopes));
    if r.Parsed? {
      CleanProvision(digest, cfg, c, ref, w.spec, r.scopes, Tail(script));
      ProvisionTouches(digest, cfg, c, ref, w.spec, r.scopes, Tail(script));
    }
  }

  /** A fault-free reconcile of a binding that has its finalizer leaves it ready exactly when it can be. */
  lemma ReadyIff(digest: Digest, cfg: Config, c: Cluster, ref: Ref, now: Time, script: Script)
    requires Clean(script) && Healthy(c.iam) && cfg.Watches(ref.namespace)
    requires ref in c.objects && !c.objects[ref].deleting && FINALIZER in c.objects[ref].finalizers
    ensures var c' := Leaks.Next(digest, cfg, c, Leaks.Pass(ref, now, script));
            ref in c'.objects && (IsReady(c'.objects[ref]) <==> CanBeReady(cfg, c, ref, c.objects[ref].spec))
  {
    hide Healthy, ReconcileBinding, Config.Watches, CanBeReady, Clean, WithReady;
    CleanParts(script);
    var w := c.objects[ref];
    var t := ReconcileBinding(digest, cfg, c, ref, w, Tail(script));
    CleanBinding(digest, cfg, c, ref, w, Tail(script));
    BindingHonest(digest, cfg, c, ref, w, Tail(script));
    CleanParts(t.rest);
    CleanParts(Tail(t.rest));
    var obs := t.seen.value;
    PatchedReady(w, obs, now);
  }

  lemma PatchedReady(w: Wib, obs: Observation, now: Time)
    requires Honest(obs)
    ensures IsReady(w.(status := StatusWith(w.status, obs, w.generation, now))) <==> obs.ready
  {
    WithConditionFacts(w.status.conditions, ReadyCondition(obs, w.generation, now));
  }

  // ---- recovery

  function FaultsIn(script: Script): nat {
    if script == [] then 0 else (if script[0] == Ok then 0 else 1) + FaultsIn(script[1..])
  }

  lemma {:induction false} NoFaultsIsClean(script: Script)
    requires FaultsIn(script) == 0
    ensures Clean(script)
  {
    if script != [] {
      NoFaultsIsClean(script[1..]);
      assert script == [script[0]] + script[1..];
    }
  }

  /** Successive reconciles of one object: when each runs and what happens to its calls. */
  datatype Attempt = Attempt(now: Time, script: Script)

  function Faults(passes: seq<Attempt>): nat {
    if passes == [] then 0 else FaultsIn(passes[0].script) + Faults(passes[1..])
  }

  function Repeat(digest: Digest, cfg: Config, c: Cluster, ref: Ref, passes: seq<Attempt>): Cluster
    decreases |passes|
  {
    if passes == [] then c
    else Repeat(digest, cfg, Leaks.Next(digest, cfg, c, Leaks.Pass(ref, passes[0].now, passes[0].script)), ref,
                passes[1..])
  }

  /** A binding in use whose environment lets it become ready. */
  ghost predicate Viable(cfg: Config, c: Cluster, ref: Ref) {
    && Healthy(c.iam) && cfg.Watches(ref.namespace)
    && ref in c.objects && !c.objects[ref].deleting && CanBeReady(cfg, c, ref, c.objects[ref].spec)
  }

  /** The reconciles without a fault that are still needed. */
  function Needed(w: Wib): nat {
    if FINALIZER in w.finalizers then 1 else 2
  }

  /** What readiness depends on and reconciles leave alone. */
  ghost predicate SameGround(c: Cluster, c': Cluster, ref: Ref) {
    && c'.iam.providers == c.iam.providers && c'.iam.directory == c.iam.directory
    && c'.accounts.Keys == c.accounts.Keys
    && forall at | ControlledElsewhere(c', ref, at) :: ControlledElsewhere(c, ref, at)
  }

  lemma GroundStays(cfg: Config, c: Cluster, c': Cluster, ref: Ref, spec: Spec)
    requires SameGround(c, c', ref) && CanBeReady(cfg, c, ref, spec)
    ensures CanBeReady(cfg, c', ref, spec)
  {
    hide Provisionable, ControlledElsewhere, ValidDesired, Scopes.Canonical, Words, Blank, ConfigMapName;
  }

  lemma SyncGround(c: Cluster, ref: Ref, serviceAccount: string, account: string, organisation: string,
                   project: string, script: Script)
    ensures SameGround(c, SyncConfigMap(c, ref, serviceAccount, account, organisation, project, script).cluster, ref)
  {
    hide UsableData, ConfigMapData, ConfigMapName;
  }

  lemma AnnotateGround(c: Cluster, ref: Ref, at: Ref, account: string, organisation: string, project: string,
                       script: Script)
    ensures SameGround(c, Annotate(c, at, account, organisation, project, script).cluster, ref)
  {
    hide WithIdentity;
  }

  lemma PublishGround(cfg: Config, c: Cluster, ref: Ref, spec: Spec, r: EnsureResult, script: Script)
    ensures SameGround(c, Publish(cfg, c, ref, spec, r, script).cluster, ref)
  {
    hide SyncConfigMap, Annotate, Config.Organisation, Config.Project, ControlledElsewhere;
    SyncGround(c, ref, spec.serviceAccount, r.account, cfg.Organisation(), cfg.Project(), script);
    var synced := if spec.identityConfigMap || cfg.identityConfigMap
                  then SyncConfigMap(c, ref, spec.serviceAccount, r.account, cfg.Organisation(), cfg.Project(), script)
                  else Answer(c, true, script);
    AnnotateGround(synced.cluster, ref, Ref(ref.namespace, spec.serviceAccount), r.account, cfg.Organisation(),
                   cfg.Project(), synced.rest);
  }

  lemma ProvisionGround(digest: Digest, cfg: Config, c: Cluster, ref: Ref, spec: Spec, scopes: seq<string>,
                        script: Script)
    requires Healthy(c.iam)
    ensures SameGround(c, Provision(digest, cfg, c, ref, spec, scopes, script).cluster, ref)
  {
    hide Exec, StartEnsure, Publish, InOrder, Named;
    var want := InputOf(cfg, ref.namespace, spec, scopes);
    var (p, s, rest) := Exec(digest, StartEnsure(want), c.iam, script);
    SoundWhenInOrder(c.iam);
    Runs.EnsureIsolated(digest, want, c.iam, script);
    if p.Ensured? { PublishGround(cfg, c.(iam := s), ref, spec, ResultOf(p.task), rest); }
  }

  lemma ObjectsGround(c: Cluster, c1: Cluster, c2: Cluster, ref: Ref)
    ensures SameGround(c, c, ref)
    ensures SameGround(c, c1, ref) && c2 == c1.(objects := c2.objects) ==> SameGround(c, c2, ref)
  {
    forall at
      ensures c2 == c1.(objects := c2.objects) ==> ControlledElsewhere(c2, ref, at) == ControlledElsewhere(c1, ref, at)
    {}
  }

  lemma BindingGround(digest: Digest, cfg: Config, c: Cluster, ref: Ref, w: Wib, script: Script)
    requires Healthy(c.iam) && !w.deleting
    ensures var t := ReconcileBinding(digest, cfg, c, ref, w, script);
            && SameGround(c, t.cluster, ref)
            && (FINALIZER in w.finalizers ==> t.cluster.objects == c.objects)
            && (FINALIZER !in w.finalizers ==>
                 t.cluster.objects == if Head(script) == FailBefore then c.objects
                                      else c.objects[ref := w.(finalizers := w.finalizers + [FINALIZER])])
  {
    hide Healthy, Provision, ValidDesired, Config.Watches, Scopes.Canonical, Words, SameGround;
    var t := ReconcileBinding(digest, cfg, c, ref, w, script);
    var r := Scopes.Canonical(cfg.known, Words(w.spec.scopes));
    if r.Parsed? {
      ProvisionGround(digest, cfg, c, ref, w.spec, r.scopes, Tail(script));
      ProvisionTouches(digest, cfg, c, ref, w.spec, r.scopes, Tail(script));
    }
    ObjectsGround(c, c, t.cluster, ref);
  }

  lemma PassKeepsViable(digest: Digest, cfg: Config, c: Cluster, ref: Ref, now: Time, script: Script)
    requires Viable(cfg, c, ref)
    ensures var c' := Leaks.Next(digest, cfg, c, Leaks.Pass(ref, now, script));
            && Viable(cfg, c', ref) && Needed(c'.objects[ref]) <= Needed(c.objects[ref])
            && (Clean(script) && FINALIZER !in c.objects[ref].finalizers ==> FINALIZER in c'.objects[ref].finalizers)
  {
    hide Healthy, ReconcileBinding, Config.Watches, Clean, StatusWith, CanBeReady, SameGround;
    var w := c.objects[ref];
    var c' := Leaks.Next(digest, cfg, c, Leaks.Pass(ref, now, script));
    if Clean(script) { CleanParts(script); CleanParts(Tail(script)); }
    NextHealthy(digest, cfg, c, Leaks.Pass(ref, now, script), ref);
    BindingGround(digest, cfg, c, ref, w, Tail(script));
    var t := ReconcileBinding(digest, cfg, c, ref, w, Tail(script));
    ObjectsGround(c, c, c', ref);
    ObjectsGround(c, t.cluster, c', ref);
    GroundStays(cfg, c, c', ref, w.spec);
  }

  /** Bounded recovery: in an environment where the binding can be ready, with at most f faults among the calls of all
      its reconciles, one of the first f + 2 reconciles leaves it ready. */
  lemma {:induction false} BoundedRecovery(digest: Digest, cfg: Config, c: Cluster, ref: Ref, passes: seq<Attempt>)
    returns (n: nat)
    requires Viable(cfg, c, ref)
    requires |passes| >= Faults(passes) + Needed(c.objects[ref])
    ensures n <= Faults(passes) + Needed(c.objects[ref]) <= Faults(passes) + 2
    ensures var c' := Repeat(digest, cfg, c, ref, passes[..n]); ref in c'.objects && IsReady(c'.objects[ref])
    decreases |passes|
  {
    hide Viable, CanBeReady, IsReady, Leaks.Next, Healthy, Clean, FaultsIn;
    var first := passes[0];
    var c1 := Leaks.Next(digest, cfg, c, Leaks.Pass(ref, first.now, first.script));
    ViableObject(cfg, c, ref);
    PassKeepsViable(digest, cfg, c, ref, first.now, first.script);
    if FaultsIn(first.script) == 0 { NoFaultsIsClean(first.script); }
    if FaultsIn(first.script) == 0 && FINALIZER in c.objects[ref].finalizers {
      ReadyIff(digest, cfg, c, ref, first.now, first.script);
      n := 1;
      assert passes[..1] == [first];
      assert Repeat(digest, cfg, c1, ref, []) == c1;
    } else {
      var m := BoundedRecovery(digest, cfg, c1, ref, passes[1..]);
      n := m + 1;
      assert passes[..n][1..] == passes[1..][..m];
    }
  }

  lemma ViableObject(cfg: Config, c: Cluster, ref: Ref)
    requires Viable(cfg, c, ref)
    ensures Healthy(c.iam) && cfg.Watches(ref.namespace) && ref in c.objects && !c.objects[ref].deleting
    ensures CanBeReady(cfg, c, ref, c.objects[ref].spec)
  {}
}
