/** Ready, then deleted: the cluster is as it was. */
module Restoration {
  import opened Strings
  import opened Subject
  import opened Store
  import opened Protocol
  import opened Ownership
  import opened Safety
  import opened Conditions
  import opened Resolution
  import opened Undo
  import opened Kube
  import opened Reconcile
  import opened Lifecycle
  import opened History
  import opened Recovery
  import opened Truth
  import Leaks
  import Runs
  import Quiescence
  import Scopes
  import Handoff
  import Guarantees

  // ---- the policy a fault-free ensure reports

  lemma PolicyIsResolved(digest: Digest, t: Task, s: State)
    requires t.bound == [] && t.job.want.Ref(Policy) != "" && Exec(digest, FromPolicy(t), s, []).0.Ensured?
    ensures var r := Resolve(s.directory, Policy, t.job.want.Ref(Policy));
            r.Some? && BoundPolicy(Exec(digest, FromPolicy(t), s, []).0.task.bound) == r.value.id
  {
    hide TrimSpace, Grantable, Exec, Resolve;
    KindCompletes(digest, t, Policy, s);
    var slot := Slot(Policy, Resolve(s.directory, Policy, t.job.want.Ref(Policy)).value.id);
    var s': State :| s'.directory == s.directory
              && Exec(digest, LookUp(t, Policy), s, []) == Exec(digest, WithBinding(t, slot), s', []);
    var t' := t.(bound := t.bound + [slot]);
    assert WithBinding(t, slot) == FromRole(t');
    RoleKeepsFirst(digest, t', s');
  }

  lemma RoleKeepsFirst(digest: Digest, t: Task, s: State)
    requires t.bound != [] && Exec(digest, FromRole(t), s, []).0.Ensured?
    ensures var b := Exec(digest, FromRole(t), s, []).0.task.bound; b != [] && b[0] == t.bound[0]
  {
    hide TrimSpace, Grantable, Exec, Resolve;
    if t.job.want.Ref(Role) == "" {
      ExecEnd(digest, Ensured(t), s, []);
    } else {
      KindCompletes(digest, t, Role, s);
      var slot := Slot(Role, Resolve(s.directory, Role, t.job.want.Ref(Role)).value.id);
      var s': State :| Exec(digest, LookUp(t, Role), s, []) == Exec(digest, WithBinding(t, slot), s', []);
      ExecEnd(digest, Ensured(t.(bound := t.bound + [slot])), s', []);
    }
  }

  lemma ReportedPolicy(digest: Digest, want: EnsureInput, s: State)
    requires Exec(digest, StartEnsure(want), s, []).0.Ensured? && want.Ref(Policy) != ""
    ensures var r := Resolve(s.directory, Policy, want.Ref(Policy));
            r.Some? && ResultOf(Exec(digest, StartEnsure(want), s, []).0.task).policy == r.value.id
  {
    hide Exec, TrimSpace, FromPolicy, StartEnsure, JobOf, Resolve, BoundPolicy;
    Quiescence.FirstCall(digest, want, s, []);
    var t, s2 := JobReachesBindings(digest, JobOf(digest, want, s), s);
    PolicyIsResolved(digest, t, s2);
  }

  /** The text the deletion takes for the policy trims to the identity the ensure reported. */
  lemma PolicyToDropFits(digest: Digest, want: EnsureInput, s: State, spec: Spec)
    requires Exec(digest, StartEnsure(want), s, []).0.Ensured? && InOrder(s) && want.policyRef == spec.policyRef
    requires want.Ref(Policy) != "" ==> ReResolves(s.directory, want.Ref(Policy))
    ensures var policy := ResultOf(Exec(digest, StartEnsure(want), s, []).0.task).policy;
            TrimSpace(PolicyToDrop(spec, policy)) == TrimSpace(policy)
  {
    hide Exec, TrimSpace, StartEnsure, Resolve, Sound, Guarantees.Exclusive, Guarantees.Linked, BoundPolicy,
      Runs.Kinds, Runs.Wanted;
    var p := Exec(digest, StartEnsure(want), s, []).0;
    EmptyIsBlank();
    if want.Ref(Policy) != "" {
      ReportedPolicy(digest, want, s);
      TrimTwice(ResultOf(p.task).policy);
    } else {
      Runs.EnsureSucceeds(digest, want, s, []);
      Quiescence.FirstCall(digest, want, s, []);
      EnsuredJob(digest, want, s, []);
      BoundInOrder(p.task.bound, want);
    }
  }

  // ---- the two reconciles

  /** A fault-free reconcile that can be ready runs the ensure, annotates the account and keeps the policy in the
      status. */
  lemma ReadyPass(digest: Digest, cfg: Config, c: Cluster, ref: Ref, now: Time)
    requires Healthy(c.iam) && cfg.Watches(ref.namespace)
    requires ref in c.objects && !c.objects[ref].deleting && FINALIZER in c.objects[ref].finalizers
    requires CanBeReady(cfg, c, ref, c.objects[ref].spec)
    ensures var w := c.objects[ref];
            var (p, s, _) := Exec(digest, StartEnsure(WantedBy(cfg, ref, w.spec)), c.iam, []);
            var c1 := Leaks.Next(digest, cfg, c, Leaks.Pass(ref, now, []));
            && p.Ensured? && c1.iam == s && c1.objects.Keys == c.objects.Keys
            && c1.objects == c.objects[ref := c1.objects[ref]]
            && c1.objects[ref] == w.(status := c1.objects[ref].status)
            && c1.objects[ref].status.policy == ResultOf(p.task).policy
            && var at := Ref(ref.namespace, w.spec.serviceAccount);
               at in c.accounts
               && c1.accounts
                    == c.accounts[at := WithIdentity(c.accounts[at], ResultOf(p.task).account, cfg.Organisation(),
                                                     cfg.Project())]
  {
    hide Healthy, Exec, StartEnsure, Publish, ValidDesired, Config.Watches, Config.Organisation, Config.Project,
      Scopes.Canonical, Words, Provisionable, ControlledElsewhere, ConfigMapName, Blank, WithIdentity, WithReady,
      Clean;
    NoneIsClean();
    var w := c.objects[ref];
    var want := WantedBy(cfg, ref, w.spec);
    EnsureCompletesIff(digest, want, c.iam);
    EnsureHealthy(digest, want, c.iam, []);
    var (p, s, rest) := Exec(digest, StartEnsure(want), c.iam, []);
    CleanExec(digest, StartEnsure(want), c.iam, []);
    CleanBinding(digest, cfg, c, ref, w, []);
    var r := ResultOf(p.task);
    PublishTouches(cfg, c.(iam := s), ref, w.spec, r, rest);
    Handoff.PublishedAnnotations(cfg, c.(iam := s), ref, w.spec, r, rest);
    PublishedElsewhere(cfg, c.(iam := s), ref, w.spec, r, rest);
    var t := ReconcileBinding(digest, cfg, c, ref, w, []);
    CleanParts(t.rest);
    CleanParts(Tail(t.rest));
  }

  lemma NoneIsClean()
    ensures Clean([]) && Head([]) == Ok && Tail([]) == []
  {}

  lemma AnnotatedElsewhere(c: Cluster, at: Ref, account: string, organisation: string, project: string,
                           script: Script)
    ensures var t := Annotate(c, at, account, organisation, project, script);
            at in t.cluster.accounts ==> t.cluster.accounts == c.accounts[at := t.cluster.accounts[at]]
  {
    hide WithIdentity;
  }

  lemma PublishedElsewhere(cfg: Config, c: Cluster, ref: Ref, spec: Spec, r: EnsureResult, script: Script)
    ensures var t, at := Publish(cfg, c, ref, spec, r, script), Ref(ref.namespace, spec.serviceAccount);
            at in t.cluster.accounts ==> t.cluster.accounts == c.accounts[at := t.cluster.accounts[at]]
  {
    hide SyncConfigMap, Annotate, Config.Organisation, Config.Project;
    SyncTouches(c, ref, spec.serviceAccount, r.account, cfg.Organisation(), cfg.Project(), script);
    var synced := if spec.identityConfigMap || cfg.identityConfigMap
                  then SyncConfigMap(c, ref, spec.serviceAccount, r.account, cfg.Organisation(), cfg.Project(), script)
                  else Answer(c, true, script);
    var at := Ref(ref.namespace, spec.serviceAccount);
    AnnotatedElsewhere(synced.cluster, at, r.account, cfg.Organisation(), cfg.Project(), synced.rest);
    if at in c.accounts { assert c.accounts[at := c.accounts[at]] == c.accounts; }
  }

  /** A fault-free reconcile of a binding being deleted, with its provider there. */
  lemma LastPass(digest: Digest, cfg: Config, c: Cluster, ref: Ref, now: Time, provider: Provider)
    requires cfg.Watches(ref.namespace) && ref in c.objects && c.objects[ref].deleting
             && c.objects[ref].finalizers == [FINALIZER]
    requires c.objects[ref].spec.deleteResources && !Blank(cfg.cluster)
    requires SelectProvider(c.iam.providers, cfg.cluster) == OneProvider(provider)
             && NormalizeIssuer(provider.issuer) != ""
    requires var w := c.objects[ref];
             Exec(digest, StartDelete(digest, ref.namespace, w.spec.serviceAccount, NormalizeIssuer(provider.issuer),
                                      w.spec.roleRef, PolicyToDrop(w.spec, w.status.policy)), c.iam, []).0.Dropped?
    ensures var w := c.objects[ref];
            var c' := Leaks.Next(digest, cfg, c, Leaks.Pass(ref, now, []));
            var at := Ref(ref.namespace, w.spec.serviceAccount);
            && c'.objects == c.objects - {ref}
            && c'.iam
                 == Exec(digest, StartDelete(digest, ref.namespace, w.spec.serviceAccount,
                                             NormalizeIssuer(provider.issuer), w.spec.roleRef,
                                             PolicyToDrop(w.spec, w.status.policy)), c.iam, []).1
            && c'.accounts == if at in c.accounts then c.accounts[at := WithoutIdentity(c.accounts[at])] else c.accounts
  {
    hide Exec, StartDelete, SelectProvider, NormalizeIssuer, Blank, PolicyToDrop, WithoutIdentity, Config.Watches,
      Clean;
    NoneIsClean();
    var w := c.objects[ref];
    var at := Ref(ref.namespace, w.spec.serviceAccount);
    ClearedOut(c, at);
    var cleared := ClearAnnotations(c, at, []);
    var start := StartDelete(digest, ref.namespace, w.spec.serviceAccount, NormalizeIssuer(provider.issuer),
                             w.spec.roleRef, PolicyToDrop(w.spec, w.status.policy));
    CleanExec(digest, start, c.iam, []);
    assert cleared.rest == [] && cleared.cluster.iam == c.iam;
    assert DropString([FINALIZER], FINALIZER) == [];
    var gone := DeleteCloud(digest, cfg, cleared.cluster, ref.namespace, w.spec, w.status.policy, []);
    assert gone.ok && gone.cluster.iam == Exec(digest, start, c.iam, []).1;
    CleanParts(gone.rest);
  }

  lemma ClearedOut(c: Cluster, at: Ref)
    ensures var a := ClearAnnotations(c, at, []);
            && a.ok && a.rest == []
            && a.cluster
                 == c.(accounts := if at in c.accounts then c.accounts[at := WithoutIdentity(c.accounts[at])]
                                   else c.accounts)
  {
    if at in c.accounts && forall k | k in IDENTITY_KEYS :: k !in c.accounts[at] {
      assert WithoutIdentity(c.accounts[at]) == c.accounts[at];
      assert c.accounts[at := c.accounts[at]] == c.accounts;
    }
  }

  lemma IdentityErased(a: Annotations, account: string, organisation: string, project: string)
    ensures WithoutIdentity(WithIdentity(a, account, organisation, project)) == WithoutIdentity(a)
  {}

  /** The whole life of a binding, end to end: from a cluster with nothing of its owner in the store, one fault-free
      reconcile makes it ready; deleted, one fault-free reconcile later the object is gone, the store has every list it
      had, and the ServiceAccount has the annotations it had, less the identity's. */
  lemma DeletionRestores(digest: Digest, cfg: Config, c: Cluster, ref: Ref, now: Time, later: Time)
    requires Healthy(c.iam) && cfg.Watches(ref.namespace) && ref in c.objects
    requires var w := c.objects[ref]; !w.deleting && w.finalizers == [FINALIZER] && w.spec.deleteResources
    requires CanBeReady(cfg, c, ref, c.objects[ref].spec)
    requires forall k :: !Owned(c.iam, k, Leaks.OwnerAt(ref, c.objects[ref]))
    requires var want := WantedBy(cfg, ref, c.objects[ref].spec);
             want.Ref(Policy) != "" ==> ReResolves(c.iam.directory, want.Ref(Policy))
    ensures var c1 := Leaks.Next(digest, cfg, c, Leaks.Pass(ref, now, []));
            var c2 := Leaks.Next(digest, cfg, c1, Leaks.RequestDelete(ref));
            var c3 := Leaks.Next(digest, cfg, c2, Leaks.Pass(ref, later, []));
            var at := Ref(ref.namespace, c.objects[ref].spec.serviceAccount);
            && ref in c1.objects && IsReady(c1.objects[ref])
            && c3.objects == c.objects - {ref} && SameResources(c.iam, c3.iam)
            && at in c.accounts && c3.accounts == c.accounts[at := WithoutIdentity(c.accounts[at])]
  {
    hide Healthy, Config.Watches, Exec, StartEnsure, StartDelete, CanBeReady, Owned, ReResolves, SameResources,
      WithIdentity, WithoutIdentity, WantedBy, PolicyToDrop, IsReady, Leaks.Next, Clean, SelectProvider,
      NormalizeIssuer, Blank, ResultOf, JobOf, Config.Organisation, Config.Project;
    NoneIsClean();
    var w := c.objects[ref];
    var at := Ref(ref.namespace, w.spec.serviceAccount);
    var want := WantedBy(cfg, ref, w.spec);
    ReadyIff(digest, cfg, c, ref, now, []);
    ReadyPass(digest, cfg, c, ref, now);
    var (p, s, _) := Exec(digest, StartEnsure(want), c.iam, []);
    var c1 := Leaks.Next(digest, cfg, c, Leaks.Pass(ref, now, []));
    Undoing(digest, cfg, c, ref, w, want);
    DeletePass(digest, cfg, c1, ref, later, JobOf(digest, want, c.iam).provider);
    IdentityErased(c.accounts[at], ResultOf(p.task).account, cfg.Organisation(), cfg.Project());
    OthersStay(c.objects, ref, c1.objects[ref]);
    LastWord(c.accounts, at, WithIdentity(c.accounts[at], ResultOf(p.task).account, cfg.Organisation(), cfg.Project()),
             WithoutIdentity(c.accounts[at]));
  }

  lemma OthersStay(objects: map<Ref, Wib>, ref: Ref, w: Wib)
    ensures objects[ref := w] - {ref} == objects - {ref}
  {}

  lemma LastWord(accounts: map<Ref, Annotations>, at: Ref, a: Annotations, b: Annotations)
    ensures accounts[at := a][at := b] == accounts[at := b]
  {}

  /** The request to delete, then the last reconcile. */
  lemma DeletePass(digest: Digest, cfg: Config, c: Cluster, ref: Ref, now: Time, provider: Provider)
    requires cfg.Watches(ref.namespace) && ref in c.objects && c.objects[ref].finalizers == [FINALIZER]
    requires c.objects[ref].spec.deleteResources && !Blank(cfg.cluster)
    requires SelectProvider(c.iam.providers, cfg.cluster) == OneProvider(provider)
             && NormalizeIssuer(provider.issuer) != ""
    requires var w := c.objects[ref];
             Exec(digest, StartDelete(digest, ref.namespace, w.spec.serviceAccount, NormalizeIssuer(provider.issuer),
                                      w.spec.roleRef, PolicyToDrop(w.spec, w.status.policy)), c.iam, []).0.Dropped?
    ensures var w := c.objects[ref];
            var c' := Leaks.Next(digest, cfg, Leaks.Next(digest, cfg, c, Leaks.RequestDelete(ref)),
                                 Leaks.Pass(ref, now, []));
            var at := Ref(ref.namespace, w.spec.serviceAccount);
            && c'.objects == c.objects - {ref}
            && c'.iam
                 == Exec(digest, StartDelete(digest, ref.namespace, w.spec.serviceAccount,
                                             NormalizeIssuer(provider.issuer), w.spec.roleRef,
                                             PolicyToDrop(w.spec, w.status.policy)), c.iam, []).1
            && c'.accounts == if at in c.accounts then c.accounts[at := WithoutIdentity(c.accounts[at])] else c.accounts
  {
    hide Exec, StartDelete, SelectProvider, NormalizeIssuer, Blank, PolicyToDrop, WithoutIdentity, Config.Watches,
      Reconcile.Reconcile;
    var c1 := Leaks.Next(digest, cfg, c, Leaks.RequestDelete(ref));
    LastPass(digest, cfg, c1, ref, now, provider);
    assert c1.objects - {ref} == c.objects - {ref};
  }

  lemma WantedFacts(cfg: Config, ref: Ref, spec: Spec)
    ensures var want := WantedBy(cfg, ref, spec);
            && want.namespace == ref.namespace && want.name == spec.serviceAccount && want.roleRef == spec.roleRef
            && want.policyRef == spec.policyRef && want.cluster == cfg.cluster
  {
    hide Scopes.Canonical, Words;
  }

  /** What the deletion finds and does, after the ensure. */
  lemma Undoing(digest: Digest, cfg: Config, c: Cluster, ref: Ref, w: Wib, want: EnsureInput)
    requires Healthy(c.iam) && want == WantedBy(cfg, ref, w.spec)
    requires Exec(digest, StartEnsure(want), c.iam, []).0.Ensured?
    requires forall k :: !Owned(c.iam, k, Leaks.OwnerAt(ref, w))
    requires want.Ref(Policy) != "" ==> ReResolves(c.iam.directory, want.Ref(Policy))
    ensures var (p, s, _) := Exec(digest, StartEnsure(want), c.iam, []);
            var provider := JobOf(digest, want, c.iam).provider;
            && !Blank(cfg.cluster) && SelectProvider(s.providers, cfg.cluster) == OneProvider(provider)
            && NormalizeIssuer(provider.issuer) != ""
            && var (q, s2, _) :=
                 Exec(digest, StartDelete(digest, ref.namespace, w.spec.serviceAccount,
                                          NormalizeIssuer(provider.issuer), w.spec.roleRef,
                                          PolicyToDrop(w.spec, ResultOf(p.task).policy)), s, []);
               q.Dropped? && SameResources(c.iam, s2)
  {
    hide Exec, StartEnsure, StartDelete, SelectProvider, NormalizeIssuer, BuildSubject, ResourceKey, ReResolves,
      SameResources, PolicyToDrop, TrimSpace, Sound, Guarantees.Exclusive, Guarantees.Linked, Named, Select,
      OwnershipLabels, Runs.Foreign, Others, GrantsOf, Unmanaged, WantedBy, Runs.KeyFound;
    WantedFacts(cfg, ref, w.spec);
    Quiescence.FirstCall(digest, want, c.iam, []);
    Runs.EnsureIsolated(digest, want, c.iam, []);
    var j := JobOf(digest, want, c.iam);
    JobFacts(digest, want, c.iam);
    assert !Owned(c.iam, j.key, Leaks.OwnerAt(ref, w));
    PolicyToDropFits(digest, want, c.iam, w.spec);
    DeleteUndoes(digest, want, c.iam, w.spec.roleRef,
                 PolicyToDrop(w.spec, ResultOf(Exec(digest, StartEnsure(want), c.iam, []).0.task).policy));
  }

  lemma JobFacts(digest: Digest, want: EnsureInput, s: State)
    requires want.Valid() && WithProvider(digest, want, SelectProvider(s.providers, want.cluster)).FindAccount?
    ensures var j := JobOf(digest, want, s);
            && !Blank(want.cluster) && SelectProvider(s.providers, want.cluster) == OneProvider(j.provider)
            && j.issuer == NormalizeIssuer(j.provider.issuer) != "" && j.want == want
            && j.Labels() == OwnershipLabels(j.key, want.namespace, want.name)
  {
    hide TrimSpace, SelectProvider, NormalizeIssuer, BuildSubject, ResourceKey, OwnershipLabels;
  }

  // ---- the same life, with the provider gone before the end

  /** The first reconcile of a new binding adds the finalizer and notes it. */
  lemma ClaimPass(digest: Digest, cfg: Config, c: Cluster, ref: Ref, now: Time)
    requires cfg.Watches(ref.namespace) && ref in c.objects && !c.objects[ref].deleting
             && c.objects[ref].finalizers == []
    ensures var c' := Leaks.Next(digest, cfg, c, Leaks.Pass(ref, now, []));
            && c' == c.(objects := c'.objects) && ref in c'.objects
            && c'.objects == c.objects[ref := c'.objects[ref]]
            && c'.objects[ref] == c.objects[ref].(finalizers := [FINALIZER], status := c'.objects[ref].status)
  {
    hide StatusWith, Config.Watches;
    assert [] + [FINALIZER] == [FINALIZER];
  }

  /** What is created, becomes ready and is deleted after its provider has gone. */
  function LifeWithoutEnd(ref: Ref, spec: Spec): seq<Leaks.Event> {
    [Leaks.Create(ref, spec, []), Leaks.Pass(ref, 1, []), Leaks.Pass(ref, 2, []), Leaks.SetProviders([])]
    + [Leaks.RequestDelete(ref), Leaks.Pass(ref, 3, [])]
  }

  lemma BecomesReady(digest: Digest, cfg: Config, c: Cluster, ref: Ref, spec: Spec)
    requires Healthy(c.iam) && cfg.Watches(ref.namespace) && ref !in c.objects && CanBeReady(cfg, c, ref, spec)
    ensures var c1 := Leaks.Next(digest, cfg, c, Leaks.Create(ref, spec, []));
            var c2 := Leaks.Next(digest, cfg, c1, Leaks.Pass(ref, 1, []));
            var c3 := Leaks.Next(digest, cfg, c2, Leaks.Pass(ref, 2, []));
            && ref in c3.objects && IsReady(c3.objects[ref]) && c3.objects[ref].finalizers == [FINALIZER]
            && c3.objects - {ref} == c.objects
            && exists key :: Owned(c3.iam, key, Owner(ref.namespace, spec.serviceAccount))
  {
    hide Healthy, Config.Watches, Exec, StartEnsure, CanBeReady, Owned, WithIdentity, WantedBy, IsReady, Clean, Holds,
      Reconcile.Reconcile, InOrder, SelectProvider, NormalizeIssuer, ResultOf, ReadyWith;
    NoneIsClean();
    var c1 := Leaks.Next(digest, cfg, c, Leaks.Create(ref, spec, []));
    ObjectsGround(c, c, c1, ref);
    GroundStays(cfg, c, c1, ref, spec);
    ClaimPass(digest, cfg, c1, ref, 1);
    var c2 := Leaks.Next(digest, cfg, c1, Leaks.Pass(ref, 1, []));
    ObjectsGround(c1, c1, c2, ref);
    GroundStays(cfg, c1, c2, ref, spec);
    ReadyIff(digest, cfg, c2, ref, 2, []);
    ReadyPass(digest, cfg, c2, ref, 2);
    WantedFacts(cfg, ref, spec);
    var want := WantedBy(cfg, ref, spec);
    HealthyInOrder(c.iam);
    EnsuredHolds(digest, cfg, want, c.iam, []);
    HoldsOwned(digest, c.iam, Exec(digest, StartEnsure(want), c.iam, []).1, want,
               ReadyWith(cfg, ResultOf(Exec(digest, StartEnsure(want), c.iam, []).0.task)));
  }

  lemma HealthyInOrder(s: State)
    requires Healthy(s)
    ensures InOrder(s)
  {}

  lemma HoldsOwned(digest: Digest, before: State, s: State, want: EnsureInput, o: Observation)
    requires Holds(digest, before, s, want, o)
    ensures exists key :: Owned(s, key, Owner(want.namespace, want.name))
  {
    hide SelectProvider, NormalizeIssuer, KeyFor, OwnershipLabels, Select, Granted, TrimSpace, Trusts, BuildSubject;
    var choice := SelectProvider(before.providers, want.cluster);
    var owner := Owner(want.namespace, want.name);
    assert Owned(s, KeyFor(digest, NormalizeIssuer(choice.provider.issuer), owner), owner);
  }

  /** Every binding that can become ready leaks if its provider goes before it is deleted: created, made ready and
      deleted, it is gone with its owner's resources still in the store. */
  lemma LeakAfterReady(digest: Digest, cfg: Config, c: Cluster, ref: Ref, spec: Spec)
    requires Healthy(c.iam) && cfg.Watches(ref.namespace) && ref !in c.objects && CanBeReady(cfg, c, ref, spec)
    ensures var c' := Leaks.Run(digest, cfg, c, LifeWithoutEnd(ref, spec));
            c'.objects == c.objects && exists key :: Owned(c'.iam, key, Owner(ref.namespace, spec.serviceAccount))
  {
    hide Healthy, Config.Watches, CanBeReady, Owned, IsReady, Leaks.Run, Blank, Reconcile.Reconcile;
    BecomesReady(digest, cfg, c, ref, spec);
    var c1 := Leaks.Next(digest, cfg, c, Leaks.Create(ref, spec, []));
    var c2 := Leaks.Next(digest, cfg, c1, Leaks.Pass(ref, 1, []));
    var c3 := Leaks.Next(digest, cfg, c2, Leaks.Pass(ref, 2, []));
    var c4 := Leaks.Next(digest, cfg, c3, Leaks.SetProviders([]));
    var first := [Leaks.Create(ref, spec, []), Leaks.Pass(ref, 1, []), Leaks.Pass(ref, 2, []), Leaks.SetProviders([])];
    RunFour(digest, cfg, c, first[0], first[1], first[2], first[3]);
    Leaks.RunSplit(digest, cfg, c, first, [Leaks.RequestDelete(ref), Leaks.Pass(ref, 3, [])]);
    NamedCluster(cfg, c, ref, spec);
    Leaks.DeletionWithoutProvider(digest, cfg, c4, ref, 3);
    var key :| Owned(c3.iam, key, Owner(ref.namespace, spec.serviceAccount));
    assert Owned(c4.iam, key, Owner(ref.namespace, spec.serviceAccount)) by {
      OwnedWithoutProviders(c3.iam, key, Owner(ref.namespace, spec.serviceAccount));
    }
  }

  lemma OwnedWithoutProviders(s: State, key: string, o: Owner)
    ensures Owned(s.(providers := []), key, o) == Owned(s, key, o)
  {}

  lemma NamedCluster(cfg: Config, c: Cluster, ref: Ref, spec: Spec)
    requires CanBeReady(cfg, c, ref, spec)
    ensures !Blank(cfg.cluster) && SelectProvider([], cfg.cluster).NoProvider?
  {
    hide TrimSpace, Scopes.Canonical, Words, ControlledElsewhere, ConfigMapName, AllGrantable, BuildSubject,
      NormalizeIssuer;
  }

  lemma RunFour(digest: Digest, cfg: Config, c: Cluster, a: Leaks.Event, b: Leaks.Event, d: Leaks.Event, e: Leaks.Event)
    ensures Leaks.Run(digest, cfg, c, [a, b, d, e])
         == Leaks.Next(digest, cfg,
                       Leaks.Next(digest, cfg, Leaks.Next(digest, cfg, Leaks.Next(digest, cfg, c, a), b), d), e)
  {
    hide Leaks.Next;
    Leaks.RunSplit(digest, cfg, c, [a, b], [d, e]);
    assert [a, b] + [d, e] == [a, b, d, e];
    Leaks.RunTwo(digest, cfg, c, a, b);
    Leaks.RunTwo(digest, cfg, Leaks.Next(digest, cfg, Leaks.Next(digest, cfg, c, a), b), d, e);
  }
}
