/** The last pass over an annotated ServiceAccount: what it removes, and what it leaves as before the first. */
module LegacyDeparture {
  import opened Strings
  import opened Subject
  import opened Store
  import opened Protocol
  import opened Safety
  import opened Resolution
  import opened Undo
  import opened Kube
  import opened Reconcile
  import opened Lifecycle
  import opened Recovery
  import opened Legacy
  import opened Departure
  import Conditions
  import LegacyConfigured
  import LegacyLeaks
  import LegacyTruth
  import Ownership
  import Providers
  import Quiescence
  import Removal
  import Restoration
  import Runs
  import Scopes

  /** The account asks for its resources to be deleted. */
  predicate AsksToDelete(a: Annotations) {
    EqualFold(TrimSpace(Get(a, "thalassa.cloud/wif.delete-resources")), "true")
  }

  /** The policy whose binding is to go: the one recorded, or else the one referred to. */
  function LastPolicy(a: Annotations): string {
    if Get(a, "thalassa.cloud/wif.policy-id") != "" then Get(a, "thalassa.cloud/wif.policy-id")
    else Get(a, "thalassa.cloud/wif.policy")
  }

  lemma Keys(a: Annotations)
    ensures (DeletesResources(a) <==> AsksToDelete(a)) && PolicyOf(a) == LastPolicy(a)
    ensures Get(a, ROLE) == LegacyConfigured.RoleRef(a) && (IsEnabled(a) <==> LegacyConfigured.OptedIn(a))
  {
    hide TrimSpace, EqualFold;
  }

  /** The account goes or has opted out, and waits for the controller. */
  predicate LastCallSa(cfg: Config, v: Estate, ref: Ref) {
    && (cfg.watch == [] || ref.namespace in cfg.watch)
    && ref in v.accounts && FINALIZER in v.accounts[ref].finalizers
    && (v.accounts[ref].deleting || !LegacyConfigured.OptedIn(v.accounts[ref].annotations))
  }

  /** The account loses the controller's finalizer, and nothing else. */
  ghost predicate DepartedSa(v: Estate, v': Estate, ref: Ref)
    requires ref in v.accounts
  {
    && (ref !in v'.accounts ==> forall f | f in v.accounts[ref].finalizers :: f == FINALIZER)
    && (ref in v'.accounts ==>
          && v'.accounts[ref] == v.accounts[ref].(finalizers := v'.accounts[ref].finalizers)
          && TakenOff(v.accounts[ref].finalizers, v'.accounts[ref].finalizers))
    && v'.accounts - {ref} == v.accounts - {ref}
  }

  lemma FreedSa(v: Estate, ref: Ref, script: Script)
    requires Clean(script) && ref in v.accounts
    ensures var sa := v.accounts[ref];
            var r := WriteSa(v, ref, sa.(finalizers := DropString(sa.finalizers, FINALIZER)), script);
            && r.ok && r.view.iam == v.iam
            && (ref !in r.view.accounts ==> forall f | f in sa.finalizers :: f == FINALIZER)
            && (ref in r.view.accounts ==>
                  && r.view.accounts[ref] == sa.(finalizers := r.view.accounts[ref].finalizers)
                  && TakenOff(sa.finalizers, r.view.accounts[ref].finalizers))
            && r.view.accounts - {ref} == v.accounts - {ref}
  {
    hide Clean;
    CleanParts(script);
    DropStringFacts(v.accounts[ref].finalizers, FINALIZER);
  }

  lemma CleanCloudSa(digest: Digest, cfg: Config, v: Estate, ref: Ref, a: Annotations, script: Script,
                     provider: Provider)
    requires Clean(script) && !Blank(cfg.cluster) && BuildSubject(ref.namespace, ref.name).Some?
    requires SelectProvider(v.iam.providers, cfg.cluster) == OneProvider(provider)
             && NormalizeIssuer(provider.issuer) != ""
    ensures var r := DeleteCloudOf(digest, cfg, v, ref, a, script);
            && r.ok && Clean(r.rest)
            && r.view == v.(iam := Exec(digest, StartDelete(digest, ref.namespace, ref.name,
                                                            NormalizeIssuer(provider.issuer),
                                                            LegacyConfigured.RoleRef(a), LastPolicy(a)), v.iam, []).1)
  {
    hide Blank, Exec, StartDelete, SelectProvider, NormalizeIssuer, BuildSubject, PolicyOf, Clean, LastPolicy;
    CleanParts(script);
    Keys(a);
    var issuer := NormalizeIssuer(provider.issuer);
    var start := StartDelete(digest, ref.namespace, ref.name, issuer, Get(a, ROLE), PolicyOf(a));
    CleanExec(digest, start, v.iam, Tail(script));
    Removal.DeleteCompletesIff(digest, ref.namespace, ref.name, issuer, Get(a, ROLE), PolicyOf(a), v.iam);
  }

  lemma LastPassIs(digest: Digest, cfg: Config, v: Estate, ref: Ref, stamp: string, script: Script)
    requires Clean(script) && LastCallSa(cfg, v, ref)
    ensures Clean(Tail(script))
    ensures ReconcileSa(digest, cfg, v, ref, stamp, script)
         == LetGo(digest, cfg, v, ref, v.accounts[ref], stamp, Tail(script))
  {
    hide Clean, LetGo, IsEnabled, LegacyConfigured.OptedIn;
    CleanParts(script);
    LegacyConfigured.Keys(v.accounts[ref].annotations);
  }

  /** The last pass over a ServiceAccount, with its provider there and no faults: it lets go, its owner has no account
      and no identity left under the provider's key, and of the bindings exactly those are gone that the controller gave
      the owner's account in the slot of the policy recorded in the annotations, or of the policy annotated where none
      is recorded, and in the slot of the role annotated. */
  lemma LastPass(digest: Digest, cfg: Config, v: Estate, ref: Ref, stamp: string, script: Script, provider: Provider)
    requires InOrder(v.iam) && Clean(script) && LastCallSa(cfg, v, ref) && AsksToDelete(v.accounts[ref].annotations)
    requires !Blank(cfg.cluster) && Providers.OnlyOne(v.iam.providers, cfg.cluster, provider)
    requires NormalizeIssuer(provider.issuer) != "" && BuildSubject(ref.namespace, ref.name).Some?
    ensures var e := ReconcileSa(digest, cfg, v, ref, stamp, script);
            var a, o := v.accounts[ref].annotations, Owner(ref.namespace, ref.name);
            var key := KeyFor(digest, NormalizeIssuer(provider.issuer), o);
            && e.ok && e.requeue == No && DepartedSa(v, e.view, ref) && !Owned(e.view.iam, key, o)
            && Withdrawn(v.iam, e.view.iam, AccountOf(v.iam, key, o), LastPolicy(a), LegacyConfigured.RoleRef(a))
  {
    hide InOrder, Clean, Blank, Providers.OnlyOne, SelectProvider, NormalizeIssuer, BuildSubject, Exec, StartDelete,
      DeleteCloudOf, KeyFor, AccountOf, Owned, OnlyFor, Withdrawn, WriteSa, AsksToDelete, LastPolicy,
      DeletesResources, LastCallSa;
    Waits(cfg, v, ref);
    var a, o, issuer := v.accounts[ref].annotations, Owner(ref.namespace, ref.name), NormalizeIssuer(provider.issuer);
    Providers.SelectProviderIff(v.iam.providers, cfg.cluster, provider);
    Keys(a);
    LastPassIs(digest, cfg, v, ref, stamp, script);
    CleanCloudSa(digest, cfg, v, ref, a, Tail(script), provider);
    var gone := DeleteCloudOf(digest, cfg, v, ref, a, Tail(script));
    FreedSa(gone.view, ref, gone.rest);
    DeletionWithdraws(digest, o, issuer, LegacyConfigured.RoleRef(a), LastPolicy(a), v.iam);
    DeleteConcerns(digest, o, issuer, LegacyConfigured.RoleRef(a), LastPolicy(a), v.iam, []);
  }

  lemma Waits(cfg: Config, v: Estate, ref: Ref)
    requires LastCallSa(cfg, v, ref)
    ensures ref in v.accounts && FINALIZER in v.accounts[ref].finalizers
  {}

  /** Where the resources are to stay, the IAM service is left as it is. */
  lemma LastPassKeeps(digest: Digest, cfg: Config, v: Estate, ref: Ref, stamp: string, script: Script)
    requires Clean(script) && LastCallSa(cfg, v, ref) && !AsksToDelete(v.accounts[ref].annotations)
    ensures var e := ReconcileSa(digest, cfg, v, ref, stamp, script);
            e.ok && e.requeue == No && DepartedSa(v, e.view, ref) && e.view.iam == v.iam
  {
    hide Clean, WriteSa, AsksToDelete, DeletesResources, LastCallSa, DeleteCloudOf;
    Waits(cfg, v, ref);
    Keys(v.accounts[ref].annotations);
    LastPassIs(digest, cfg, v, ref, stamp, script);
    FreedSa(v, ref, Tail(script));
  }

  // ---- the first pass and the last

  /** What an account needs to be served without faults, all of it visible before the pass. */
  predicate CanBeServed(cfg: Config, v: Estate, ref: Ref) {
    LegacyTruth.ToServe(cfg, v, ref)
    && Provisionable(v.iam.providers, v.iam.directory, Wanted(cfg, ref, v.accounts[ref].annotations))
  }

  function Wanted(cfg: Config, ref: Ref, a: Annotations): EnsureInput {
    var r := LegacyTruth.ScopesOf(cfg, a);
    InputFrom(cfg, ref, a, if r.Parsed? then r.scopes else [])
  }

  /** Clean scripts of a status write. */
  lemma CleanPatch(v: Estate, ref: Ref, status: string, result: Option<EnsureResult>, stamp: string, script: Script)
    requires Clean(script) && ref in v.accounts && FINALIZER in v.accounts[ref].finalizers
    ensures var r := PatchSa(v, ref, status, "", result, stamp, script);
            var sa := v.accounts[ref];
            && r.ok && Clean(r.rest)
            && r.view == v.(accounts := v.accounts[
                              ref := sa.(annotations := Reported(sa.annotations, status, "", result, stamp))])
  {
    hide Clean, Reported;
    CleanParts(script);
    CleanParts(Tail(script));
  }

  lemma ServedPass(digest: Digest, cfg: Config, v: Estate, ref: Ref, stamp: string)
    requires CanBeServed(cfg, v, ref)
    ensures var e := ReconcileSa(digest, cfg, v, ref, stamp, []);
            var (p, s, _) := Exec(digest, StartEnsure(Wanted(cfg, ref, v.accounts[ref].annotations)), v.iam, []);
            var sa := v.accounts[ref];
            && p.Ensured? && e.ok && e.requeue == No
            && e.view == Estate(s, v.accounts[ref := sa.(annotations := AfterServing(sa.annotations, ResultOf(p.task),
                                                                                     stamp))])
  {
    hide Exec, StartEnsure, PatchSa, TrimSpace, Scopes.ParseText, IsEnabled, Config.Watches, ResultOf, Provisionable,
      Reported, Clean, InputFrom;
    Restoration.NoneIsClean();
    var want := Wanted(cfg, ref, v.accounts[ref].annotations);
    EnsureCompletesIff(digest, want, v.iam);
    CleanPatch(v, ref, PENDING, None, stamp, []);
    var pending := PatchSa(v, ref, PENDING, "", None, stamp, []);
    CleanExec(digest, StartEnsure(want), v.iam, pending.rest);
    var (p, s, rest) := Exec(digest, StartEnsure(want), v.iam, pending.rest);
    CleanPatch(pending.view.(iam := s), ref, Conditions.READY, Some(ResultOf(p.task)), stamp, rest);
    var sa := pending.view.accounts[ref];
    var b := AfterServing(v.accounts[ref].annotations, ResultOf(p.task), stamp);
    LastWord(v.accounts, ref, sa, sa.(annotations := b));
  }

  lemma LastWord(accounts: map<Ref, KubeAccount>, ref: Ref, a: KubeAccount, b: KubeAccount)
    ensures accounts[ref := a][ref := b] == accounts[ref := b]
  {}

  /** The annotations a pass that serves leaves: pending first, ready in the end. */
  function AfterServing(a: Annotations, r: EnsureResult, stamp: string): Annotations {
    Reported(Reported(a, PENDING, "", None, stamp), Conditions.READY, "", Some(r), stamp)
  }

  /** What the last pass reads off those. */
  lemma ReadAfterServing(a: Annotations, r: EnsureResult, stamp: string)
    ensures var b := AfterServing(a, r, stamp);
            && (AsksToDelete(b) <==> AsksToDelete(a))
            && LegacyConfigured.RoleRef(b) == LegacyConfigured.RoleRef(a)
            && LastPolicy(b) == if r.policy != "" then r.policy else LegacyConfigured.PolicyRef(a)
  {
    hide TrimSpace, EqualFold;
  }

  /** The texts the last pass takes trim to what the first one bound. */
  lemma PolicyFits(digest: Digest, cfg: Config, v: Estate, ref: Ref, scopes: seq<string>)
    requires InOrder(v.iam) && ref in v.accounts
    requires var want := InputFrom(cfg, ref, v.accounts[ref].annotations, scopes);
             && Exec(digest, StartEnsure(want), v.iam, []).0.Ensured?
             && (want.Ref(Policy) != "" ==> ReResolves(v.iam.directory, want.Ref(Policy)))
    ensures var a := v.accounts[ref].annotations;
            var want := InputFrom(cfg, ref, a, scopes);
            var policy := ResultOf(Exec(digest, StartEnsure(want), v.iam, []).0.task).policy;
            && TrimSpace(if policy != "" then policy else LegacyConfigured.PolicyRef(a)) == TrimSpace(policy)
            && TrimSpace(LegacyConfigured.RoleRef(a)) == want.Ref(Role)
  {
    hide Exec, TrimSpace, StartEnsure, Resolve, InOrder, BoundPolicy, Runs.Kinds, Runs.Wanted, InputFrom;
    var a := v.accounts[ref].annotations;
    var want := InputFrom(cfg, ref, a, scopes);
    LegacyConfigured.InputRefs(cfg, ref, a, scopes, Policy);
    LegacyConfigured.InputRefs(cfg, ref, a, scopes, Role);
    EmptyIsBlank();
    if want.Ref(Policy) != "" {
      Restoration.ReportedPolicy(digest, want, v.iam);
    }
  }

  /** The last pass over an account that only the controller held. */
  lemma FinalPass(digest: Digest, cfg: Config, v: Estate, ref: Ref, stamp: string, provider: Provider)
    requires cfg.Watches(ref.namespace) && ref in v.accounts
    requires v.accounts[ref].deleting && v.accounts[ref].finalizers == [FINALIZER]
    requires AsksToDelete(v.accounts[ref].annotations)
    requires !Blank(cfg.cluster) && BuildSubject(ref.namespace, ref.name).Some?
    requires SelectProvider(v.iam.providers, cfg.cluster) == OneProvider(provider)
             && NormalizeIssuer(provider.issuer) != ""
    ensures var a := v.accounts[ref].annotations;
            LegacyLeaks.Next(digest, cfg, v, LegacyLeaks.Pass(ref, stamp, []))
            == Estate(Exec(digest, StartDelete(digest, ref.namespace, ref.name, NormalizeIssuer(provider.issuer),
                                               LegacyConfigured.RoleRef(a), LastPolicy(a)), v.iam, []).1,
                      v.accounts - {ref})
  {
    hide Blank, Exec, StartDelete, SelectProvider, NormalizeIssuer, BuildSubject, DeleteCloudOf, LastPolicy,
      AsksToDelete, DeletesResources, LegacyConfigured.OptedIn, ReconcileSa;
    Restoration.NoneIsClean();
    Keys(v.accounts[ref].annotations);
    LastPassIs(digest, cfg, v, ref, stamp, []);
    CleanCloudSa(digest, cfg, v, ref, v.accounts[ref].annotations, [], provider);
    CleanParts(DeleteCloudOf(digest, cfg, v, ref, v.accounts[ref].annotations, []).rest);
    assert DropString([FINALIZER], FINALIZER) == [];
  }

  /** What the first pass bound and how the last one undoes it. */
  lemma Undone(digest: Digest, cfg: Config, v: Estate, ref: Ref, stamp: string)
    requires InOrder(v.iam) && CanBeServed(cfg, v, ref)
    requires forall k :: !Owned(v.iam, k, Owner(ref.namespace, ref.name))
    requires var want := Wanted(cfg, ref, v.accounts[ref].annotations);
             want.Ref(Policy) != "" ==> ReResolves(v.iam.directory, want.Ref(Policy))
    ensures var a := v.accounts[ref].annotations;
            var want := Wanted(cfg, ref, a);
            var (p, s, _) := Exec(digest, StartEnsure(want), v.iam, []);
            var provider := JobOf(digest, want, v.iam).provider;
            && p.Ensured? && !Blank(cfg.cluster) && BuildSubject(ref.namespace, ref.name).Some?
            && SelectProvider(s.providers, cfg.cluster) == OneProvider(provider)
            && NormalizeIssuer(provider.issuer) != ""
            && var b := AfterServing(a, ResultOf(p.task), stamp);
               var s2 := Exec(digest, StartDelete(digest, ref.namespace, ref.name, NormalizeIssuer(provider.issuer),
                                                  LegacyConfigured.RoleRef(b), LastPolicy(b)), s, []).1;
               SameResources(v.iam, s2)
  {
    hide InOrder, Exec, StartEnsure, StartDelete, SelectProvider, NormalizeIssuer, BuildSubject, ResourceKey,
      ReResolves, SameResources, TrimSpace, Ownership.Select, OwnershipLabels, Runs.Foreign, Ownership.Others,
      Ownership.GrantsOf, Ownership.Unmanaged, Runs.KeyFound, AfterServing, LastPolicy, Scopes.ParseText,
      LegacyTruth.ScopesOf, BoundPolicy;
    var a := v.accounts[ref].annotations;
    var want := Wanted(cfg, ref, a);
    var r := LegacyTruth.ScopesOf(cfg, a);
    var scopes := if r.Parsed? then r.scopes else [];
    EnsureCompletesIff(digest, want, v.iam);
    Quiescence.FirstCall(digest, want, v.iam, []);
    Sounds(v.iam);
    Runs.EnsureIsolated(digest, want, v.iam, []);
    Restoration.JobFacts(digest, want, v.iam);
    LegacyConfigured.InputRefs(cfg, ref, a, scopes, Policy);
    var j := JobOf(digest, want, v.iam);
    assert !Owned(v.iam, j.key, Owner(ref.namespace, ref.name));
    PolicyFits(digest, cfg, v, ref, scopes);
    var result := ResultOf(Exec(digest, StartEnsure(want), v.iam, []).0.task);
    ReadAfterServing(a, result, stamp);
    var b := AfterServing(a, result, stamp);
    DeleteUndoes(digest, want, v.iam, LegacyConfigured.RoleRef(b), LastPolicy(b));
  }

  /** Served, then deleted: from a store with nothing of the owner, one fault-free pass serves the account; deleted, one
      fault-free pass later it is gone and the store has every list it had. */
  lemma DeletionRestores(digest: Digest, cfg: Config, v: Estate, ref: Ref, stamp: string, later: string)
    requires InOrder(v.iam) && CanBeServed(cfg, v, ref) && v.accounts[ref].finalizers == [FINALIZER]
    requires AsksToDelete(v.accounts[ref].annotations)
    requires forall k :: !Owned(v.iam, k, Owner(ref.namespace, ref.name))
    requires var want := Wanted(cfg, ref, v.accounts[ref].annotations);
             want.Ref(Policy) != "" ==> ReResolves(v.iam.directory, want.Ref(Policy))
    ensures var v1 := LegacyLeaks.Next(digest, cfg, v, LegacyLeaks.Pass(ref, stamp, []));
            var v2 := LegacyLeaks.Next(digest, cfg, v1, LegacyLeaks.RequestDelete(ref));
            var v3 := LegacyLeaks.Next(digest, cfg, v2, LegacyLeaks.Pass(ref, later, []));
            && ref in v1.accounts && Get(v1.accounts[ref].annotations, "thalassa.cloud/wif.status") == "Ready"
            && v3.accounts == v.accounts - {ref} && SameResources(v.iam, v3.iam)
  {
    hide InOrder, Exec, StartEnsure, StartDelete, ReconcileSa, SameResources, ReResolves, Owned, Wanted,
      AsksToDelete, LastPolicy, ResultOf, Clean, AfterServing, SelectProvider, NormalizeIssuer, BuildSubject, Blank,
      Provisionable, IsEnabled, TrimSpace, LegacyTruth.ScopesOf, JobOf, Config.Watches;
    var sa := v.accounts[ref];
    var want := Wanted(cfg, ref, sa.annotations);
    var (p, s, _) := Exec(digest, StartEnsure(want), v.iam, []);
    ServedPass(digest, cfg, v, ref, stamp);
    Undone(digest, cfg, v, ref, stamp);
    var b := AfterServing(sa.annotations, ResultOf(p.task), stamp);
    ReadAfterServing(sa.annotations, ResultOf(p.task), stamp);
    Serving(sa.annotations, ResultOf(p.task), stamp);
    var v2 := Estate(s, v.accounts[ref := KubeAccount(b, [FINALIZER], true)]);
    FinalPass(digest, cfg, v2, ref, later, JobOf(digest, want, v.iam).provider);
    assert v2.accounts - {ref} == v.accounts - {ref};
    LastWord(v.accounts, ref, KubeAccount(b, [FINALIZER], false), KubeAccount(b, [FINALIZER], true));
  }

  lemma Serving(a: Annotations, r: EnsureResult, stamp: string)
    ensures Get(AfterServing(a, r, stamp), "thalassa.cloud/wif.status") == "Ready"
  {}
}
