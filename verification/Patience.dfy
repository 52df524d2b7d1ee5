/** What the controllers do not try again, because only the user can help, and what they wait for. */
module Patience {
  import opened Strings
  import opened Subject
  import opened Store
  import opened Protocol
  import opened Conditions
  import opened Kube
  import opened Reconcile
  import opened Recovery
  import opened Diligence
  import Legacy
  import LegacyConfigured
  import LegacyDiligence
  import LegacyTruth
  import Providers
  import Requirements
  import Scopes

  // ---- bindings

  /** A watched object that stays and that the controller holds. */
  predicate Held(cfg: Config, c: Cluster, ref: Ref) {
    && ref in c.objects && Watched(cfg, ref.namespace)
    && !c.objects[ref].deleting && FINALIZER in c.objects[ref].finalizers
  }

  /** Only the status of this object changes. */
  predicate OnlyStatus(c: Cluster, c': Cluster, ref: Ref)
    requires ref in c.objects
  {
    && c'.iam == c.iam && c'.accounts == c.accounts && c'.configMaps == c.configMaps
    && ref in c'.objects && c'.objects == c.objects[ref := c.objects[ref].(status := c'.objects[ref].status)]
  }

  /** The status has this phase, as of this generation, and the identities of before. */
  predicate Noticed(c: Cluster, c': Cluster, ref: Ref, phase: string)
    requires ref in c.objects
  {
    && ref in c'.objects && c'.objects[ref].status.phase == phase
    && c'.objects[ref].status.observedGeneration == c.objects[ref].generation
    && var had, st := c.objects[ref].status, c'.objects[ref].status;
       && st.account == had.account && st.identity == had.identity && st.provider == had.provider
       && st.policy == had.policy && st.organisation == had.organisation && st.project == had.project
  }

  lemma Finish(c: Cluster, ref: Ref, obs: Observation, now: Time, script: Script)
    requires ref in c.objects
    ensures var a := PatchStatus(c, ref, obs, now, script);
            && OnlyStatus(c, a.cluster, ref)
            && (Clean(script) ==> a.ok && (obs.account == "" ==> Noticed(c, a.cluster, ref, obs.phase)))
    ensures OnlyStatus(c, c, ref)
  {
    hide Clean, WithReady;
    if Clean(script) {
      CleanParts(script);
      CleanParts(Tail(script));
    }
    assert c.objects == c.objects[ref := c.objects[ref].(status := c.objects[ref].status)];
  }

  lemma HopelessStops(digest: Digest, cfg: Config, c: Cluster, ref: Ref, w: Wib, script: Script)
    requires Watched(cfg, ref.namespace) && !w.deleting && FINALIZER in w.finalizers && Hopeless(cfg, c, ref, w.spec)
    ensures var t := ReconcileBinding(digest, cfg, c, ref, w, script);
            && t.cluster == c && t.requeue == No
            && (t.seen.Some? ==> t.seen.value.account == "" && t.seen.value.phase == "Error")
            && (Clean(script) ==> Clean(t.rest) && t.ok && t.seen.Some?)
  {
    hide Release, Claim, Provision, ValidDesired, BadSpec, BadScopes, Scopes.Canonical, Words, Clean;
    if Clean(script) { CleanParts(script); }
    BadSpecIff(ref.namespace, w.spec);
    BadScopesIff(cfg.known, w.spec.scopes);
  }

  /** What only the user can help is not tried: whatever happens, nothing but the status may change, and there is no
      wish to run again. Without faults no error is returned; the status tells it, as of this generation, and keeps the
      identities of before. */
  lemma HopelessIsFinal(digest: Digest, cfg: Config, c: Cluster, ref: Ref, now: Time, script: Script)
    requires Held(cfg, c, ref) && Hopeless(cfg, c, ref, c.objects[ref].spec)
    ensures var t := Reconcile.Reconcile(digest, cfg, c, ref, now, script);
            && OnlyStatus(c, t.cluster, ref) && t.requeue == No
            && (Clean(script) ==> t.ok && Noticed(c, t.cluster, ref, "Error"))
  {
    hide ReconcileBinding, Hopeless, PatchStatus, Clean, OnlyStatus, Noticed;
    if Clean(script) { CleanParts(script); }
    var t := ReconcileBinding(digest, cfg, c, ref, c.objects[ref], Tail(script));
    HopelessStops(digest, cfg, c, ref, c.objects[ref], Tail(script));
    Finish(c, ref, if t.seen.Some? then t.seen.value else Unready("", ""), now, t.rest);
  }

  lemma UnprovidedEnsure(digest: Digest, want: EnsureInput, s: State, script: Script)
    requires forall i | 0 <= i < |s.providers| :: !Providers.Carries(s.providers[i], want.cluster)
    ensures var (p, s', rest) := Exec(digest, StartEnsure(want), s, script);
            && s' == s && p.Stopped? && (want.Valid() && Head(script) == Ok ==> p == Stopped(ProviderNotReady))
            && (Clean(script) ==> Clean(rest))
  {
    hide Exec, Providers.Carries, StartEnsure, Clean, TrimSpace;
    Providers.EnsureNeedsOneProvider(digest, want, s, script);
    if Clean(script) { CleanExec(digest, StartEnsure(want), s, script); }
    assert !Providers.Two(s.providers, want.cluster);
  }

  /** Nothing else is missing. */
  predicate OnlyUnprovided(cfg: Config, c: Cluster, ref: Ref, spec: Spec) {
    !Hopeless(cfg, c, ref, spec) && TrimSpace(cfg.cluster) != "" && cfg.audiences != []
  }

  lemma UnprovidedProvision(digest: Digest, cfg: Config, c: Cluster, ref: Ref, spec: Spec, scopes: seq<string>,
                            script: Script)
    requires Unprovided(cfg, c)
    ensures var t := Provision(digest, cfg, c, ref, spec, scopes, script);
            && t.cluster == c && t.requeue != Now && t.seen.Some? && t.seen.value.account == ""
            && (Clean(script) ==> Clean(t.rest))
            && (Clean(script) && InputOf(cfg, ref.namespace, spec, scopes).Valid() ==>
                  t.ok && t.requeue == Later && t.seen.value.phase == "Pending")
  {
    hide Exec, StartEnsure, Publish, Clean, Providers.Carries, TrimSpace;
    if Clean(script) { CleanParts(script); }
    UnprovidedEnsure(digest, InputOf(cfg, ref.namespace, spec, scopes), c.iam, script);
  }

  lemma InputIsValid(cfg: Config, c: Cluster, ref: Ref, spec: Spec)
    requires OnlyUnprovided(cfg, c, ref, spec)
    ensures var r := Scopes.Canonical(cfg.known, Words(spec.scopes));
            r.Parsed? && InputOf(cfg, ref.namespace, spec, r.scopes).Valid()
  {
    hide Scopes.Canonical, Words, BadScopes, TrimSpace;
    BadScopesIff(cfg.known, spec.scopes);
    Requirements.SomeScope(cfg.known, Words(spec.scopes));
  }

  lemma UnprovidedStops(digest: Digest, cfg: Config, c: Cluster, ref: Ref, w: Wib, script: Script)
    requires Watched(cfg, ref.namespace) && !w.deleting && FINALIZER in w.finalizers && Unprovided(cfg, c)
    ensures var t := ReconcileBinding(digest, cfg, c, ref, w, script);
            && t.cluster == c && (t.seen.Some? ==> t.seen.value.account == "")
            && (Clean(script) && OnlyUnprovided(cfg, c, ref, w.spec) ==>
                  Clean(t.rest) && t.ok && t.requeue == Later && t.seen.Some? && t.seen.value.phase == "Pending")
  {
    hide Release, Claim, Provision, ValidDesired, Scopes.Canonical, Words, Clean, BadScopes, BadSpec, Unprovided,
      TrimSpace, EnsureInput.Valid;
    if Clean(script) { CleanParts(script); }
    BadSpecIff(ref.namespace, w.spec);
    var r := Scopes.Canonical(cfg.known, Words(w.spec.scopes));
    if OnlyUnprovided(cfg, c, ref, w.spec) { InputIsValid(cfg, c, ref, w.spec); }
    if r.Parsed? { UnprovidedProvision(digest, cfg, c, ref, w.spec, r.scopes, Tail(script)); }
  }

  /** Without a provider a held binding that stays is not touched but for its status, whatever happens; without faults,
      and with nothing else missing, it is pending, there is no error, and it is tried again later. */
  lemma WaitsForProvider(digest: Digest, cfg: Config, c: Cluster, ref: Ref, now: Time, script: Script)
    requires Held(cfg, c, ref) && Unprovided(cfg, c)
    ensures var t := Reconcile.Reconcile(digest, cfg, c, ref, now, script);
            && OnlyStatus(c, t.cluster, ref)
            && (Clean(script) && OnlyUnprovided(cfg, c, ref, c.objects[ref].spec) ==>
                  t.ok && t.requeue == Later && Noticed(c, t.cluster, ref, "Pending"))
  {
    hide ReconcileBinding, OnlyUnprovided, Unprovided, PatchStatus, Clean, OnlyStatus, Noticed;
    if Clean(script) { CleanParts(script); }
    var t := ReconcileBinding(digest, cfg, c, ref, c.objects[ref], Tail(script));
    UnprovidedStops(digest, cfg, c, ref, c.objects[ref], Tail(script));
    Finish(c, ref, if t.seen.Some? then t.seen.value else Unready("", ""), now, t.rest);
  }

  // ---- annotated ServiceAccounts

  /** The same of an account whose annotations only the user can mend. */
  lemma UnusableIsFinal(digest: Digest, cfg: Config, v: Legacy.Estate, ref: Ref, stamp: string, script: Script)
    requires ref in v.accounts && LegacyDiligence.HeldAndWatched(cfg, v, ref)
    requires !LegacyDiligence.Leaving(v.accounts[ref]) && LegacyDiligence.Unusable(cfg, v.accounts[ref].annotations)
    ensures var e := Legacy.ReconcileSa(digest, cfg, v, ref, stamp, script);
            && e.view.iam == v.iam && e.requeue == No && (Head(script) == Ok ==> e.ok)
  {
    hide LegacyDiligence.Unusable, Legacy.Provide, Legacy.PatchSa, TrimSpace, Scopes.ParseText, Legacy.IsEnabled,
      LegacyConfigured.OptedIn;
    LegacyConfigured.Keys(v.accounts[ref].annotations);
    LegacyDiligence.FitIff(cfg, v, ref);
    var rest := Tail(script);
    LegacyConfigured.PatchKeepsStore(v, ref, ERROR, "MissingReference", None, stamp, rest);
    LegacyConfigured.PatchKeepsStore(v, ref, ERROR, "Wildcard", None, stamp, rest);
    LegacyConfigured.PatchKeepsStore(v, ref, ERROR, "InvalidScopes", None, stamp, rest);
  }

  /** And of one that waits for a provider. */
  lemma AccountWaitsForProvider(digest: Digest, cfg: Config, v: Legacy.Estate, ref: Ref, stamp: string,
                                script: Script)
    requires LegacyTruth.ToServe(cfg, v, ref) && LegacyDiligence.Unprovided(cfg, v)
    ensures var e := Legacy.ReconcileSa(digest, cfg, v, ref, stamp, script);
            && e.view.iam == v.iam
            && (Clean(script) && OnlyProviderMissing(cfg, ref) ==> e.ok && e.requeue == Later)
  {
    hide Legacy.Provide, TrimSpace, Scopes.ParseText, Legacy.IsEnabled, Clean, LegacyDiligence.Unprovided;
    if Clean(script) { CleanParts(script); }
    var a := v.accounts[ref].annotations;
    var scopes := LegacyTruth.ScopesOf(cfg, a).scopes;
    LegacyDiligence.TextGivesSome(cfg.known, Get(a, Legacy.SCOPES));
    UnprovidedServe(digest, cfg, v, ref, scopes, stamp, Tail(script));
  }

  predicate OnlyProviderMissing(cfg: Config, ref: Ref) {
    TrimSpace(ref.namespace) != "" && TrimSpace(ref.name) != "" && TrimSpace(cfg.cluster) != "" && cfg.audiences != []
  }

  lemma UnprovidedServe(digest: Digest, cfg: Config, v: Legacy.Estate, ref: Ref, scopes: seq<string>, stamp: string,
                        script: Script)
    requires LegacyTruth.ToServe(cfg, v, ref) && LegacyDiligence.Unprovided(cfg, v) && scopes != []
    ensures var e := Legacy.Provide(digest, cfg, v, ref, v.accounts[ref], scopes, stamp, script);
            && e.view.iam == v.iam
            && (Clean(script) && OnlyProviderMissing(cfg, ref) ==> e.ok && e.requeue == Later)
  {
    hide Exec, StartEnsure, Legacy.PatchSa, Clean, Providers.Carries, TrimSpace, Scopes.ParseText, Legacy.IsEnabled;
    var a := v.accounts[ref].annotations;
    LegacyConfigured.PatchKeepsStore(v, ref, PENDING, "", None, stamp, script);
    var pending := Legacy.PatchSa(v, ref, PENDING, "", None, stamp, script);
    var want := Legacy.InputFrom(cfg, ref, a, scopes);
    if Clean(script) {
      LegacyDiligence.StaysClean(v, ref, stamp, script);
      CleanParts(pending.rest);
    }
    TrimTwice(Get(a, Legacy.ROLE));
    TrimTwice(Get(a, Legacy.POLICY));
    UnprovidedEnsure(digest, want, v.iam, pending.rest);
    var (p, s, rest) := Exec(digest, StartEnsure(want), v.iam, pending.rest);
    LegacyConfigured.PatchKeepsStore(pending.view, ref, PENDING, "ProviderNotReady", None, stamp, rest);
    LegacyConfigured.PatchKeepsStore(pending.view, ref, ERROR, "EnsureFailed", None, stamp, rest);
  }
}
