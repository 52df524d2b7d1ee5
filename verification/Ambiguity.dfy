/** Two providers that carry the cluster's label: neither controller picks one, and neither lets go of what it would
    have to clean up first. */
module Ambiguity {
  import opened Strings
  import opened Subject
  import opened Store
  import opened Protocol
  import opened Conditions
  import opened Kube
  import opened Reconcile
  import Departure
  import Legacy
  import LegacyConfigured
  import LegacyDeparture
  import Providers
  import Scopes

  lemma DeleteStops(digest: Digest, cfg: Config, c: Cluster, namespace: string, spec: Spec, policy: string,
                    script: Script)
    requires Providers.Two(c.iam.providers, cfg.cluster)
    ensures var a := DeleteCloud(digest, cfg, c, namespace, spec, policy, script); !a.ok && a.cluster == c
  {
    hide SelectProvider, Blank, Providers.Two, Exec, StartDelete;
    Providers.SelectProviderIff(c.iam.providers, cfg.cluster, Provider("", "", map[]));
  }

  lemma ReleaseStops(digest: Digest, cfg: Config, c: Cluster, ref: Ref, w: Wib, script: Script)
    requires Providers.Two(c.iam.providers, cfg.cluster)
    ensures var t := Release(digest, cfg, c, ref, w, script);
            && t.cluster.iam == c.iam
            && (w.spec.deleteResources && FINALIZER in w.finalizers ==> !t.ok && t.cluster.objects == c.objects)
  {
    hide ClearAnnotations, DeleteCloud, DropString, Stored, Providers.Two;
    var at := Ref(ref.namespace, w.spec.serviceAccount);
    ClearTouches(c, at, script);
    var cleared := ClearAnnotations(c, at, script);
    DeleteStops(digest, cfg, cleared.cluster, ref.namespace, w.spec, w.status.policy, cleared.rest);
  }

  lemma EnsureStops(digest: Digest, cfg: Config, c: Cluster, ref: Ref, spec: Spec, scopes: seq<string>,
                    script: Script)
    requires Providers.Two(c.iam.providers, cfg.cluster)
    ensures var t := Provision(digest, cfg, c, ref, spec, scopes, script); t.cluster == c && !t.ok
  {
    hide Exec, StartEnsure, Providers.Two, Publish;
    var want := InputOf(cfg, ref.namespace, spec, scopes);
    Providers.EnsureNeedsOneProvider(digest, want, c.iam, script);
    NotWaiting(digest, want, c.iam, script);
  }

  lemma NotWaiting(digest: Digest, want: EnsureInput, s: State, script: Script)
    requires Providers.Two(s.providers, want.cluster)
    ensures Exec(digest, StartEnsure(want), s, script).0 != Stopped(ProviderNotReady)
  {
    hide SelectProvider, Providers.Two, TrimSpace;
    Providers.SelectProviderIff(s.providers, want.cluster, Provider("", "", map[]));
  }

  lemma BindingStops(digest: Digest, cfg: Config, c: Cluster, ref: Ref, w: Wib, script: Script)
    requires Providers.Two(c.iam.providers, cfg.cluster)
    ensures ReconcileBinding(digest, cfg, c, ref, w, script).cluster.iam == c.iam
    ensures w.deleting && w.spec.deleteResources && FINALIZER in w.finalizers ==>
              ReconcileBinding(digest, cfg, c, ref, w, script).cluster.objects == c.objects
              && !ReconcileBinding(digest, cfg, c, ref, w, script).ok
  {
    hide Release, Provision, ValidDesired, Scopes.Canonical, Words, Providers.Two, Config.Watches, Stored;
    ReleaseStops(digest, cfg, c, ref, w, script);
    var r := Scopes.Canonical(cfg.known, Words(w.spec.scopes));
    if r.Parsed? { EnsureStops(digest, cfg, c, ref, w.spec, r.scopes, Tail(script)); }
  }

  /** Two providers for the cluster: whatever happens, a reconcile of a binding leaves the IAM service as it is, and one
      that is to be deleted with its resources keeps its finalizer and an error is returned. */
  lemma BindingWaitsForOne(digest: Digest, cfg: Config, c: Cluster, ref: Ref, now: Time, script: Script)
    requires Providers.Two(c.iam.providers, cfg.cluster)
    ensures var t := Reconcile.Reconcile(digest, cfg, c, ref, now, script);
            && t.cluster.iam == c.iam
            && (Departure.LastCall(cfg, c, ref) && c.objects[ref].spec.deleteResources ==>
                  && !t.ok && ref in t.cluster.objects
                  && t.cluster.objects[ref].finalizers == c.objects[ref].finalizers)
  {
    hide ReconcileBinding, StatusWith, Providers.Two;
    if ref in c.objects { BindingStops(digest, cfg, c, ref, c.objects[ref], Tail(script)); }
  }

  lemma ServingStops(digest: Digest, cfg: Config, v: Legacy.Estate, ref: Ref, sa: Legacy.KubeAccount,
                     scopes: seq<string>, stamp: string, script: Script)
    requires Providers.Two(v.iam.providers, cfg.cluster)
    ensures Legacy.Provide(digest, cfg, v, ref, sa, scopes, stamp, script).view.iam == v.iam
  {
    hide Exec, StartEnsure, Providers.Two, Legacy.PatchSa, Legacy.InputFrom, TrimSpace;
    LegacyConfigured.PatchKeepsStore(v, ref, PENDING, "", None, stamp, script);
    var pending := Legacy.PatchSa(v, ref, PENDING, "", None, stamp, script);
    var want := Legacy.InputFrom(cfg, ref, sa.annotations, scopes);
    SameCluster(cfg, ref, sa.annotations, scopes);
    Providers.EnsureNeedsOneProvider(digest, want, v.iam, pending.rest);
    var (p, s, rest) := Exec(digest, StartEnsure(want), v.iam, pending.rest);
    var v' := pending.view.(iam := s);
    LegacyConfigured.PatchKeepsStore(v', ref, PENDING, "ProviderNotReady", None, stamp, rest);
    LegacyConfigured.PatchKeepsStore(v', ref, ERROR, "EnsureFailed", None, stamp, rest);
  }

  lemma SameCluster(cfg: Config, ref: Ref, a: Annotations, scopes: seq<string>)
    ensures Legacy.InputFrom(cfg, ref, a, scopes).cluster == cfg.cluster
  {}

  /** The same of the annotation controller. */
  lemma AccountWaitsForOne(digest: Digest, cfg: Config, v: Legacy.Estate, ref: Ref, stamp: string, script: Script)
    requires Providers.Two(v.iam.providers, cfg.cluster)
    ensures var e := Legacy.ReconcileSa(digest, cfg, v, ref, stamp, script);
            && e.view.iam == v.iam
            && (LegacyDeparture.LastCallSa(cfg, v, ref)
                && LegacyDeparture.AsksToDelete(v.accounts[ref].annotations) ==>
                  && !e.ok && ref in e.view.accounts
                  && e.view.accounts[ref].finalizers == v.accounts[ref].finalizers)
  {
    hide Providers.Two, Legacy.Provide, Legacy.PatchSa, Legacy.DeleteCloudOf, TrimSpace, Scopes.ParseText,
      Legacy.IsEnabled, LegacyConfigured.OptedIn, LegacyDeparture.AsksToDelete, Legacy.DeletesResources, DropString;
    if ref in v.accounts {
      var sa, rest := v.accounts[ref], Tail(script);
      LegacyDeparture.Keys(sa.annotations);
      CloudOfStops(digest, cfg, v, ref, sa.annotations, rest);
      var r := Scopes.ParseText(cfg.known, Get(sa.annotations, Legacy.SCOPES));
      if r.Parsed? { ServingStops(digest, cfg, v, ref, sa, r.scopes, stamp, rest); }
      LegacyConfigured.PatchKeepsStore(v, ref, ERROR, "MissingReference", None, stamp, rest);
      LegacyConfigured.PatchKeepsStore(v, ref, ERROR, "Wildcard", None, stamp, rest);
      LegacyConfigured.PatchKeepsStore(v, ref, ERROR, "InvalidScopes", None, stamp, rest);
      var gone := Legacy.DeleteCloudOf(digest, cfg, v, ref, sa.annotations, rest);
      LegacyConfigured.PatchKeepsStore(gone.view, ref, ERROR, "DeleteFailed", None, stamp, gone.rest);
      if FINALIZER in sa.finalizers { ToldKeepsFinalizers(gone.view, ref, ERROR, "DeleteFailed", stamp, gone.rest); }
    }
  }

  lemma CloudOfStops(digest: Digest, cfg: Config, v: Legacy.Estate, ref: Ref, a: Annotations, script: Script)
    requires Providers.Two(v.iam.providers, cfg.cluster)
    ensures var r := Legacy.DeleteCloudOf(digest, cfg, v, ref, a, script); !r.ok && r.view == v
  {
    hide SelectProvider, Blank, Providers.Two, Exec, StartDelete;
    Providers.SelectProviderIff(v.iam.providers, cfg.cluster, Provider("", "", map[]));
  }

  lemma ToldKeepsFinalizers(v: Legacy.Estate, ref: Ref, status: string, error: string, stamp: string, script: Script)
    requires ref in v.accounts && FINALIZER in v.accounts[ref].finalizers
    ensures var r := Legacy.PatchSa(v, ref, status, error, None, stamp, script);
            ref in r.view.accounts && r.view.accounts[ref].finalizers == v.accounts[ref].finalizers
  {
    hide Legacy.Reported;
  }
}
