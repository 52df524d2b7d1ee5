/** A reconcile of a binding that ends without wanting to run again has nothing left to do; what it leaves alone; and
    what its reasons mean. */
module Diligence {
  import opened Strings
  import opened Subject
  import opened Store
  import opened Protocol
  import opened Conditions
  import opened Kube
  import opened Reconcile
  import opened History
  import opened Recovery
  import Providers
  import Scopes

  // ---- what stands in the way, in the user's terms

  predicate Watched(cfg: Config, namespace: string) {
    cfg.watch == [] || namespace in cfg.watch
  }

  /** The spec names no account, no reference, or everything. */
  predicate BadSpec(namespace: string, spec: Spec) {
    || TrimSpace(namespace) == "" || TrimSpace(spec.serviceAccount) == ""
    || (TrimSpace(spec.policyRef) == "" && TrimSpace(spec.roleRef) == "")
    || TrimSpace(spec.policyRef) == "*" || TrimSpace(spec.roleRef) == "*"
  }

  /** A scope is given that is not known, or that stands for all. */
  predicate BadScopes(known: set<string>, words: seq<string>) {
    exists i | 0 <= i < |words| ::
      TrimSpace(words[i]) != "" && (TrimSpace(words[i]) == "*" || TrimSpace(words[i]) !in known)
  }

  lemma BadScopesIff(known: set<string>, words: seq<string>)
    ensures Scopes.Canonical(known, Words(words)).Parsed? <==> !BadScopes(known, words)
  {
    hide TrimSpace, Words;
    Scopes.FirstBadNone(known, Words(words));
    forall w
      ensures w in Words(words) <==> exists i | 0 <= i < |words| :: !Blank(words[i]) && w == TrimSpace(words[i])
    {
      WordsIff(words, w);
    }
    if BadScopes(known, words) {
      var i :| 0 <= i < |words| && TrimSpace(words[i]) != ""
               && (TrimSpace(words[i]) == "*" || TrimSpace(words[i]) !in known);
      assert !Blank(words[i]) && TrimSpace(words[i]) in Words(words);
    }
  }

  /** Only the user can help: the spec, the scopes or the missing ServiceAccount stand in the way. */
  predicate Hopeless(cfg: Config, c: Cluster, ref: Ref, spec: Spec) {
    || BadSpec(ref.namespace, spec) || BadScopes(cfg.known, spec.scopes)
    || Ref(ref.namespace, spec.serviceAccount) !in c.accounts
  }

  /** No provider carries the cluster's label. */
  predicate Unprovided(cfg: Config, c: Cluster) {
    forall i | 0 <= i < |c.iam.providers| :: !Providers.Carries(c.iam.providers[i], cfg.cluster)
  }

  // ---- one reconcile, by what it observes

  lemma NotReadyIsUnprovided(digest: Digest, want: EnsureInput, s: State, script: Script)
    requires Exec(digest, StartEnsure(want), s, script).0 == Stopped(ProviderNotReady)
    ensures forall i | 0 <= i < |s.providers| :: !Providers.Carries(s.providers[i], want.cluster)
  {
    hide Exec, TrimSpace, SelectProvider, Providers.Carries, NormalizeIssuer, BuildSubject, ResourceKey;
    if want.Valid() {
      ExecStep(digest, FindProvider(want), s, script);
      var choice := SelectProvider(s.providers, want.cluster);
      Providers.SelectProviderIff(s.providers, want.cluster, Provider("", "", map[]));
      var p := Step(digest, FindProvider(want), s, Head(script)).0;
      if Terminal(p) {
        ExecEnd(digest, p, s, Tail(script));
      } else {
        LaterIsOther(digest, p, s, Tail(script));
      }
    } else {
      ExecEnd(digest, Stopped(Invalid), s, script);
    }
  }

  /** Only the first call can find that there is no provider. */
  lemma {:induction false} LaterIsOther(digest: Digest, p: Position, s: State, script: Script)
    requires !p.FindProvider? && p != Stopped(ProviderNotReady)
    ensures Exec(digest, p, s, script).0 != Stopped(ProviderNotReady)
    decreases Stage(p), Left(p)
  {
    hide Step;
    if !Terminal(p) {
      var (p', s') := Step(digest, p, s, Head(script));
      StageDrops(digest, p, s, Head(script));
      OtherErrors(digest, p, s, Head(script));
      LaterIsOther(digest, p', s', Tail(script));
    }
  }

  lemma OtherErrors(digest: Digest, p: Position, s: State, o: Outcome)
    requires !Terminal(p) && !p.FindProvider?
    ensures var p' := Step(digest, p, s, o).0; !p'.FindProvider? && p' != Stopped(ProviderNotReady)
  {
    hide Perform, Request, LabelsMatch, OwnershipLabels, TrimSpace, Find, Pick, NeedsUpdate, AnyGrantsTo, Removable;
  }

  /** The controller's finalizer is added to those there are. */
  predicate Claimed(c: Cluster, ref: Ref, had: seq<string>) {
    ref in c.objects && c.objects[ref].finalizers == had + ["thalassa.cloud/wif-finalizer"]
  }

  /** What each reason says: to the user what is wrong, to the operator what failed. */
  predicate ReasonTells(cfg: Config, c: Cluster, ref: Ref, w: Wib, t: Turn) {
    if t.seen.None? then t.requeue == No
    else
      var o := t.seen.value;
      && (t.requeue == Now <==> o.reason == "FinalizerAdded")
      && (t.requeue == Later <==> o.reason == "ProviderNotReady")
      && (o.ready <==> o.phase == "Ready") && (o.ready <==> o.reason == "Ready")
      && (o.phase == "Pending" <==> o.reason == "FinalizerAdded" || o.reason == "ProviderNotReady")
      && (!o.ready && o.phase != "Pending" ==> o.phase == "Error")
      && match o.reason
         case "Ready" => t.ok
         case "FinalizerAdded" => t.ok && Claimed(t.cluster, ref, w.finalizers)
         case "ProviderNotReady" => t.ok && Unprovided(cfg, c)
         case "InvalidSpec" => t.ok && BadSpec(ref.namespace, w.spec)
         case "InvalidScopes" => t.ok && BadScopes(cfg.known, w.spec.scopes)
         case "ServiceAccountNotFound" => t.ok && Ref(ref.namespace, w.spec.serviceAccount) !in c.accounts
         case "NamespaceNotWatched" => t.ok && !Watched(cfg, ref.namespace)
         case _ => !t.ok
  }

  lemma ReleaseTells(digest: Digest, cfg: Config, c: Cluster, ref: Ref, w: Wib, script: Script)
    ensures var t := Release(digest, cfg, c, ref, w, script);
            && t.requeue == No && (t.seen.Some? ==>
                 && !t.ok && t.seen.value.phase == "Error" && !t.seen.value.ready
                 && t.seen.value.reason in {"CleanupFailed", "DeleteFailed"})
            && (t.seen.None? && t.ok && FINALIZER in w.finalizers ==>
                  ref in t.cluster.objects ==> FINALIZER !in t.cluster.objects[ref].finalizers)
  {
    hide ClearAnnotations, DeleteCloud;
    DropStringFacts(w.finalizers, FINALIZER);
  }

  lemma PublishTells(cfg: Config, c: Cluster, ref: Ref, spec: Spec, r: EnsureResult, script: Script)
    ensures var t := Publish(cfg, c, ref, spec, r, script);
            && t.requeue == No && t.seen.Some?
            && var o := t.seen.value;
               && (o.ready <==> o.phase == "Ready") && (o.ready <==> o.reason == "Ready") && (o.ready <==> t.ok)
               && (!o.ready ==> o.phase == "Error"
                                && o.reason in {"IdentityConfigMapFailed", "ServiceAccountAnnotateFailed"})
  {
    hide SyncConfigMap, Annotate;
  }

  lemma ProvisionTells(digest: Digest, cfg: Config, c: Cluster, ref: Ref, spec: Spec, scopes: seq<string>,
                       script: Script)
    ensures var t := Provision(digest, cfg, c, ref, spec, scopes, script);
            && t.seen.Some? && t.requeue != Now
            && var o := t.seen.value;
               && (o.ready <==> o.phase == "Ready") && (o.ready <==> o.reason == "Ready")
               && (o.reason == "ProviderNotReady" <==> t.requeue == Later) && (o.ready ==> t.ok)
               && (o.reason == "ProviderNotReady" ==> t.ok && o.phase == "Pending" && Unprovided(cfg, c))
               && (!o.ready && o.reason != "ProviderNotReady" ==>
                     !t.ok && o.phase == "Error"
                     && o.reason in {"EnsureFailed", "IdentityConfigMapFailed", "ServiceAccountAnnotateFailed"})
  {
    hide Exec, StartEnsure, Publish, Providers.Carries;
    var want := InputOf(cfg, ref.namespace, spec, scopes);
    var (p, s, rest) := Exec(digest, StartEnsure(want), c.iam, script);
    if p.Ensured? {
      PublishTells(cfg, c.(iam := s), ref, spec, ResultOf(p.task), rest);
    } else if p == Stopped(ProviderNotReady) {
      NotReadyIsUnprovided(digest, want, c.iam, script);
    }
  }

  lemma BadSpecIff(namespace: string, spec: Spec)
    ensures ValidDesired(namespace, spec) <==> !BadSpec(namespace, spec)
  {
    hide TrimSpace;
  }

  /** Whatever a reconcile of a binding observes, through whatever faults, its reason, its phase, its error and its wish
      to run again say the same, and the cause named is there. */
  lemma ReasonsTell(digest: Digest, cfg: Config, c: Cluster, ref: Ref, w: Wib, script: Script)
    ensures ReasonTells(cfg, c, ref, w, ReconcileBinding(digest, cfg, c, ref, w, script))
  {
    hide Release, Provision, ValidDesired, BadSpec, BadScopes, Scopes.Canonical, Words, Unprovided, Claim, Claimed;
    if w.deleting {
      ReleaseTells(digest, cfg, c, ref, w, script);
    } else if FINALIZER !in w.finalizers {
      ClaimTells(c, ref, w, script);
    } else {
      HeldTells(digest, cfg, c, ref, w, script);
    }
  }

  lemma HeldTells(digest: Digest, cfg: Config, c: Cluster, ref: Ref, w: Wib, script: Script)
    requires !w.deleting && FINALIZER in w.finalizers
    ensures ReasonTells(cfg, c, ref, w, ReconcileBinding(digest, cfg, c, ref, w, script))
  {
    hide Release, Provision, ValidDesired, BadSpec, BadScopes, Scopes.Canonical, Words, Unprovided, Claim, Claimed;
    BadSpecIff(ref.namespace, w.spec);
    BadScopesIff(cfg.known, w.spec.scopes);
    var r := Scopes.Canonical(cfg.known, Words(w.spec.scopes));
    if r.Parsed? { ProvisionTells(digest, cfg, c, ref, w.spec, r.scopes, Tail(script)); }
  }

  lemma ClaimTells(c: Cluster, ref: Ref, w: Wib, script: Script)
    ensures var t := Claim(c, ref, w, script);
            && (t.seen.Some? <==> t.ok) && (t.requeue == if t.ok then Now else No)
            && (t.ok ==>
                  && t.seen.value.reason == "FinalizerAdded" && t.seen.value.phase == "Pending" && !t.seen.value.ready
                  && Claimed(t.cluster, ref, w.finalizers))
  {}

  // ---- nothing is forgotten

  /** A reconcile that ends well and does not ask to run again: the object is gone or let go, or it observed ready or
      what only the user can help. */
  lemma BindingDone(digest: Digest, cfg: Config, c: Cluster, ref: Ref, w: Wib, script: Script)
    requires Watched(cfg, ref.namespace)
    requires var t := ReconcileBinding(digest, cfg, c, ref, w, script); t.ok && t.requeue == No
    ensures var t := ReconcileBinding(digest, cfg, c, ref, w, script);
            if w.deleting then
              t.seen.None? && (ref in t.cluster.objects && FINALIZER in t.cluster.objects[ref].finalizers ==>
                                 t.cluster == c && FINALIZER !in w.finalizers)
            else
              t.seen.Some? && (t.seen.value.ready || (Hopeless(cfg, c, ref, w.spec) && t.seen.value.phase == "Error"))
  {
    hide Release, Provision, BadSpec, BadScopes, ValidDesired, Scopes.Canonical, Words, Unprovided, Claim;
    ReasonsTell(digest, cfg, c, ref, w, script);
    ReleaseTells(digest, cfg, c, ref, w, script);
    ClaimTells(c, ref, w, script);
    var r := Scopes.Canonical(cfg.known, Words(w.spec.scopes));
    if r.Parsed? { ProvisionTells(digest, cfg, c, ref, w.spec, r.scopes, Tail(script)); }
    NothingHeld(digest, cfg, c, ref, w, script);
  }

  lemma NothingHeld(digest: Digest, cfg: Config, c: Cluster, ref: Ref, w: Wib, script: Script)
    ensures FINALIZER !in w.finalizers ==> Release(digest, cfg, c, ref, w, script) == Silent(c, true, script)
  {}

  /** What a reconcile may leave without asking to run again: nothing to do, the object let go, ready as the stored
      status says, or something only the user can help, with the error in the stored status. */
  ghost predicate Done(cfg: Config, c: Cluster, c': Cluster, ref: Ref) {
    || ref !in c.objects || !Watched(cfg, ref.namespace)
    || (c.objects[ref].deleting && (ref in c'.objects ==> FINALIZER !in c'.objects[ref].finalizers))
    || (!c.objects[ref].deleting && ref in c'.objects
        && var st := c'.objects[ref].status;
           && st.observedGeneration == c'.objects[ref].generation
           && (IsReady(c'.objects[ref]) || (Hopeless(cfg, c, ref, c.objects[ref].spec) && st.phase == "Error")))
  }

  /** Nothing is forgotten: through whatever faults, a reconcile that returns no error and does not ask to run again has
      nothing left to do; it asks to run at once only after adding its finalizer, and later only while no provider
      carries the cluster's label. */
  lemma NothingForgotten(digest: Digest, cfg: Config, c: Cluster, ref: Ref, now: Time, script: Script)
    requires Healthy(c.iam)
    ensures var t := Reconcile.Reconcile(digest, cfg, c, ref, now, script);
            && (t.ok && t.requeue == No ==> Done(cfg, c, t.cluster, ref))
            && (t.requeue == Now ==>
                  && ref in c.objects && FINALIZER !in c.objects[ref].finalizers
                  && Claimed(t.cluster, ref, c.objects[ref].finalizers))
            && (t.requeue == Later ==> t.ok && Unprovided(cfg, c))
  {
    hide ReconcileBinding, Healthy, Hopeless, Unprovided, StatusWith, IsReady, BadSpec, BadScopes;
    if Head(script) == Ok && ref in c.objects && Watched(cfg, ref.namespace) {
      var w := c.objects[ref];
      var t := ReconcileBinding(digest, cfg, c, ref, w, Tail(script));
      ReasonsTell(digest, cfg, c, ref, w, Tail(script));
      AtOnce(digest, cfg, c, ref, w, Tail(script));
      if t.ok && t.requeue == No {
        BindingDone(digest, cfg, c, ref, w, Tail(script));
      }
      if t.seen.Some? {
        BindingHonest(digest, cfg, c, ref, w, Tail(script));
        if ref in t.cluster.objects {
          PatchedReady(t.cluster.objects[ref], t.seen.value, now);
          Noted(t.cluster.objects[ref], t.seen.value, now);
        }
      }
    }
  }

  lemma Noted(w: Wib, obs: Observation, now: Time)
    ensures var st := StatusWith(w.status, obs, w.generation, now);
            st.phase == obs.phase && st.observedGeneration == w.generation && st.lastReconcile == Some(now)
  {}

  lemma AtOnce(digest: Digest, cfg: Config, c: Cluster, ref: Ref, w: Wib, script: Script)
    ensures ReconcileBinding(digest, cfg, c, ref, w, script).requeue == Now ==>
              !w.deleting && FINALIZER !in w.finalizers
  {
    hide Release, Provision, ValidDesired, Scopes.Canonical, Words, Claim, Config.Watches;
    ReleaseTells(digest, cfg, c, ref, w, script);
    var r := Scopes.Canonical(cfg.known, Words(w.spec.scopes));
    if r.Parsed? { ProvisionTells(digest, cfg, c, ref, w.spec, r.scopes, Tail(script)); }
  }

  // ---- what is left alone

  /** Where the namespace is not watched, a reconcile changes nothing at all. */
  lemma UnwatchedIsLeftAlone(digest: Digest, cfg: Config, c: Cluster, ref: Ref, now: Time, script: Script)
    requires !Watched(cfg, ref.namespace)
    ensures Reconcile.Reconcile(digest, cfg, c, ref, now, script).cluster == c
  {
    hide ReconcileBinding;
  }

  /** The map belongs to some other object. */
  predicate OthersMap(c: Cluster, at: Ref, ref: Ref) {
    && at in c.configMaps && c.configMaps[at].controller.Some?
    && c.configMaps[at].controller.value != OwnerRef("WorkloadIdentityBinding", ref.name)
  }

  /** Of the ConfigMaps only the one named after the binding's account may change, only where one is asked for, and not
      if another object controls it. */
  ghost predicate MapsKept(cfg: Config, c: Cluster, c': Cluster, ref: Ref, spec: Spec) {
    forall at | at != Ref(ref.namespace, "wif-" + TrimSpace(spec.serviceAccount)) || OthersMap(c, at, ref)
                || !(spec.identityConfigMap || cfg.identityConfigMap) ::
      && (at in c'.configMaps <==> at in c.configMaps)
      && (at in c.configMaps ==> c'.configMaps[at] == c.configMaps[at])
  }

  lemma SyncKeepsMaps(cfg: Config, c: Cluster, ref: Ref, spec: Spec, account: string, script: Script)
    requires spec.identityConfigMap || cfg.identityConfigMap
    ensures MapsKept(cfg, c, SyncConfigMap(c, ref, spec.serviceAccount, account, cfg.Organisation(), cfg.Project(),
                                           script).cluster, ref, spec)
  {
    hide UsableData, ConfigMapData, Filled, TrimSpace;
  }

  lemma PublishKeepsMaps(cfg: Config, c: Cluster, ref: Ref, spec: Spec, r: EnsureResult, script: Script)
    ensures MapsKept(cfg, c, Publish(cfg, c, ref, spec, r, script).cluster, ref, spec)
  {
    hide SyncConfigMap, Annotate, Config.Organisation, Config.Project, OthersMap, TrimSpace;
    var at := Ref(ref.namespace, spec.serviceAccount);
    if spec.identityConfigMap || cfg.identityConfigMap {
      SyncKeepsMaps(cfg, c, ref, spec, r.account, script);
      var synced := SyncConfigMap(c, ref, spec.serviceAccount, r.account, cfg.Organisation(), cfg.Project(), script);
      AnnotateTouches(synced.cluster, at, r.account, cfg.Organisation(), cfg.Project(), synced.rest);
    } else {
      AnnotateTouches(c, at, r.account, cfg.Organisation(), cfg.Project(), script);
    }
  }

  lemma ReleaseKeepsMaps(digest: Digest, cfg: Config, c: Cluster, ref: Ref, w: Wib, script: Script)
    ensures Release(digest, cfg, c, ref, w, script).cluster.configMaps == c.configMaps
  {
    hide ClearAnnotations, DeleteCloud, DropString, Stored;
    var at := Ref(ref.namespace, w.spec.serviceAccount);
    ClearTouches(c, at, script);
    var cleared := ClearAnnotations(c, at, script);
    DeleteCloudTouches(digest, cfg, cleared.cluster, ref.namespace, w.spec, w.status.policy, cleared.rest);
  }

  /** So does a whole reconcile, through whatever faults. */
  lemma MapsAreKept(digest: Digest, cfg: Config, c: Cluster, ref: Ref, now: Time, script: Script)
    requires ref in c.objects
    ensures MapsKept(cfg, c, Reconcile.Reconcile(digest, cfg, c, ref, now, script).cluster, ref, c.objects[ref].spec)
  {
    hide ReconcileBinding, StatusWith, OthersMap, TrimSpace, Config.Watches;
    BindingKeepsMaps(digest, cfg, c, ref, c.objects[ref], Tail(script));
  }

  lemma BindingKeepsMaps(digest: Digest, cfg: Config, c: Cluster, ref: Ref, w: Wib, script: Script)
    ensures MapsKept(cfg, c, ReconcileBinding(digest, cfg, c, ref, w, script).cluster, ref, w.spec)
  {
    hide Release, Provision, ValidDesired, Config.Watches, Scopes.Canonical, Words, OthersMap, TrimSpace, Stored;
    ReleaseKeepsMaps(digest, cfg, c, ref, w, script);
    var r := Scopes.Canonical(cfg.known, Words(w.spec.scopes));
    if r.Parsed? { ProvisionKeepsMaps(digest, cfg, c, ref, w.spec, r.scopes, Tail(script)); }
  }

  lemma ProvisionKeepsMaps(digest: Digest, cfg: Config, c: Cluster, ref: Ref, spec: Spec, scopes: seq<string>,
                           script: Script)
    ensures MapsKept(cfg, c, Provision(digest, cfg, c, ref, spec, scopes, script).cluster, ref, spec)
  {
    hide Exec, StartEnsure, Publish, TrimSpace;
    var (p, s, rest) := Exec(digest, StartEnsure(InputOf(cfg, ref.namespace, spec, scopes)), c.iam, script);
    if p.Ensured? { PublishKeepsMaps(cfg, c.(iam := s), ref, spec, ResultOf(p.task), rest); }
  }
}
