/** One reconcile of a WorkloadIdentityBinding as a function of the cluster and of the outcomes of its calls
    (internal/controller/binding_reconcile.go, workloadidentitybinding_controller.go, identity_configmap.go). */
module Reconcile {
  import opened Strings
  import opened Subject
  import opened Scopes
  import opened Store
  import opened Protocol
  import opened Conditions
  import opened Kube

  datatype Config = Config(
    known: set<string>, cluster: string, audiences: seq<string>, watch: seq<string>,
    allowedPolicies: seq<string>, allowedRoles: seq<string>,
    organisation: string, project: string, identityConfigMap: bool)
  {
    predicate Watches(namespace: string) {
      watch == [] || namespace in watch
    }

    function Organisation(): string {
      TrimSpace(organisation)
    }

    function Project(): string {
      TrimSpace(project)
    }
  }

  datatype Requeue = No | Now | Later

  /** How a reconcile ends: what it observed, whether it returns an error, and when it wants to run again. */
  datatype Turn = Turn(cluster: Cluster, seen: Option<Observation>, ok: bool, requeue: Requeue, rest: Script)

  function Unready(phase: string, reason: string): Observation {
    Observation(phase, "", "", "", "", "", "", false, reason, reason)
  }

  function Refused(c: Cluster, reason: string, rest: Script): Turn {
    Turn(c, Some(Unready(ERROR, reason)), true, No, rest)
  }

  function FailedWith(c: Cluster, reason: string, rest: Script): Turn {
    Turn(c, Some(Unready(ERROR, reason)), false, No, rest)
  }

  function Silent(c: Cluster, ok: bool, rest: Script): Turn {
    Turn(c, None, ok, No, rest)
  }

  // ---- annotations of the Kubernetes ServiceAccount

  const IDENTITY_KEYS := [ACCOUNT_ID, ORGANISATION_ID, PROJECT_ID, IDENTITY_ID, PROVIDER_ID, POLICY_ID]

  function WithoutIdentity(a: Annotations): Annotations {
    map k | k in a && k !in IDENTITY_KEYS :: a[k]
  }

  function WithIdentity(a: Annotations, account: string, organisation: string, project: string): Annotations {
    var named := a[ACCOUNT_ID := account][ORGANISATION_ID := organisation];
    if project != "" then named[PROJECT_ID := project] else named - {PROJECT_ID}
  }

  function ClearAnnotations(c: Cluster, at: Ref, script: Script): Answer {
    if Head(script) != Ok then Answer(c, false, Tail(script))
    else if at !in c.accounts || (forall k | k in IDENTITY_KEYS :: k !in c.accounts[at])
      then Answer(c, true, Tail(script))
    else WriteAccount(c, at, WithoutIdentity(c.accounts[at]), Tail(script))
  }

  function Annotate(c: Cluster, at: Ref, account: string, organisation: string, project: string,
                    script: Script): Answer {
    if Head(script) != Ok || at !in c.accounts then Answer(c, false, Tail(script))
    else WriteAccount(c, at, WithIdentity(c.accounts[at], account, organisation, project), Tail(script))
  }

  // ---- the identity ConfigMap

  const BINDING_KIND := "WorkloadIdentityBinding"
  const ORGANISATION_KEY := "organisation-id"
  const ACCOUNT_KEY := "service-account-id"
  const PROJECT_KEY := "project-id"

  function ConfigMapName(serviceAccount: string): string {
    "wif-" + TrimSpace(serviceAccount)
  }

  function ConfigMapData(organisation: string, account: string, project: string): map<string, string> {
    var data := map[ORGANISATION_KEY := TrimSpace(organisation), ACCOUNT_KEY := TrimSpace(account)];
    if Blank(project) then data else data[PROJECT_KEY := TrimSpace(project)]
  }

  predicate UsableData(data: map<string, string>) {
    !Blank(Get(data, ORGANISATION_KEY)) && !Blank(Get(data, ACCOUNT_KEY))
  }

  function Filled(m: ConfigMap, ref: Ref, serviceAccount: string, data: map<string, string>): ConfigMap {
    ConfigMap(m.labels[MANAGED_BY := CONTROLLER][K8S_NAMESPACE := ref.namespace][K8S_SERVICE_ACCOUNT := serviceAccount],
              data, Some(OwnerRef(BINDING_KIND, ref.name)))
  }

  predicate ControlledElsewhere(c: Cluster, ref: Ref, at: Ref) {
    at in c.configMaps && c.configMaps[at].controller.Some?
    && c.configMaps[at].controller.value != OwnerRef(BINDING_KIND, ref.name)
  }

  const EMPTY_MAP := ConfigMap(map[], map[], None)

  function SyncConfigMap(c: Cluster, ref: Ref, serviceAccount: string, account: string, organisation: string,
                         project: string,
                         script: Script): Answer {
    var data, at := ConfigMapData(organisation, account, project), Ref(ref.namespace, ConfigMapName(serviceAccount));
    if !UsableData(data) then Answer(c, false, script)
    else if Head(script) != Ok || ControlledElsewhere(c, ref, at) then Answer(c, false, Tail(script))
    else
      var m := Filled(if at in c.configMaps then c.configMaps[at] else EMPTY_MAP, ref, serviceAccount, data);
      if at in c.configMaps && c.configMaps[at] == m then Answer(c, true, Tail(script))
      else WriteConfigMap(c, at, m, Tail(script))
  }

  // ---- deletion of the IAM resources

  /** The resolved policy identity is preferred to the reference. */
  function PolicyToDrop(spec: Spec, policy: string): string {
    if Blank(policy) then spec.policyRef else TrimSpace(policy)
  }

  /** Without a provider, or with one that names no issuer, there is nothing to delete by: the deletion is skipped. */
  function DeleteCloud(digest: Digest, cfg: Config, c: Cluster, namespace: string, spec: Spec, policy: string,
                       script: Script): Answer {
    if Blank(cfg.cluster) then Answer(c, false, script)
    else if Head(script) != Ok then Answer(c, false, Tail(script))
    else
      match SelectProvider(c.iam.providers, cfg.cluster)
      case NoProvider => Answer(c, true, Tail(script))
      case SeveralProviders => Answer(c, false, Tail(script))
      case OneProvider(provider) =>
        var issuer := NormalizeIssuer(provider.issuer);
        if issuer == "" then Answer(c, true, Tail(script))
        else
          var (p, s, rest) := Exec(digest, StartDelete(digest, namespace, spec.serviceAccount, issuer, spec.roleRef,
                                                       PolicyToDrop(spec, policy)), c.iam, Tail(script));
          Answer(c.(iam := s), p.Dropped?, rest)
  }

  // ---- the state machine

  predicate ValidDesired(namespace: string, spec: Spec) {
    var role, policy := TrimSpace(spec.roleRef), TrimSpace(spec.policyRef);
    !Blank(namespace) && !Blank(spec.serviceAccount) && (role != "" || policy != "") && role != "*" && policy != "*"
  }

  function InputOf(cfg: Config, namespace: string, spec: Spec, scopes: seq<string>): EnsureInput {
    EnsureInput(namespace, spec.serviceAccount, spec.roleRef, spec.policyRef, spec.nameOverride, scopes, cfg.audiences,
                cfg.cluster, cfg.allowedPolicies, cfg.allowedRoles)
  }

  function ReadyWith(cfg: Config, r: EnsureResult): Observation {
    Observation(READY, r.account, r.identity, r.provider, r.policy, cfg.Organisation(), cfg.Project(), true, READY,
                "Thalassa workload identity resources are ready")
  }

  /** The object is being deleted. */
  function Release(digest: Digest, cfg: Config, c: Cluster, ref: Ref, w: Wib, script: Script): Turn {
    if FINALIZER !in w.finalizers then Silent(c, true, script)
    else
      var cleared := ClearAnnotations(c, Ref(ref.namespace, w.spec.serviceAccount), script);
      if !cleared.ok then FailedWith(cleared.cluster, "CleanupFailed", cleared.rest)
      else
        var gone := if w.spec.deleteResources
                    then DeleteCloud(digest, cfg, cleared.cluster, ref.namespace, w.spec, w.status.policy, cleared.rest)
                    else cleared;
        if !gone.ok then FailedWith(gone.cluster, "DeleteFailed", gone.rest)
        else
          var freed := WriteObject(gone.cluster, ref, w.(finalizers := DropString(w.finalizers, FINALIZER)), gone.rest);
          Silent(freed.cluster, freed.ok, freed.rest)
  }

  function Claim(c: Cluster, ref: Ref, w: Wib, script: Script): Turn {
    var held := WriteObject(c, ref, w.(finalizers := w.finalizers + [FINALIZER]), script);
    if !held.ok then Silent(held.cluster, false, held.rest)
    else Turn(held.cluster, Some(Unready(PENDING, "FinalizerAdded")), true, Now, held.rest)
  }

  /** The resources are in place: publish their identities. */
  function Publish(cfg: Config, c: Cluster, ref: Ref, spec: Spec, r: EnsureResult, script: Script): Turn {
    var synced := if spec.identityConfigMap || cfg.identityConfigMap
                  then SyncConfigMap(c, ref, spec.serviceAccount, r.account, cfg.Organisation(), cfg.Project(), script)
                  else Answer(c, true, script);
    if !synced.ok then FailedWith(synced.cluster, "IdentityConfigMapFailed", synced.rest)
    else
      var named := Annotate(synced.cluster, Ref(ref.namespace, spec.serviceAccount), r.account, cfg.Organisation(),
                            cfg.Project(), synced.rest);
      if !named.ok then FailedWith(named.cluster, "ServiceAccountAnnotateFailed", named.rest)
      else Turn(named.cluster, Some(ReadyWith(cfg, r)), true, No, named.rest)
  }

  function Provision(digest: Digest, cfg: Config, c: Cluster, ref: Ref, spec: Spec, scopes: seq<string>,
                     script: Script): Turn {
    var (p, s, rest) := Exec(digest, StartEnsure(InputOf(cfg, ref.namespace, spec, scopes)), c.iam, script);
    if p.Ensured? then Publish(cfg, c.(iam := s), ref, spec, ResultOf(p.task), rest)
    else if p == Stopped(ProviderNotReady)
      then Turn(c.(iam := s), Some(Unready(PENDING, "ProviderNotReady")), true, Later, rest)
    else FailedWith(c.(iam := s), "EnsureFailed", rest)
  }

  function ReconcileBinding(digest: Digest, cfg: Config, c: Cluster, ref: Ref, w: Wib, script: Script): Turn {
    if w.deleting then Release(digest, cfg, c, ref, w, script)
    else if FINALIZER !in w.finalizers then Claim(c, ref, w, script)
    else if !ValidDesired(ref.namespace, w.spec) then Refused(c, "InvalidSpec", script)
    else if !cfg.Watches(ref.namespace) then Refused(c, "NamespaceNotWatched", script)
    else if Head(script) != Ok then Silent(c, false, Tail(script))
    else if Ref(ref.namespace, w.spec.serviceAccount) !in c.accounts
      then Refused(c, "ServiceAccountNotFound", Tail(script))
    else
      match Canonical(cfg.known, Words(w.spec.scopes))
      case Parsed(scopes) => Provision(digest, cfg, c, ref, w.spec, scopes, Tail(script))
      case _ => Refused(c, "InvalidScopes", Tail(script))
  }

  // ---- the status

  /** Only an observation that names a service account replaces the identities in the status. */
  function StatusWith(had: Status, obs: Observation, generation: int, now: Time): Status {
    var st := had.(phase := obs.phase, observedGeneration := generation, lastReconcile := Some(now),
                   conditions := WithReady(had.conditions, Some(obs), generation, now));
    if obs.account == "" then st
    else st.(account := obs.account, identity := obs.identity, provider := obs.provider, policy := obs.policy,
             organisation := obs.organisation, project := obs.project)
  }

  function PatchStatus(c: Cluster, ref: Ref, obs: Observation, now: Time, script: Script): Answer {
    if Head(script) != Ok || ref !in c.objects then Answer(c, false, Tail(script))
    else
      var w := c.objects[ref];
      Write(c, c.(objects := c.objects[ref := w.(status := StatusWith(w.status, obs, w.generation, now))]),
            Tail(script))
  }

  function Reconcile(digest: Digest, cfg: Config, c: Cluster, ref: Ref, now: Time, script: Script): Turn {
    if Head(script) != Ok then Silent(c, false, Tail(script))
    else if ref !in c.objects || !cfg.Watches(ref.namespace) then Silent(c, true, Tail(script))
    else
      var t := ReconcileBinding(digest, cfg, c, ref, c.objects[ref], Tail(script));
      match t.seen
      case None => t
      case Some(obs) =>
        var patched := PatchStatus(t.cluster, ref, obs, now, t.rest);
        t.(cluster := patched.cluster, ok := t.ok && patched.ok,
           requeue := if t.ok && !patched.ok then No else t.requeue, rest := patched.rest)
  }

  // ---- what each part touches

  lemma ClearTouches(c: Cluster, at: Ref, script: Script)
    ensures var a := ClearAnnotations(c, at, script); a.cluster == c.(accounts := a.cluster.accounts)
  {
    hide WithoutIdentity;
  }

  lemma AnnotateTouches(c: Cluster, at: Ref, account: string, organisation: string, project: string, script: Script)
    ensures var a := Annotate(c, at, account, organisation, project, script);
            a.cluster == c.(accounts := a.cluster.accounts)
  {
    hide WithIdentity;
  }

  lemma SyncTouches(c: Cluster, ref: Ref, serviceAccount: string, account: string, organisation: string,
                    project: string,
                    script: Script)
    ensures var a := SyncConfigMap(c, ref, serviceAccount, account, organisation, project, script);
            a.cluster == c.(configMaps := a.cluster.configMaps)
  {
    hide UsableData, Filled, ConfigMapData;
  }

  lemma DeleteCloudTouches(digest: Digest, cfg: Config, c: Cluster, namespace: string, spec: Spec, policy: string,
                           script: Script)
    ensures var a := DeleteCloud(digest, cfg, c, namespace, spec, policy, script); a.cluster == c.(iam := a.cluster.iam)
  {
    hide Blank, Exec, StartDelete, SelectProvider, NormalizeIssuer, PolicyToDrop;
  }

  lemma PublishTouches(cfg: Config, c: Cluster, ref: Ref, spec: Spec, r: EnsureResult, script: Script)
    ensures var t := Publish(cfg, c, ref, spec, r, script);
            t.cluster == c.(accounts := t.cluster.accounts, configMaps := t.cluster.configMaps)
    ensures var t := Publish(cfg, c, ref, spec, r, script);
            t.seen.Some? && (t.seen.value.ready ==> t.seen.value == ReadyWith(cfg, r))
            && (!t.seen.value.ready ==> t.seen.value.account == "" && t.seen.value.phase == ERROR)
  {
    hide SyncConfigMap, Annotate, Config.Organisation, Config.Project;
    SyncTouches(c, ref, spec.serviceAccount, r.account, cfg.Organisation(), cfg.Project(), script);
    var synced := if spec.identityConfigMap || cfg.identityConfigMap
                  then SyncConfigMap(c, ref, spec.serviceAccount, r.account, cfg.Organisation(), cfg.Project(), script)
                  else Answer(c, true, script);
    AnnotateTouches(synced.cluster, Ref(ref.namespace, spec.serviceAccount), r.account, cfg.Organisation(),
                    cfg.Project(), synced.rest);
  }

  lemma ProvisionTouches(digest: Digest, cfg: Config, c: Cluster, ref: Ref, spec: Spec, scopes: seq<string>,
                         script: Script)
    ensures Provision(digest, cfg, c, ref, spec, scopes, script).cluster.objects == c.objects
  {
    hide Exec, StartEnsure, Publish, ReadyWith;
    var (p, s, rest) := Exec(digest, StartEnsure(InputOf(cfg, ref.namespace, spec, scopes)), c.iam, script);
    if p.Ensured? { PublishTouches(cfg, c.(iam := s), ref, spec, ResultOf(p.task), rest); }
  }

  lemma ReleaseTouches(digest: Digest, cfg: Config, c: Cluster, ref: Ref, w: Wib, script: Script)
    ensures var t := Release(digest, cfg, c, ref, w, script);
            t.cluster.objects == c.objects
            || (t.seen.None?
                && t.cluster.objects == Stored(c.objects, ref, w.(finalizers := DropString(w.finalizers, FINALIZER))))
  {
    hide ClearAnnotations, DeleteCloud, DropString, Stored;
    var at := Ref(ref.namespace, w.spec.serviceAccount);
    ClearTouches(c, at, script);
    var cleared := ClearAnnotations(c, at, script);
    DeleteCloudTouches(digest, cfg, cleared.cluster, ref.namespace, w.spec, w.status.policy, cleared.rest);
  }

  /** Before the status patch, at most the finalizers of the one object change. */
  lemma BindingTouches(digest: Digest, cfg: Config, c: Cluster, ref: Ref, w: Wib, script: Script)
    ensures var t := ReconcileBinding(digest, cfg, c, ref, w, script);
            t.cluster.objects == c.objects
            || exists fs :: t.cluster.objects == Stored(c.objects, ref, w.(finalizers := fs))
  {
    hide Release, Provision, Stored, ValidDesired, Config.Watches, Canonical, Words;
    ReleaseTouches(digest, cfg, c, ref, w, script);
    var r := Canonical(cfg.known, Words(w.spec.scopes));
    if r.Parsed? {
      ProvisionTouches(digest, cfg, c, ref, w.spec, r.scopes, Tail(script));
    }
  }
}
