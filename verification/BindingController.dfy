/** The controller of WorkloadIdentityBindings in its imperative form, each procedure proved to do what its function
    says. */
module BindingController {
  import opened Strings
  import opened Subject
  import opened Store
  import opened Protocol
  import opened Conditions
  import opened Kube
  import opened Reconcile
  import opened Ensure
  import Scopes

  method Contains(list: seq<string>, v: string) returns (found: bool)
    ensures found <==> v in list
  {
    for i := 0 to |list|
      invariant v !in list[..i]
    {
      if list[i] == v {
        return true;
      }
    }
    return false;
  }

  class BindingReconciler {
    const cfg: Config
    const iam: IamClient
    var objects: map<Ref, Wib>
    var accounts: map<Ref, Annotations>
    var configMaps: map<Ref, ConfigMap>

    constructor (cfg: Config, iam: IamClient, c: Cluster)
      requires c.iam == iam.state
      ensures this.cfg == cfg && this.iam == iam && View() == c
    {
      this.cfg := cfg;
      this.iam := iam;
      objects, accounts, configMaps := c.objects, c.accounts, c.configMaps;
    }

    ghost function View(): Cluster
      reads this, iam
    {
      Cluster(iam.state, objects, accounts, configMaps)
    }

    /** One call to the Kubernetes API, with the next outcome of the script. */
    method Call() returns (o: Outcome)
      modifies iam
      ensures o == Head(old(iam.script)) && iam.script == Tail(old(iam.script)) && iam.state == old(iam.state)
    {
      o := Head(iam.script);
      iam.script := Tail(iam.script);
    }

    method UpdateObject(ref: Ref, w: Wib) returns (ok: bool)
      modifies this, iam
      ensures Answer(View(), ok, iam.script) == WriteObject(old(View()), ref, w, old(iam.script))
    {
      var o := Call();
      if o != FailBefore {
        objects := if w.deleting && w.finalizers == [] then objects - {ref} else objects[ref := w];
      }
      return o == Ok;
    }

    method UpdateAccount(at: Ref, a: Annotations) returns (ok: bool)
      modifies this, iam
      ensures Answer(View(), ok, iam.script) == WriteAccount(old(View()), at, a, old(iam.script))
    {
      var o := Call();
      if o != FailBefore {
        accounts := accounts[at := a];
      }
      return o == Ok;
    }

    method AnnotateServiceAccountIdentity(at: Ref, account: string, organisation: string,
                                          project: string) returns (ok: bool)
      modifies this, iam
      ensures Answer(View(), ok, iam.script)
                == Annotate(old(View()), at, account, organisation, project, old(iam.script))
    {
      var o := Call();
      if o != Ok || at !in accounts {
        return false;
      }
      var latest := accounts[at];
      latest := latest[ACCOUNT_ID := account];
      latest := latest[ORGANISATION_ID := organisation];
      if project != "" {
        latest := latest[PROJECT_ID := project];
      } else {
        latest := latest - {PROJECT_ID};
      }
      ok := UpdateAccount(at, latest);
    }

    method ClearServiceAccountIdentityAnnotations(at: Ref) returns (ok: bool)
      modifies this, iam
      ensures Answer(View(), ok, iam.script) == ClearAnnotations(old(View()), at, old(iam.script))
    {
      var o := Call();
      if o != Ok {
        return false;
      }
      if at !in accounts {
        return true;
      }
      var annotations, changed := accounts[at], false;
      for i := 0 to |IDENTITY_KEYS|
        invariant annotations == map k | k in accounts[at] && k !in IDENTITY_KEYS[..i] :: accounts[at][k]
        invariant changed <==> exists k | k in IDENTITY_KEYS[..i] :: k in accounts[at]
      {
        var k := IDENTITY_KEYS[i];
        assert IDENTITY_KEYS[..i + 1] == IDENTITY_KEYS[..i] + [k];
        if k in annotations {
          annotations := annotations - {k};
          changed := true;
        }
      }
      assert IDENTITY_KEYS[..|IDENTITY_KEYS|] == IDENTITY_KEYS;
      if !changed {
        return true;
      }
      ok := UpdateAccount(at, annotations);
    }

    /** Create or update: no call is made when nothing differs. */
    method SyncIdentityConfigMap(ref: Ref, serviceAccount: string, account: string, organisation: string,
                                 project: string)
      returns (ok: bool)
      modifies this, iam
      ensures Answer(View(), ok, iam.script)
           == SyncConfigMap(old(View()), ref, serviceAccount, account, organisation, project, old(iam.script))
    {
      hide Blank, TrimSpace, ConfigMapName, ConfigMapData, UsableData;
      var data := ConfigMapData(organisation, account, project);
      if !UsableData(data) {
        return false;
      }
      var at := Ref(ref.namespace, ConfigMapName(serviceAccount));
      var o := Call();
      if o != Ok {
        return false;
      }
      var known := at in configMaps;
      var m := if known then configMaps[at] else ConfigMap(map[], map[], None);
      if m.controller.Some? && m.controller.value != OwnerRef(BINDING_KIND, ref.name) {
        return false;
      }
      m := m.(controller := Some(OwnerRef(BINDING_KIND, ref.name)));
      m := m.(labels := m.labels[MANAGED_BY := CONTROLLER][K8S_NAMESPACE := ref.namespace]
                                [K8S_SERVICE_ACCOUNT := serviceAccount]);
      m := m.(data := data);
      if known && configMaps[at] == m {
        return true;
      }
      o := Call();
      if o != FailBefore {
        configMaps := configMaps[at := m];
      }
      return o == Ok;
    }

    method DeleteCloudResources(namespace: string, spec: Spec, policy: string) returns (ok: bool)
      modifies this, iam
      ensures Answer(View(), ok, iam.script)
           == DeleteCloud(iam.digest, cfg, old(View()), namespace, spec, policy, old(iam.script))
    {
      hide Blank, TrimSpace, SelectProvider, NormalizeIssuer, StartDelete, Exec;
      if Blank(cfg.cluster) {
        return false;
      }
      var answer := iam.Invoke(ListProviders);
      if !answer.Providers? {
        return false;
      }
      var choice := FindProviderAmong(answer.providers, cfg.cluster);
      if choice.NoProvider? {
        return true;
      }
      if choice.SeveralProviders? {
        return false;
      }
      var issuer := NormalizeIssuer(choice.provider.issuer);
      if issuer == "" {
        return true;
      }
      var preferred := PolicyToDrop(spec, policy);
      var r := DeleteWorkloadIdentity(iam, namespace, spec.serviceAccount, issuer, spec.roleRef, preferred);
      return r.Success?;
    }

    method ReconcileBinding(ref: Ref, w: Wib) returns (seen: Option<Observation>, ok: bool, requeue: Requeue)
      modifies this, iam
      ensures Turn(View(), seen, ok, requeue, iam.script)
           == Reconcile.ReconcileBinding(iam.digest, cfg, old(View()), ref, w, old(iam.script))
    {
      hide Release, Claim, Provision, ValidDesired, Words, Scopes.Canonical;
      if w.deleting {
        seen, ok := ReleaseObject(ref, w);
        return seen, ok, No;
      }
      if FINALIZER !in w.finalizers {
        seen, ok, requeue := ClaimObject(ref, w);
        return;
      }
      if !ValidDesired(ref.namespace, w.spec) {
        return Some(Unready(ERROR, "InvalidSpec")), true, No;
      }
      if |cfg.watch| > 0 {
        var watched := Contains(cfg.watch, ref.namespace);
        if !watched {
          return Some(Unready(ERROR, "NamespaceNotWatched")), true, No;
        }
      }
      var o := Call();
      if o != Ok {
        return None, false, No;
      }
      if Ref(ref.namespace, w.spec.serviceAccount) !in accounts {
        return Some(Unready(ERROR, "ServiceAccountNotFound")), true, No;
      }
      var scopes := Scopes.ParseScopeList(cfg.known, w.spec.scopes);
      if !scopes.Parsed? {
        return Some(Unready(ERROR, "InvalidScopes")), true, No;
      }
      seen, ok, requeue := ProvisionObject(ref, w.spec, scopes.scopes);
    }

    method ReleaseObject(ref: Ref, w: Wib) returns (seen: Option<Observation>, ok: bool)
      modifies this, iam
      ensures Turn(View(), seen, ok, No, iam.script) == Release(iam.digest, cfg, old(View()), ref, w, old(iam.script))
    {
      hide ClearAnnotations, DeleteCloud;
      if FINALIZER !in w.finalizers {
        return None, true;
      }
      ok := ClearServiceAccountIdentityAnnotations(Ref(ref.namespace, w.spec.serviceAccount));
      if !ok {
        return Some(Unready(ERROR, "CleanupFailed")), false;
      }
      if w.spec.deleteResources {
        ok := DeleteCloudResources(ref.namespace, w.spec, w.status.policy);
        if !ok {
          return Some(Unready(ERROR, "DeleteFailed")), false;
        }
      }
      ok := UpdateObject(ref, w.(finalizers := DropString(w.finalizers, FINALIZER)));
      return None, ok;
    }

    method ClaimObject(ref: Ref, w: Wib) returns (seen: Option<Observation>, ok: bool, requeue: Requeue)
      modifies this, iam
      ensures Turn(View(), seen, ok, requeue, iam.script) == Claim(old(View()), ref, w, old(iam.script))
    {
      ok := UpdateObject(ref, w.(finalizers := w.finalizers + [FINALIZER]));
      if !ok {
        return None, false, No;
      }
      return Some(Unready(PENDING, "FinalizerAdded")), true, Now;
    }

    method ProvisionObject(ref: Ref, spec: Spec, scopes: seq<string>) returns (seen: Option<Observation>, ok: bool,
                           requeue: Requeue)
      modifies this, iam
      ensures Turn(View(), seen, ok, requeue, iam.script)
           == Provision(iam.digest, cfg, old(View()), ref, spec, scopes, old(iam.script))
    {
      hide Exec, StartEnsure, ResultOf, Publish;
      var result := EnsureWorkloadIdentity(iam, InputOf(cfg, ref.namespace, spec, scopes));
      if result.Failure? {
        if result.error == ProviderNotReady {
          return Some(Unready(PENDING, "ProviderNotReady")), true, Later;
        }
        return Some(Unready(ERROR, "EnsureFailed")), false, No;
      }
      seen, ok := PublishIdentity(ref, spec, result.value);
      requeue := No;
    }

    method PublishIdentity(ref: Ref, spec: Spec, r: EnsureResult) returns (seen: Option<Observation>, ok: bool)
      modifies this, iam
      ensures Turn(View(), seen, ok, No, iam.script) == Publish(cfg, old(View()), ref, spec, r, old(iam.script))
    {
      hide SyncConfigMap, Annotate, TrimSpace;
      var organisation, project := TrimSpace(cfg.organisation), TrimSpace(cfg.project);
      if spec.identityConfigMap || cfg.identityConfigMap {
        ok := SyncIdentityConfigMap(ref, spec.serviceAccount, r.account, organisation, project);
        if !ok {
          return Some(Unready(ERROR, "IdentityConfigMapFailed")), false;
        }
      }
      ok := AnnotateServiceAccountIdentity(Ref(ref.namespace, spec.serviceAccount), r.account, organisation, project);
      if !ok {
        return Some(Unready(ERROR, "ServiceAccountAnnotateFailed")), false;
      }
      return Some(ReadyWith(cfg, r)), true;
    }

    /** Re-read the object and write its status field by field; identities only from an observation that has them. */
    method PatchObjectStatus(ref: Ref, obs: Observation, now: Time) returns (ok: bool)
      modifies this, iam
      ensures Answer(View(), ok, iam.script) == PatchStatus(old(View()), ref, obs, now, old(iam.script))
    {
      hide WithReady;
      var o := Call();
      if o != Ok || ref !in objects {
        return false;
      }
      var latest := objects[ref];
      var status := latest.status;
      status := status.(phase := obs.phase);
      status := status.(observedGeneration := latest.generation);
      status := status.(lastReconcile := Some(now));
      if obs.account != "" {
        status := status.(account := obs.account, identity := obs.identity, provider := obs.provider);
        status := status.(policy := obs.policy, organisation := obs.organisation, project := obs.project);
      }
      var conditions := new ConditionList(status.conditions);
      conditions.SetReady(Some(obs), latest.generation, now);
      status := status.(conditions := conditions.items);
      o := Call();
      if o != FailBefore {
        objects := objects[ref := latest.(status := status)];
      }
      return o == Ok;
    }

    /** One reconcile request. */
    method Run(ref: Ref, now: Time) returns (ok: bool, requeue: Requeue)
      modifies this, iam
      ensures var t := Reconcile.Reconcile(iam.digest, cfg, old(View()), ref, now, old(iam.script));
              t.cluster == View() && t.ok == ok && t.requeue == requeue && t.rest == iam.script
    {
      hide Reconcile.ReconcileBinding, PatchStatus;
      var o := Call();
      if o != Ok {
        return false, No;
      }
      if ref !in objects {
        return true, No;
      }
      if |cfg.watch| > 0 {
        var watched := Contains(cfg.watch, ref.namespace);
        if !watched {
          return true, No;
        }
      }
      var seen;
      seen, ok, requeue := ReconcileBinding(ref, objects[ref]);
      if seen.Some? {
        var patched := PatchObjectStatus(ref, seen.value, now);
        if !patched && ok {
          return false, No;
        }
      }
    }
  }
}
