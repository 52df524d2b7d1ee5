/** The controller of annotated ServiceAccounts (internal/controller/serviceaccount_controller.go): one reconcile as a
    function, and in its imperative form. */
module Legacy {
  import opened Strings
  import opened Subject
  import opened Store
  import opened Protocol
  import opened Kube
  import opened Reconcile
  import opened Ensure
  import Scopes
  import Conditions
  import BindingController

  const ENABLED := "thalassa.cloud/wif.enabled"
  const ROLE := "thalassa.cloud/wif.role"
  const POLICY := "thalassa.cloud/wif.policy"
  const SCOPES := "thalassa.cloud/wif.scopes"
  const NAME := "thalassa.cloud/wif.name"
  const DELETE_RESOURCES := "thalassa.cloud/wif.delete-resources"
  const STATUS := "thalassa.cloud/wif.status"
  const LAST_ERROR := "thalassa.cloud/wif.last-error"
  const LAST_RECONCILE := "thalassa.cloud/wif.last-reconcile"

  /** A Kubernetes ServiceAccount. */
  datatype KubeAccount = KubeAccount(annotations: Annotations, finalizers: seq<string>, deleting: bool)

  datatype Estate = Estate(iam: State, accounts: map<Ref, KubeAccount>)

  datatype Reply = Reply(view: Estate, ok: bool, rest: Script)

  datatype Ending = Ending(view: Estate, ok: bool, requeue: Requeue, rest: Script)

  predicate Truthy(s: string) {
    EqualFold(TrimSpace(s), "true")
  }

  predicate IsEnabled(a: Annotations) {
    Truthy(Get(a, ENABLED))
  }

  predicate DeletesResources(a: Annotations) {
    Truthy(Get(a, DELETE_RESOURCES))
  }

  function StoredSa(accounts: map<Ref, KubeAccount>, ref: Ref, sa: KubeAccount): map<Ref, KubeAccount> {
    if sa.deleting && sa.finalizers == [] then accounts - {ref} else accounts[ref := sa]
  }

  function WriteSa(v: Estate, ref: Ref, sa: KubeAccount, script: Script): Reply {
    Reply(if Head(script) == FailBefore then v else v.(accounts := StoredSa(v.accounts, ref, sa)),
          Head(script) == Ok, Tail(script))
  }

  // ---- status annotations

  function Reported(a: Annotations, status: string, lastError: string, result: Option<EnsureResult>,
                    stamp: string): Annotations {
    var marked := a[STATUS := status][LAST_RECONCILE := stamp];
    var told := if lastError == "" then marked - {LAST_ERROR}
                else marked[LAST_ERROR := if |lastError| > 1024 then lastError[..1024] else lastError];
    match result
    case None => told
    case Some(r) =>
      var named := told[ACCOUNT_ID := r.account][IDENTITY_ID := r.identity][PROVIDER_ID := r.provider];
      if r.policy != "" then named[POLICY_ID := r.policy] else named - {POLICY_ID}
  }

  function PatchSa(v: Estate, ref: Ref, status: string, lastError: string, result: Option<EnsureResult>,
                   stamp: string,
                   script: Script): Reply {
    if Head(script) != Ok || ref !in v.accounts then Reply(v, false, Tail(script))
    else
      var sa := v.accounts[ref];
      WriteSa(v, ref, sa.(annotations := Reported(sa.annotations, status, lastError, result, stamp)), Tail(script))
  }

  // ---- deletion, failing closed

  function PolicyOf(a: Annotations): string {
    if Get(a, POLICY_ID) != "" then Get(a, POLICY_ID) else Get(a, POLICY)
  }

  /** Without a provider that names an issuer the deletion fails; nothing is skipped. */
  function DeleteCloudOf(digest: Digest, cfg: Config, v: Estate, ref: Ref, a: Annotations, script: Script): Reply {
    if Blank(cfg.cluster) then Reply(v, false, script)
    else if Head(script) != Ok then Reply(v, false, Tail(script))
    else
      var choice := SelectProvider(v.iam.providers, cfg.cluster);
      if !choice.OneProvider? || NormalizeIssuer(choice.provider.issuer) == "" then Reply(v, false, Tail(script))
      else
        var start := StartDelete(digest, ref.namespace, ref.name, NormalizeIssuer(choice.provider.issuer),
                                 Get(a, ROLE), PolicyOf(a));
        var (p, s, rest) := Exec(digest, start, v.iam, Tail(script));
        Reply(v.(iam := s), p.Dropped?, rest)
  }

  // ---- the state machine

  /** The ServiceAccount goes, or opts out: clean up, then let go. */
  function LetGo(digest: Digest, cfg: Config, v: Estate, ref: Ref, sa: KubeAccount, stamp: string,
                 script: Script): Ending {
    var gone := if DeletesResources(sa.annotations) then DeleteCloudOf(digest, cfg, v, ref, sa.annotations, script)
                else Reply(v, true, script);
    if !gone.ok then
      var told := PatchSa(gone.view, ref, ERROR, "DeleteFailed", None, stamp, gone.rest);
      Ending(told.view, false, No, told.rest)
    else
      var freed := WriteSa(gone.view, ref, sa.(finalizers := DropString(sa.finalizers, FINALIZER)), gone.rest);
      Ending(freed.view, freed.ok, No, freed.rest)
  }

  function InputFrom(cfg: Config, ref: Ref, a: Annotations, scopes: seq<string>): EnsureInput {
    EnsureInput(ref.namespace, ref.name, TrimSpace(Get(a, ROLE)), TrimSpace(Get(a, POLICY)), Get(a, NAME), scopes,
                cfg.audiences, cfg.cluster, cfg.allowedPolicies, cfg.allowedRoles)
  }

  function Refuse(v: Estate, ref: Ref, reason: string, stamp: string, script: Script): Ending {
    var told := PatchSa(v, ref, ERROR, reason, None, stamp, script);
    Ending(told.view, true, No, told.rest)
  }

  function Provide(digest: Digest, cfg: Config, v: Estate, ref: Ref, sa: KubeAccount, scopes: seq<string>,
                   stamp: string,
                 script: Script): Ending {
    var pending := PatchSa(v, ref, PENDING, "", None, stamp, script);
    var (p, s, rest) := Exec(digest, StartEnsure(InputFrom(cfg, ref, sa.annotations, scopes)), pending.view.iam,
                             pending.rest);
    var v' := pending.view.(iam := s);
    if p.Ensured? then
      var told := PatchSa(v', ref, Conditions.READY, "", Some(ResultOf(p.task)), stamp, rest);
      Ending(told.view, told.ok, No, told.rest)
    else if p == Stopped(ProviderNotReady) then
      var told := PatchSa(v', ref, PENDING, "ProviderNotReady", None, stamp, rest);
      Ending(told.view, true, Later, told.rest)
    else
      var told := PatchSa(v', ref, ERROR, "EnsureFailed", None, stamp, rest);
      Ending(told.view, false, No, told.rest)
  }

  function ReconcileSa(digest: Digest, cfg: Config, v: Estate, ref: Ref, stamp: string, script: Script): Ending {
    if Head(script) != Ok then Ending(v, false, No, Tail(script))
    else if ref !in v.accounts || !cfg.Watches(ref.namespace) then Ending(v, true, No, Tail(script))
    else
      var sa, rest := v.accounts[ref], Tail(script);
      var held := FINALIZER in sa.finalizers;
      if sa.deleting || !IsEnabled(sa.annotations) then
        if held then LetGo(digest, cfg, v, ref, sa, stamp, rest) else Ending(v, true, No, rest)
      else if !held then
        var added := WriteSa(v, ref, sa.(finalizers := sa.finalizers + [FINALIZER]), rest);
        Ending(added.view, added.ok, if added.ok then Now else No, added.rest)
      else
        var role, policy := TrimSpace(Get(sa.annotations, ROLE)), TrimSpace(Get(sa.annotations, POLICY));
        if role == "" && policy == "" then Refuse(v, ref, "MissingReference", stamp, rest)
        else if role == "*" || policy == "*" then Refuse(v, ref, "Wildcard", stamp, rest)
        else
          match Scopes.ParseText(cfg.known, Get(sa.annotations, SCOPES))
          case Parsed(scopes) => Provide(digest, cfg, v, ref, sa, scopes, stamp, rest)
          case _ => Refuse(v, ref, "InvalidScopes", stamp, rest)
  }

  class ServiceAccountReconciler {
    const cfg: Config
    const iam: IamClient
    var accounts: map<Ref, KubeAccount>

    constructor (cfg: Config, iam: IamClient, v: Estate)
      requires v.iam == iam.state
      ensures this.cfg == cfg && this.iam == iam && View() == v
    {
      this.cfg := cfg;
      this.iam := iam;
      accounts := v.accounts;
    }

    ghost function View(): Estate
      reads this, iam
    {
      Estate(iam.state, accounts)
    }

    method Call() returns (o: Outcome)
      modifies iam
      ensures o == Head(old(iam.script)) && iam.script == Tail(old(iam.script)) && iam.state == old(iam.state)
    {
      o := Head(iam.script);
      iam.script := Tail(iam.script);
    }

    method Update(ref: Ref, sa: KubeAccount) returns (ok: bool)
      modifies this, iam
      ensures Reply(View(), ok, iam.script) == WriteSa(old(View()), ref, sa, old(iam.script))
    {
      var o := Call();
      if o != FailBefore {
        accounts := if sa.deleting && sa.finalizers == [] then accounts - {ref} else accounts[ref := sa];
      }
      return o == Ok;
    }

    method PatchStatus(ref: Ref, status: string, lastError: string, result: Option<EnsureResult>,
                       stamp: string) returns (ok: bool)
      modifies this, iam
      ensures Reply(View(), ok, iam.script)
                == PatchSa(old(View()), ref, status, lastError, result, stamp, old(iam.script))
    {
      var o := Call();
      if o != Ok || ref !in accounts {
        return false;
      }
      var latest := accounts[ref];
      var annotations := latest.annotations;
      annotations := annotations[STATUS := status];
      annotations := annotations[LAST_RECONCILE := stamp];
      if lastError == "" {
        annotations := annotations - {LAST_ERROR};
      } else {
        var text := lastError;
        if |text| > 1024 {
          text := text[..1024];
        }
        annotations := annotations[LAST_ERROR := text];
      }
      if result.Some? {
        annotations := annotations[ACCOUNT_ID := result.value.account];
        annotations := annotations[IDENTITY_ID := result.value.identity];
        annotations := annotations[PROVIDER_ID := result.value.provider];
        if result.value.policy != "" {
          annotations := annotations[POLICY_ID := result.value.policy];
        } else {
          annotations := annotations - {POLICY_ID};
        }
      }
      ok := Update(ref, latest.(annotations := annotations));
    }

    method DeleteCloudResources(ref: Ref, a: Annotations) returns (ok: bool)
      modifies this, iam
      ensures Reply(View(), ok, iam.script) == DeleteCloudOf(iam.digest, cfg, old(View()), ref, a, old(iam.script))
    {
      hide Blank, SelectProvider, NormalizeIssuer, StartDelete, Exec;
      if Blank(cfg.cluster) {
        return false;
      }
      var answer := iam.Invoke(ListProviders);
      if !answer.Providers? {
        return false;
      }
      var choice := FindProviderAmong(answer.providers, cfg.cluster);
      if !choice.OneProvider? {
        return false;
      }
      var issuer := NormalizeIssuer(choice.provider.issuer);
      if issuer == "" {
        return false;
      }
      var policy := Get(a, POLICY_ID);
      if policy == "" {
        policy := Get(a, POLICY);
      }
      var r := DeleteWorkloadIdentity(iam, ref.namespace, ref.name, issuer, Get(a, ROLE), policy);
      return r.Success?;
    }

    method ReleaseAccount(ref: Ref, sa: KubeAccount, stamp: string) returns (ok: bool)
      modifies this, iam
      ensures var e := LetGo(iam.digest, cfg, old(View()), ref, sa, stamp, old(iam.script));
              Ending(View(), ok, No, iam.script) == e
    {
      hide DeleteCloudOf, PatchSa, Truthy;
      if DeletesResources(sa.annotations) {
        ok := DeleteCloudResources(ref, sa.annotations);
        if !ok {
          var told := PatchStatus(ref, ERROR, "DeleteFailed", None, stamp);
          return false;
        }
      }
      ok := Update(ref, sa.(finalizers := DropString(sa.finalizers, FINALIZER)));
    }

    method ServeAccount(ref: Ref, sa: KubeAccount, scopes: seq<string>, stamp: string) returns (ok: bool,
                        requeue: Requeue)
      modifies this, iam
      ensures Ending(View(), ok, requeue, iam.script)
           == Provide(iam.digest, cfg, old(View()), ref, sa, scopes, stamp, old(iam.script))
    {
      hide PatchSa, Exec, StartEnsure, ResultOf, TrimSpace;
      var told := PatchStatus(ref, PENDING, "", None, stamp);
      var result := EnsureWorkloadIdentity(iam, InputFrom(cfg, ref, sa.annotations, scopes));
      if result.Failure? {
        if result.error == ProviderNotReady {
          told := PatchStatus(ref, PENDING, "ProviderNotReady", None, stamp);
          return true, Later;
        }
        told := PatchStatus(ref, ERROR, "EnsureFailed", None, stamp);
        return false, No;
      }
      ok := PatchStatus(ref, Conditions.READY, "", Some(result.value), stamp);
      return ok, No;
    }

    /** One reconcile request. */
    method Run(ref: Ref, stamp: string) returns (ok: bool, requeue: Requeue)
      modifies this, iam
      ensures Ending(View(), ok, requeue, iam.script)
                == ReconcileSa(iam.digest, cfg, old(View()), ref, stamp, old(iam.script))
    {
      hide PatchSa, LetGo, Provide, TrimSpace, Truthy, Scopes.ParseText;
      var o := Call();
      if o != Ok {
        return false, No;
      }
      if ref !in accounts {
        return true, No;
      }
      if |cfg.watch| > 0 {
        var watched := BindingController.Contains(cfg.watch, ref.namespace);
        if !watched {
          return true, No;
        }
      }
      var sa := accounts[ref];
      var enabled, held := IsEnabled(sa.annotations), FINALIZER in sa.finalizers;
      if sa.deleting || !enabled {
        if !held {
          return true, No;
        }
        ok := ReleaseAccount(ref, sa, stamp);
        return ok, No;
      }
      if !held {
        ok := Update(ref, sa.(finalizers := sa.finalizers + [FINALIZER]));
        return ok, if ok then Now else No;
      }
      var role, policy := TrimSpace(Get(sa.annotations, ROLE)), TrimSpace(Get(sa.annotations, POLICY));
      if role == "" && policy == "" {
        var told := PatchStatus(ref, ERROR, "MissingReference", None, stamp);
        return true, No;
      }
      if role == "*" || policy == "*" {
        var told := PatchStatus(ref, ERROR, "Wildcard", None, stamp);
        return true, No;
      }
      var scopes := Scopes.ParseScopes(cfg.known, Get(sa.annotations, SCOPES));
      if !scopes.Parsed? {
        var told := PatchStatus(ref, ERROR, "InvalidScopes", None, stamp);
        return true, No;
      }
      ok, requeue := ServeAccount(ref, sa, scopes.scopes, stamp);
    }
  }
}
