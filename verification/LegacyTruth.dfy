/** What the annotations of the annotation controller are worth. */
module LegacyTruth {
  import opened Strings
  import opened Subject
  import opened Store
  import opened Protocol
  import opened Conditions
  import opened Kube
  import opened Reconcile
  import opened Lifecycle
  import opened Legacy
  import opened Truth
  import Ownership
  import Scopes

  /** The identities the annotations name. */
  function NamedBy(a: Annotations): Observation {
    Observation(Get(a, STATUS), Get(a, ACCOUNT_ID), Get(a, IDENTITY_ID), Get(a, PROVIDER_ID), Get(a, POLICY_ID), "", "",
                true, "", "")
  }

  lemma ReportedReads(a: Annotations, status: string, r: EnsureResult, stamp: string)
    ensures var b := Reported(a, status, "", Some(r), stamp);
            && NamedBy(b) == Observation(status, r.account, r.identity, r.provider, r.policy, "", "", true, "", "")
            && LAST_ERROR !in b && Get(b, LAST_RECONCILE) == stamp
            && forall k | k !in {STATUS, ACCOUNT_ID, IDENTITY_ID, PROVIDER_ID, POLICY_ID, LAST_ERROR, LAST_RECONCILE} ::
                 Get(b, k) == Get(a, k)
  {}

  lemma SameNamesHold(digest: Digest, before: State, s: State, want: EnsureInput, o: Observation, o': Observation)
    requires Holds(digest, before, s, want, o)
    requires o'.account == o.account && o'.identity == o.identity && o'.provider == o.provider && o'.policy == o.policy
    ensures Holds(digest, before, s, want, o')
  {
    hide SelectProvider, NormalizeIssuer, KeyFor, OwnershipLabels, Ownership.Select, Granted, TrimSpace;
  }

  lemma PatchedReads(v: Estate, ref: Ref, status: string, r: EnsureResult, stamp: string, script: Script)
    requires ref in v.accounts && FINALIZER in v.accounts[ref].finalizers
    requires PatchSa(v, ref, status, "", Some(r), stamp, script).ok
    ensures var v' := PatchSa(v, ref, status, "", Some(r), stamp, script).view;
            && v'.iam == v.iam && ref in v'.accounts
            && v'.accounts[ref].annotations == Reported(v.accounts[ref].annotations, status, "", Some(r), stamp)
  {
    hide Reported;
  }

  lemma PendingKeeps(v: Estate, ref: Ref, stamp: string, script: Script)
    requires ref in v.accounts && FINALIZER in v.accounts[ref].finalizers
    ensures var v' := PatchSa(v, ref, PENDING, "", None, stamp, script).view;
            v'.iam == v.iam && ref in v'.accounts && FINALIZER in v'.accounts[ref].finalizers
  {
    hide Reported;
  }

  lemma ProvidedIsTrue(digest: Digest, cfg: Config, v: Estate, ref: Ref, scopes: seq<string>, stamp: string,
                     script: Script)
    requires InOrder(v.iam) && ref in v.accounts && FINALIZER in v.accounts[ref].finalizers
    requires var e := Provide(digest, cfg, v, ref, v.accounts[ref], scopes, stamp, script); e.ok && e.requeue == No
    ensures var e := Provide(digest, cfg, v, ref, v.accounts[ref], scopes, stamp, script);
            && ref in e.view.accounts
            && var a := e.view.accounts[ref].annotations;
               Get(a, STATUS) == READY && LAST_ERROR !in a
               && Holds(digest, v.iam, e.view.iam, InputFrom(cfg, ref, v.accounts[ref].annotations, scopes), NamedBy(a))
  {
    hide InOrder, Exec, StartEnsure, PatchSa, Holds, NamedBy, Reported, ReadyWith, TrimSpace, ResultOf;
    PendingKeeps(v, ref, stamp, script);
    var pending := PatchSa(v, ref, PENDING, "", None, stamp, script);
    var want := InputFrom(cfg, ref, v.accounts[ref].annotations, scopes);
    var (p, s, rest) := Exec(digest, StartEnsure(want), pending.view.iam, pending.rest);
    EnsuredHolds(digest, cfg, want, pending.view.iam, pending.rest);
    var r := ResultOf(p.task);
    PatchedReads(pending.view.(iam := s), ref, READY, r, stamp, rest);
    ReportedReads(pending.view.accounts[ref].annotations, READY, r, stamp);
    var a := Reported(pending.view.accounts[ref].annotations, READY, "", Some(r), stamp);
    NamesOf(cfg, r);
    SameNamesHold(digest, v.iam, s, want, ReadyWith(cfg, r), NamedBy(a));
    StatusNamed(a);
  }

  /** The account is one to provide for: watched, opted in, held by the finalizer, staying, with usable references and
      scopes. */
  predicate ToServe(cfg: Config, v: Estate, ref: Ref) {
    && ref in v.accounts && cfg.Watches(ref.namespace)
    && var sa := v.accounts[ref];
       var role, policy := TrimSpace(Get(sa.annotations, ROLE)), TrimSpace(Get(sa.annotations, POLICY));
       && !sa.deleting && IsEnabled(sa.annotations) && FINALIZER in sa.finalizers
       && (role != "" || policy != "") && role != "*" && policy != "*"
       && ScopesOf(cfg, sa.annotations).Parsed?
  }

  function ScopesOf(cfg: Config, a: Annotations): Scopes.ScopeResult {
    Scopes.ParseText(cfg.known, Get(a, SCOPES))
  }

  /** A pass over an account to provide for that ends well without asking to run again, through whatever faults, has
      written the ready status and identities that are true of the store. */
  lemma ServedIsTrue(digest: Digest, cfg: Config, v: Estate, ref: Ref, stamp: string, script: Script)
    requires InOrder(v.iam) && ToServe(cfg, v, ref)
    requires var e := ReconcileSa(digest, cfg, v, ref, stamp, script); e.ok && e.requeue == No
    ensures var e := ReconcileSa(digest, cfg, v, ref, stamp, script);
            var had := v.accounts[ref].annotations;
            && ref in e.view.accounts
            && var a := e.view.accounts[ref].annotations;
               Get(a, STATUS) == READY && LAST_ERROR !in a
               && Holds(digest, v.iam, e.view.iam, InputFrom(cfg, ref, had, ScopesOf(cfg, had).scopes), NamedBy(a))
  {
    hide InOrder, Provide, Holds, NamedBy, TrimSpace, Scopes.ParseText, IsEnabled, Config.Watches, InputFrom;
    ProvidedIsTrue(digest, cfg, v, ref, ScopesOf(cfg, v.accounts[ref].annotations).scopes, stamp, Tail(script));
  }

  lemma NamesOf(cfg: Config, r: EnsureResult)
    ensures var o := ReadyWith(cfg, r);
            o.account == r.account && o.identity == r.identity && o.provider == r.provider && o.policy == r.policy
  {}

  lemma StatusNamed(a: Annotations)
    ensures NamedBy(a).phase == Get(a, STATUS)
  {}
}
