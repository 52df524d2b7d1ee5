/** What the annotation controller takes from the configuration and from the annotations. */
module LegacyConfigured {
  import opened Strings
  import opened Subject
  import opened Store
  import opened Protocol
  import opened Safety
  import opened Kube
  import opened Reconcile
  import opened Legacy
  import opened Configured
  import Conditions
  import LegacyLeaks
  import LegacyTruth
  import Making
  import Scopes

  /** A reference of an account, as annotated. */
  function PolicyRef(a: Annotations): string {
    Get(a, "thalassa.cloud/wif.policy")
  }

  function RoleRef(a: Annotations): string {
    Get(a, "thalassa.cloud/wif.role")
  }

  /** The account has opted in. */
  predicate OptedIn(a: Annotations) {
    EqualFold(TrimSpace(Get(a, "thalassa.cloud/wif.enabled")), "true")
  }

  lemma Keys(a: Annotations)
    ensures Get(a, POLICY) == PolicyRef(a) && Get(a, ROLE) == RoleRef(a) && (IsEnabled(a) <==> OptedIn(a))
  {
    hide TrimSpace, EqualFold;
  }

  /** The account is one that a pass provides for. */
  predicate InUse(cfg: Config, v: Estate, ref: Ref) {
    && ref in v.accounts && !v.accounts[ref].deleting && FINALIZER in v.accounts[ref].finalizers
    && OptedIn(v.accounts[ref].annotations) && (cfg.watch == [] || ref.namespace in cfg.watch)
  }

  /** A grant on behalf of an account. */
  ghost predicate Due(cfg: Config, v: Estate, ref: Ref, slot: Slot, b: Binding)
    requires ref in v.accounts
  {
    var a := v.accounts[ref].annotations;
    MayGrant(cfg, v.iam.directory, PolicyRef(a), RoleRef(a), slot) && Marked(b, ref.namespace, ref.name)
  }

  lemma PatchKeepsStore(v: Estate, ref: Ref, status: string, lastError: string, result: Option<EnsureResult>,
                        stamp: string, script: Script)
    ensures PatchSa(v, ref, status, lastError, result, stamp, script).view.iam == v.iam
  {
    hide Reported;
  }

  lemma InputRefs(cfg: Config, ref: Ref, a: Annotations, scopes: seq<string>, kind: Kind)
    ensures var want := InputFrom(cfg, ref, a, scopes);
            && want.Ref(kind) == Asked(PolicyRef(a), RoleRef(a), kind)
            && want.Allowed(kind) == Restriction(cfg, kind)
            && want.namespace == ref.namespace && want.name == ref.name
  {
    hide TrimSpace;
    Keys(a);
    TrimTwice(Get(a, ROLE));
    TrimTwice(Get(a, POLICY));
  }

  lemma ProvideAdds(digest: Digest, cfg: Config, v: Estate, ref: Ref, scopes: seq<string>, stamp: string,
                    script: Script, slot: Slot, b: Binding)
    requires ref in v.accounts && b !in v.iam.At(slot)
    requires b in Provide(digest, cfg, v, ref, v.accounts[ref], scopes, stamp, script).view.iam.At(slot)
    ensures Due(cfg, v, ref, slot, b)
  {
    hide Exec, StartEnsure, PatchSa, TrimSpace, MayGrant, InputFrom, ResultOf, PolicyRef, RoleRef;
    var a := v.accounts[ref].annotations;
    PatchKeepsStore(v, ref, PENDING, "", None, stamp, script);
    var pending := PatchSa(v, ref, PENDING, "", None, stamp, script);
    var want := InputFrom(cfg, ref, a, scopes);
    var (p, s, rest) := Exec(digest, StartEnsure(want), pending.view.iam, pending.rest);
    var v' := pending.view.(iam := s);
    if p.Ensured? { PatchKeepsStore(v', ref, Conditions.READY, "", Some(ResultOf(p.task)), stamp, rest); }
    PatchKeepsStore(v', ref, PENDING, "ProviderNotReady", None, stamp, rest);
    PatchKeepsStore(v', ref, ERROR, "EnsureFailed", None, stamp, rest);
    EnsureAdds(digest, want, v.iam, pending.rest, slot, b);
    InputRefs(cfg, ref, a, scopes, slot.kind);
    VettedMayGrant(cfg, v.iam.directory, want, PolicyRef(a), RoleRef(a), slot);
  }

  lemma LetGoAdds(digest: Digest, cfg: Config, v: Estate, ref: Ref, sa: KubeAccount, stamp: string, script: Script,
                  slot: Slot, b: Binding)
    ensures b in LetGo(digest, cfg, v, ref, sa, stamp, script).view.iam.At(slot) ==> b in v.iam.At(slot)
  {
    hide DeleteCloudOf, PatchSa, DeletesResources;
    CloudAddsNone(digest, cfg, v, ref, sa.annotations, script, slot, b);
    var gone := DeleteCloudOf(digest, cfg, v, ref, sa.annotations, script);
    PatchKeepsStore(gone.view, ref, ERROR, "DeleteFailed", None, stamp, gone.rest);
  }

  lemma CloudAddsNone(digest: Digest, cfg: Config, v: Estate, ref: Ref, a: Annotations, script: Script, slot: Slot,
                      b: Binding)
    ensures b in DeleteCloudOf(digest, cfg, v, ref, a, script).view.iam.At(slot) ==> b in v.iam.At(slot)
  {
    hide Exec, StartDelete, SelectProvider, NormalizeIssuer, Blank, PolicyOf;
    var choice := SelectProvider(v.iam.providers, cfg.cluster);
    if choice.OneProvider? {
      DeleteAdds(digest, ref.namespace, ref.name, NormalizeIssuer(choice.provider.issuer), Get(a, ROLE), PolicyOf(a),
                 v.iam, Tail(script), slot, b);
    }
  }

  /** A binding that a pass adds is one the account asks for and the configuration lists. */
  lemma PassAdds(digest: Digest, cfg: Config, v: Estate, ref: Ref, stamp: string, script: Script, slot: Slot,
                 b: Binding)
    requires b in ReconcileSa(digest, cfg, v, ref, stamp, script).view.iam.At(slot) && b !in v.iam.At(slot)
    ensures InUse(cfg, v, ref) && Due(cfg, v, ref, slot, b)
  {
    hide Provide, LetGo, PatchSa, TrimSpace, Scopes.ParseText, IsEnabled, OptedIn, Due;
    var sa, rest := v.accounts[ref], Tail(script);
    Keys(sa.annotations);
    PatchKeepsStore(v, ref, ERROR, "MissingReference", None, stamp, rest);
    PatchKeepsStore(v, ref, ERROR, "Wildcard", None, stamp, rest);
    PatchKeepsStore(v, ref, ERROR, "InvalidScopes", None, stamp, rest);
    LetGoAdds(digest, cfg, v, ref, sa, stamp, rest, slot, b);
    var r := Scopes.ParseText(cfg.known, Get(sa.annotations, SCOPES));
    if r.Parsed? && b in Provide(digest, cfg, v, ref, sa, r.scopes, stamp, rest).view.iam.At(slot) {
      ProvideAdds(digest, cfg, v, ref, r.scopes, stamp, rest, slot, b);
    }
  }

  /** At this moment of the run a pass over an account in use may grant the slot. */
  ghost predicate GrantedAt(digest: Digest, cfg: Config, v: Estate, es: seq<LegacyLeaks.Event>, n: nat, slot: Slot,
                            b: Binding)
    requires n < |es|
  {
    var moment := LegacyLeaks.Run(digest, cfg, v, es[..n]);
    es[n].Pass? && InUse(cfg, moment, es[n].ref) && Due(cfg, moment, es[n].ref, slot, b)
  }

  /** The configuration over whole runs: each binding that was not there at the start was added by a pass over an
      account in use, is marked with it, and is for a target that the directory answered then for the account's own
      annotation and that the list for its kind, if there is one, names. */
  lemma {:induction false} OnlyListedOverRuns(digest: Digest, cfg: Config, v: Estate, es: seq<LegacyLeaks.Event>,
                                              slot: Slot, b: Binding)
    returns (n: nat)
    requires b in LegacyLeaks.Run(digest, cfg, v, es).iam.At(slot) && b !in v.iam.At(slot)
    ensures n < |es| && GrantedAt(digest, cfg, v, es, n, slot, b)
    decreases |es|
  {
    hide LegacyLeaks.Next, InUse, Due;
    var e := es[0];
    var v1 := LegacyLeaks.Next(digest, cfg, v, e);
    if b in v1.iam.At(slot) {
      assert es[..0] == [];
      NextAdds(digest, cfg, v, e, slot, b);
      n := 0;
    } else {
      n := OnlyListedOverRuns(digest, cfg, v1, es[1..], slot, b);
      assert es[..n + 1][1..] == es[1..][..n] && es[..n + 1][0] == e;
      n := n + 1;
    }
  }

  lemma NextAdds(digest: Digest, cfg: Config, v: Estate, e: LegacyLeaks.Event, slot: Slot, b: Binding)
    requires b in LegacyLeaks.Next(digest, cfg, v, e).iam.At(slot) && b !in v.iam.At(slot)
    ensures e.Pass? && InUse(cfg, v, e.ref) && Due(cfg, v, e.ref, slot, b)
  {
    hide ReconcileSa, Due, InUse;
    if e.Pass? { PassAdds(digest, cfg, v, e.ref, e.stamp, e.script, slot, b); }
  }

  // ---- what is made

  /** The parts of a comma-separated text. */
  function Parts(text: string): seq<string> {
    Split(TrimSpace(text), ',')
  }

  lemma ParsedText(known: set<string>, text: string)
    requires Scopes.ParseText(known, text).Parsed?
    ensures Making.ScopesGiven(Scopes.ParseText(known, text).scopes, Parts(text))
  {
    hide TrimSpace;
    EmptyIsBlank();
    if TrimSpace(text) == "" {
      NoWordsIff(Parts(text));
      NoWordsIff([]);
    }
    Making.ParsedScopes(known, Parts(text));
  }

  /** A pass over an account to provide for, that ends well and is done, has left the identity it names with the
      audiences of the configuration and the scopes annotated, named after the annotated name or else a key. An account
      that was not there before is named likewise, and noted for its Kubernetes account. */
  lemma ServedAsConfigured(digest: Digest, cfg: Config, v: Estate, ref: Ref, stamp: string, script: Script)
    returns (x: ServiceAccount, y: FederatedIdentity, key: string)
    requires Sound(v.iam) && LegacyTruth.ToServe(cfg, v, ref)
    requires var e := ReconcileSa(digest, cfg, v, ref, stamp, script); e.ok && e.requeue == No
    ensures var e := ReconcileSa(digest, cfg, v, ref, stamp, script);
            var had := v.accounts[ref].annotations;
            && ref in e.view.accounts
            && var a := e.view.accounts[ref].annotations;
            && Get(a, "thalassa.cloud/wif.status") == "Ready" && Get(a, "thalassa.cloud/wif.last-reconcile") == stamp
            && x in e.view.iam.accounts && x.id == Get(a, "thalassa.cloud/wif.service-account-id")
            && y in e.view.iam.identities && y.id == Get(a, "thalassa.cloud/wif.federated-identity-id")
            && multiset(y.info.audiences) == multiset(cfg.audiences)
            && Making.ScopesGiven(y.info.scopes, Parts(Get(had, "thalassa.cloud/wif.scopes")))
            && y.name == Making.IdentityTitle(Get(had, "thalassa.cloud/wif.name"), key)
            && (x !in v.iam.accounts ==>
                  x.name == Making.AccountTitle(Get(had, "thalassa.cloud/wif.name"), key)
                  && x.info.annotations == Making.AccountNotes(ref.namespace, ref.name))
  {
    hide Exec, StartEnsure, PatchSa, TrimSpace, Scopes.ParseText, IsEnabled, Config.Watches, ResultOf, Sound, Parts,
      Making.ScopesGiven, Making.IdentityTitle, Making.AccountTitle, Making.AccountNotes, Reported;
    var a, rest := v.accounts[ref].annotations, Tail(script);
    var scopes := LegacyTruth.ScopesOf(cfg, a).scopes;
    x, y, key := ProvidedAsConfigured(digest, cfg, v, ref, scopes, stamp, rest);
    ParsedText(cfg.known, Get(a, SCOPES));
    Making.SameScopes(y.info.scopes, scopes, Parts(Get(a, SCOPES)));
  }

  lemma ProvidedAsConfigured(digest: Digest, cfg: Config, v: Estate, ref: Ref, scopes: seq<string>, stamp: string,
                             script: Script)
    returns (x: ServiceAccount, y: FederatedIdentity, key: string)
    requires Sound(v.iam) && ref in v.accounts && FINALIZER in v.accounts[ref].finalizers
    requires var e := Provide(digest, cfg, v, ref, v.accounts[ref], scopes, stamp, script); e.ok && e.requeue == No
    ensures var e := Provide(digest, cfg, v, ref, v.accounts[ref], scopes, stamp, script);
            var want := InputFrom(cfg, ref, v.accounts[ref].annotations, scopes);
            && ref in e.view.accounts
            && var a := e.view.accounts[ref].annotations;
            && Get(a, STATUS) == Conditions.READY && Get(a, LAST_RECONCILE) == stamp
            && x in e.view.iam.accounts && x.id == Get(a, ACCOUNT_ID)
            && y in e.view.iam.identities && y.id == Get(a, IDENTITY_ID)
            && Making.AsAsked(v.iam, want, key, x, y)
  {
    hide Exec, StartEnsure, PatchSa, TrimSpace, Sound, Making.AsAsked, Reported, InputFrom;
    LegacyTruth.PendingKeeps(v, ref, stamp, script);
    var pending := PatchSa(v, ref, PENDING, "", None, stamp, script);
    var want := InputFrom(cfg, ref, v.accounts[ref].annotations, scopes);
    var (p, s, rest) := Exec(digest, StartEnsure(want), pending.view.iam, pending.rest);
    x, y := Making.EnsuredAsAsked(digest, want, v.iam, pending.rest);
    key := p.task.job.key;
    var r := ResultOf(p.task);
    LegacyTruth.PatchedReads(pending.view.(iam := s), ref, Conditions.READY, r, stamp, rest);
    LegacyTruth.ReportedReads(pending.view.accounts[ref].annotations, Conditions.READY, r, stamp);
  }
}
