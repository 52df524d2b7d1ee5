/** A pass over an annotated ServiceAccount that ends without wanting to run again has nothing left to do; what it
    tells; and what it leaves alone. */
module LegacyDiligence {
  import opened Strings
  import opened Subject
  import opened Store
  import opened Protocol
  import opened Kube
  import opened Resolution
  import opened Reconcile
  import opened Recovery
  import opened Legacy
  import opened LegacyConfigured
  import Conditions
  import Diligence
  import LegacyDeparture
  import LegacyTruth
  import Providers
  import Requirements
  import Restoration
  import Scopes

  /** The account goes, or has not opted in. */
  predicate Leaving(sa: KubeAccount) {
    sa.deleting || !OptedIn(sa.annotations)
  }

  /** Only the user can help: no reference is annotated, or one to everything, or scopes that are not known. */
  predicate Unusable(cfg: Config, a: Annotations) {
    || (TrimSpace(PolicyRef(a)) == "" && TrimSpace(RoleRef(a)) == "")
    || TrimSpace(PolicyRef(a)) == "*" || TrimSpace(RoleRef(a)) == "*"
    || Diligence.BadScopes(cfg.known, Parts(Get(a, "thalassa.cloud/wif.scopes")))
  }

  /** No provider carries the cluster's label. */
  predicate Unprovided(cfg: Config, v: Estate) {
    forall i | 0 <= i < |v.iam.providers| :: !Providers.Carries(v.iam.providers[i], cfg.cluster)
  }

  /** The annotations tell this status, with or without an error, as of this pass; the identities are those of
      before. */
  ghost predicate Tells(a: Annotations, had: Annotations, status: string, failed: bool, stamp: string) {
    && Get(a, "thalassa.cloud/wif.status") == status && Get(a, "thalassa.cloud/wif.last-reconcile") == stamp
    && (failed <==> Get(a, "thalassa.cloud/wif.last-error") != "")
    && forall k | k !in {"thalassa.cloud/wif.status", "thalassa.cloud/wif.last-reconcile",
                         "thalassa.cloud/wif.last-error"} :: Get(a, k) == Get(had, k)
  }

  lemma TextIff(known: set<string>, text: string)
    ensures Scopes.ParseText(known, text).Parsed? <==> !Diligence.BadScopes(known, Parts(text))
  {
    hide TrimSpace;
    EmptyIsBlank();
    Diligence.BadScopesIff(known, Parts(text));
    if TrimSpace(text) == "" { NoWordsIff(Parts(text)); NoWordsIff([]); }
  }

  lemma ReportedTells(a: Annotations, status: string, error: string, stamp: string)
    ensures var b := Reported(a, status, error, None, stamp);
            && Tells(b, a, status, error != "", stamp)
            && Get(b, "thalassa.cloud/wif.last-error") == if |error| > 1024 then error[..1024] else error
  {}

  lemma ToldTells(v: Estate, ref: Ref, status: string, error: string, stamp: string, script: Script)
    requires ref in v.accounts && FINALIZER in v.accounts[ref].finalizers
    ensures var r := PatchSa(v, ref, status, error, None, stamp, script);
            && r.view.iam == v.iam && ref in r.view.accounts
            && r.view.accounts[ref].finalizers == v.accounts[ref].finalizers
            && (Clean(script) ==>
                  Tells(r.view.accounts[ref].annotations, v.accounts[ref].annotations, status, error != "", stamp))
  {
    hide Reported, Clean, Tells;
    if Clean(script) {
      CleanParts(script);
      CleanParts(Tail(script));
    }
    ReportedTells(v.accounts[ref].annotations, status, error, stamp);
  }

  lemma TellsTwice(a: Annotations, b: Annotations, had: Annotations, status: string, status': string, failed: bool,
                   failed': bool, stamp: string)
    requires Tells(b, had, status, failed, stamp) && Tells(a, b, status', failed', stamp)
    ensures Tells(a, had, status', failed', stamp)
  {}

  // ---- one pass

  /** How a pass that serves ends. */
  ghost predicate ServedTells(cfg: Config, v: Estate, e: Ending, ref: Ref, stamp: string, clean: bool)
    requires ref in v.accounts
  {
    && e.requeue != Now && (e.requeue == Later ==> e.ok && Unprovided(cfg, v)) && ref in e.view.accounts
    && var a, had := e.view.accounts[ref].annotations, v.accounts[ref].annotations;
       && (e.ok && e.requeue == No ==>
             Get(a, "thalassa.cloud/wif.status") == "Ready" && Get(a, "thalassa.cloud/wif.last-reconcile") == stamp
             && Get(a, "thalassa.cloud/wif.last-error") == "")
       && (clean && !e.ok ==> Tells(a, had, "Error", true, stamp))
       && (clean && e.requeue == Later ==> Tells(a, had, "Pending", true, stamp))
  }

  lemma ProvideTells(digest: Digest, cfg: Config, v: Estate, ref: Ref, scopes: seq<string>, stamp: string,
                     script: Script)
    requires ref in v.accounts && FINALIZER in v.accounts[ref].finalizers
    ensures ServedTells(cfg, v, Provide(digest, cfg, v, ref, v.accounts[ref], scopes, stamp, script), ref, stamp,
                        Clean(script))
  {
    hide Exec, StartEnsure, PatchSa, TrimSpace, InputFrom, ResultOf, Tells, Clean, Reported, Unprovided;
    var sa := v.accounts[ref];
    ToldTells(v, ref, PENDING, "", stamp, script);
    var pending := PatchSa(v, ref, PENDING, "", None, stamp, script);
    var want := InputFrom(cfg, ref, sa.annotations, scopes);
    var (p, s, rest) := Exec(digest, StartEnsure(want), pending.view.iam, pending.rest);
    var v' := pending.view.(iam := s);
    if Clean(script) {
      StaysClean(v, ref, stamp, script);
      CleanExec(digest, StartEnsure(want), pending.view.iam, pending.rest);
    }
    if p.Ensured? {
      FinallyReady(v', ref, ResultOf(p.task), stamp, rest);
    } else {
      var waits := p == Stopped(ProviderNotReady);
      var error, status := if waits then "ProviderNotReady" else "EnsureFailed", if waits then PENDING else ERROR;
      ToldTells(v', ref, status, error, stamp, rest);
      if waits { WaitsForOne(digest, cfg, ref, sa.annotations, scopes, v, pending.rest); }
      if Clean(script) {
        TellsTwice(PatchSa(v', ref, status, error, None, stamp, rest).view.accounts[ref].annotations,
                   v'.accounts[ref].annotations, sa.annotations, PENDING, status, false, true, stamp);
      }
    }
  }

  lemma WaitsForOne(digest: Digest, cfg: Config, ref: Ref, a: Annotations, scopes: seq<string>, v: Estate,
                    script: Script)
    requires Exec(digest, StartEnsure(InputFrom(cfg, ref, a, scopes)), v.iam, script).0 == Stopped(ProviderNotReady)
    ensures Unprovided(cfg, v)
  {
    hide Exec, StartEnsure, TrimSpace, Providers.Carries;
    Diligence.NotReadyIsUnprovided(digest, InputFrom(cfg, ref, a, scopes), v.iam, script);
  }

  lemma StaysClean(v: Estate, ref: Ref, stamp: string, script: Script)
    requires Clean(script)
    ensures Clean(PatchSa(v, ref, PENDING, "", None, stamp, script).rest)
  {
    hide Clean, Reported;
    CleanParts(script);
    CleanParts(Tail(script));
  }

  lemma FinallyReady(v: Estate, ref: Ref, r: EnsureResult, stamp: string, script: Script)
    requires ref in v.accounts && FINALIZER in v.accounts[ref].finalizers
    ensures var told := PatchSa(v, ref, Conditions.READY, "", Some(r), stamp, script);
            && ref in told.view.accounts && (Clean(script) ==> told.ok)
            && var a := told.view.accounts[ref].annotations;
               told.ok ==> Get(a, "thalassa.cloud/wif.status") == "Ready"
                           && Get(a, "thalassa.cloud/wif.last-reconcile") == stamp
                           && Get(a, "thalassa.cloud/wif.last-error") == ""
  {
    hide Clean;
    if Clean(script) {
      CleanParts(script);
      CleanParts(Tail(script));
    }
  }

  /** What a pass over an account may leave without asking to run again: nothing to do, the account let go, ready as of
      this pass, or something only the user can help. */
  predicate Done(cfg: Config, v: Estate, v': Estate, ref: Ref, stamp: string) {
    || ref !in v.accounts || !Diligence.Watched(cfg, ref.namespace)
    || (Leaving(v.accounts[ref]) && (ref in v'.accounts ==> FINALIZER !in v'.accounts[ref].finalizers))
    || (!Leaving(v.accounts[ref]) && ref in v'.accounts
        && var a := v'.accounts[ref].annotations;
           || Unusable(cfg, v.accounts[ref].annotations)
           || (Get(a, "thalassa.cloud/wif.status") == "Ready" && Get(a, "thalassa.cloud/wif.last-reconcile") == stamp
               && Get(a, "thalassa.cloud/wif.last-error") == ""))
  }

  predicate HeldAndWatched(cfg: Config, v: Estate, ref: Ref)
    requires ref in v.accounts
  {
    Diligence.Watched(cfg, ref.namespace) && FINALIZER in v.accounts[ref].finalizers
  }

  /** Without faults, every account that is watched and held is told how the pass ended: an error, or a mistake only the
      user can help, with the text of the error; waiting for a provider likewise. */
  ghost predicate Told(cfg: Config, v: Estate, e: Ending, ref: Ref, stamp: string)
    requires ref in v.accounts
  {
    var had := v.accounts[ref].annotations;
    && (!e.ok || (!Leaving(v.accounts[ref]) && Unusable(cfg, had)) ==>
          ref in e.view.accounts && Tells(e.view.accounts[ref].annotations, had, "Error", true, stamp))
    && (e.requeue == Later ==>
          ref in e.view.accounts && Tells(e.view.accounts[ref].annotations, had, "Pending", true, stamp))
  }

  /** The account gets the controller's finalizer, and is otherwise as it was. */
  predicate Claimed(v: Estate, v': Estate, ref: Ref)
    requires ref in v.accounts
  {
    var sa := v.accounts[ref];
    v'.iam == v.iam
    && v'.accounts == v.accounts[ref := sa.(finalizers := sa.finalizers + ["thalassa.cloud/wif-finalizer"])]
  }

  lemma LeavingDone(digest: Digest, cfg: Config, v: Estate, ref: Ref, stamp: string, script: Script)
    requires ref in v.accounts && FINALIZER in v.accounts[ref].finalizers && Leaving(v.accounts[ref])
    ensures var e := LetGo(digest, cfg, v, ref, v.accounts[ref], stamp, script);
            && e.requeue == No
            && (e.ok ==> ref in e.view.accounts ==> FINALIZER !in e.view.accounts[ref].finalizers)
            && (Clean(script) ==> Told(cfg, v, e, ref, stamp))
  {
    hide DeletesResources, PatchSa, Clean, Tells, DeleteCloudOf, Unusable, OptedIn;
    var sa := v.accounts[ref];
    CloudKeepsAccounts(digest, cfg, v, ref, sa.annotations, script);
    DropStringFacts(sa.finalizers, FINALIZER);
    var gone := DeleteCloudOf(digest, cfg, v, ref, sa.annotations, script);
    ToldTells(gone.view, ref, ERROR, "DeleteFailed", stamp, gone.rest);
    if Clean(script) {
      CleanParts(script);
      CleanParts(gone.rest);
    }
  }

  lemma CloudKeepsAccounts(digest: Digest, cfg: Config, v: Estate, ref: Ref, a: Annotations, script: Script)
    ensures var r := DeleteCloudOf(digest, cfg, v, ref, a, script);
            r.view.accounts == v.accounts && (Clean(script) ==> Clean(r.rest))
  {
    hide Exec, StartDelete, SelectProvider, NormalizeIssuer, Blank, PolicyOf, Clean;
    if Clean(script) {
      CleanParts(script);
      var choice := SelectProvider(v.iam.providers, cfg.cluster);
      if choice.OneProvider? {
        CleanExec(digest, StartDelete(digest, ref.namespace, ref.name, NormalizeIssuer(choice.provider.issuer),
                                      Get(a, ROLE), PolicyOf(a)), v.iam, Tail(script));
      }
    }
  }

  lemma StayingDone(digest: Digest, cfg: Config, v: Estate, ref: Ref, stamp: string, script: Script)
    requires ref in v.accounts && FINALIZER in v.accounts[ref].finalizers && !Leaving(v.accounts[ref])
    requires Diligence.Watched(cfg, ref.namespace) && Head(script) == Ok
    ensures var e := ReconcileSa(digest, cfg, v, ref, stamp, script);
            && e.requeue != Now && (e.requeue == Later ==> e.ok && Unprovided(cfg, v))
            && (e.ok && e.requeue == No ==> Done(cfg, v, e.view, ref, stamp))
            && (Clean(script) ==> Told(cfg, v, e, ref, stamp))
  {
    hide Provide, PatchSa, TrimSpace, Scopes.ParseText, IsEnabled, OptedIn, Tells, Clean, Parts, Unprovided,
      Diligence.BadScopes;
    var sa, rest := v.accounts[ref], Tail(script);
    Keys(sa.annotations);
    if Clean(script) { CleanParts(script); }
    TextIff(cfg.known, Get(sa.annotations, SCOPES));
    ToldTells(v, ref, ERROR, "MissingReference", stamp, rest);
    ToldTells(v, ref, ERROR, "Wildcard", stamp, rest);
    ToldTells(v, ref, ERROR, "InvalidScopes", stamp, rest);
    var r := Scopes.ParseText(cfg.known, Get(sa.annotations, SCOPES));
    if r.Parsed? { ProvideTells(digest, cfg, v, ref, r.scopes, stamp, rest); }
  }

  /** Nothing is forgotten: through whatever faults, a pass that returns no error and does not ask to run again has
      nothing left to do; it asks to run at once only after adding its finalizer, and later only while no provider
      carries the cluster's label. Without faults, the account is told of every error. */
  lemma NothingForgotten(digest: Digest, cfg: Config, v: Estate, ref: Ref, stamp: string, script: Script)
    ensures var e := ReconcileSa(digest, cfg, v, ref, stamp, script);
            && (e.ok && e.requeue == No ==> Done(cfg, v, e.view, ref, stamp))
            && (e.requeue == Now ==>
                  && ref in v.accounts && FINALIZER !in v.accounts[ref].finalizers && !Leaving(v.accounts[ref])
                  && Claimed(v, e.view, ref))
            && (e.requeue == Later ==> e.ok && Unprovided(cfg, v))
            && (Clean(script) && ref in v.accounts && HeldAndWatched(cfg, v, ref) ==> Told(cfg, v, e, ref, stamp))
  {
    hide Clean, OptedIn, Provide, LetGo, PatchSa, TrimSpace, Scopes.ParseText, IsEnabled, Told, Done, Unprovided;
    if Clean(script) { CleanParts(script); }
    if Head(script) == Ok && ref in v.accounts && Diligence.Watched(cfg, ref.namespace) {
      var sa, rest := v.accounts[ref], Tail(script);
      Keys(sa.annotations);
      if FINALIZER in sa.finalizers && !Leaving(sa) {
        StayingDone(digest, cfg, v, ref, stamp, script);
      } else {
        if FINALIZER in sa.finalizers { LeavingDone(digest, cfg, v, ref, stamp, rest); }
        OthersDone(digest, cfg, v, ref, stamp, script);
      }
    } else {
      NotHere(digest, cfg, v, ref, stamp, script);
    }
  }

  lemma NotHere(digest: Digest, cfg: Config, v: Estate, ref: Ref, stamp: string, script: Script)
    requires Head(script) != Ok || ref !in v.accounts || !Diligence.Watched(cfg, ref.namespace)
    ensures var e := ReconcileSa(digest, cfg, v, ref, stamp, script);
            && e.view == v && e.requeue == No && (e.ok ==> Done(cfg, v, e.view, ref, stamp))
  {}

  lemma OthersDone(digest: Digest, cfg: Config, v: Estate, ref: Ref, stamp: string, script: Script)
    requires ref in v.accounts && Diligence.Watched(cfg, ref.namespace) && Head(script) == Ok
    requires FINALIZER !in v.accounts[ref].finalizers || Leaving(v.accounts[ref])
    requires FINALIZER in v.accounts[ref].finalizers ==>
               var e := LetGo(digest, cfg, v, ref, v.accounts[ref], stamp, Tail(script));
               e.requeue == No && (e.ok ==> ref in e.view.accounts ==> FINALIZER !in e.view.accounts[ref].finalizers)
    ensures var e := ReconcileSa(digest, cfg, v, ref, stamp, script);
            && (FINALIZER in v.accounts[ref].finalizers ==>
                  e == LetGo(digest, cfg, v, ref, v.accounts[ref], stamp, Tail(script)))
            && (e.ok && e.requeue == No ==> Done(cfg, v, e.view, ref, stamp))
            && (e.requeue == Now ==>
                  && FINALIZER !in v.accounts[ref].finalizers && !Leaving(v.accounts[ref])
                  && Claimed(v, e.view, ref))
            && e.requeue != Later
  {
    hide LetGo, OptedIn, IsEnabled, Unusable;
    var sa := v.accounts[ref];
    Keys(sa.annotations);
  }

  // ---- what is left alone

  /** An account that is not watched, or that has neither opted in nor the controller's finalizer, is left as it is, and
      so is everything else. */
  lemma OthersAreLeftAlone(digest: Digest, cfg: Config, v: Estate, ref: Ref, stamp: string, script: Script)
    requires ref in v.accounts
    requires || !Diligence.Watched(cfg, ref.namespace)
             || (FINALIZER !in v.accounts[ref].finalizers && Leaving(v.accounts[ref]))
    ensures ReconcileSa(digest, cfg, v, ref, stamp, script).view == v
  {
    hide OptedIn, IsEnabled, LetGo, PatchSa, Provide;
    Keys(v.accounts[ref].annotations);
  }

  // ---- what success needs

  /** What an account needs to be served. */
  ghost predicate Fit(cfg: Config, v: Estate, ref: Ref)
    requires ref in v.accounts
  {
    var a := v.accounts[ref].annotations;
    && Requirements.ProperNames(ref.namespace, ref.name) && !Unusable(cfg, a)
    && TrimSpace(cfg.cluster) != "" && cfg.audiences != []
    && Requirements.ProviderWithIssuer(v.iam.providers, cfg.cluster)
    && Requirements.RefWorks(v.iam.directory, Policy, PolicyRef(a), cfg.allowedPolicies)
    && Requirements.RefWorks(v.iam.directory, Role, RoleRef(a), cfg.allowedRoles)
  }

  lemma FitIff(cfg: Config, v: Estate, ref: Ref)
    requires ref in v.accounts && HeldAndWatched(cfg, v, ref) && !Leaving(v.accounts[ref])
    ensures LegacyDeparture.CanBeServed(cfg, v, ref) <==> Fit(cfg, v, ref)
    ensures LegacyTruth.ToServe(cfg, v, ref) <==> !Unusable(cfg, v.accounts[ref].annotations)
  {
    hide TrimSpace, Scopes.ParseText, Requirements.ProviderWithIssuer, Requirements.RefWorks, Diligence.BadScopes,
      Provisionable, OptedIn, IsEnabled, Parts;
    var a := v.accounts[ref].annotations;
    Keys(a);
    TextIff(cfg.known, Get(a, SCOPES));
    var want := LegacyDeparture.Wanted(cfg, ref, a);
    Requirements.SuppliedIff(v.iam.providers, v.iam.directory, want);
    TrimTwice(PolicyRef(a));
    TrimTwice(RoleRef(a));
    RefTrims(v.iam.directory, Policy, PolicyRef(a), cfg.allowedPolicies);
    RefTrims(v.iam.directory, Role, RoleRef(a), cfg.allowedRoles);
    if LegacyTruth.ScopesOf(cfg, a).Parsed? { TextGivesSome(cfg.known, Get(a, SCOPES)); }
  }

  lemma RefTrims(d: Directory, kind: Kind, ref: string, allowlist: seq<string>)
    ensures Requirements.RefWorks(d, kind, TrimSpace(ref), allowlist)
       <==> Requirements.RefWorks(d, kind, ref, allowlist)
  {
    hide TrimSpace, Resolve;
    TrimTwice(ref);
  }

  lemma TextGivesSome(known: set<string>, text: string)
    requires Scopes.ParseText(known, text).Parsed?
    ensures Scopes.ParseText(known, text).scopes != []
  {
    hide TrimSpace, Words, Scopes.Canonical;
    Requirements.SomeScope(known, Words(if TrimSpace(text) == "" then [] else Parts(text)));
  }

  /** A fault-free pass over an account in use tells that it is ready if and only if it has what it needs. */
  lemma ReadyWhen(digest: Digest, cfg: Config, v: Estate, ref: Ref, stamp: string)
    requires ref in v.accounts && HeldAndWatched(cfg, v, ref) && !Leaving(v.accounts[ref])
    ensures var e := ReconcileSa(digest, cfg, v, ref, stamp, []);
            && ref in e.view.accounts
            && (Get(e.view.accounts[ref].annotations, "thalassa.cloud/wif.status") == "Ready" <==> Fit(cfg, v, ref))
  {
    hide ReconcileSa, Fit, LegacyDeparture.CanBeServed, Unusable, OptedIn, LegacyTruth.ToServe, Clean,
      LegacyDeparture.AfterServing;
    Restoration.NoneIsClean();
    FitIff(cfg, v, ref);
    NothingForgotten(digest, cfg, v, ref, stamp, []);
    if Fit(cfg, v, ref) {
      LegacyDeparture.ServedPass(digest, cfg, v, ref, stamp);
      var p := Exec(digest, StartEnsure(LegacyDeparture.Wanted(cfg, ref, v.accounts[ref].annotations)), v.iam, []).0;
      LegacyDeparture.Serving(v.accounts[ref].annotations, ResultOf(p.task), stamp);
    } else if !Unusable(cfg, v.accounts[ref].annotations) {
      NotServed(digest, cfg, v, ref, stamp);
    }
  }

  lemma NotServed(digest: Digest, cfg: Config, v: Estate, ref: Ref, stamp: string)
    requires LegacyTruth.ToServe(cfg, v, ref) && !LegacyDeparture.CanBeServed(cfg, v, ref)
    ensures var e := ReconcileSa(digest, cfg, v, ref, stamp, []); !e.ok || e.requeue == Later
  {
    hide Exec, StartEnsure, PatchSa, TrimSpace, Scopes.ParseText, IsEnabled, Config.Watches, ResultOf, Provisionable,
      Clean, InputFrom;
    Restoration.NoneIsClean();
    var want := LegacyDeparture.Wanted(cfg, ref, v.accounts[ref].annotations);
    EnsureCompletesIff(digest, want, v.iam);
    LegacyTruth.PendingKeeps(v, ref, stamp, []);
    StaysClean(v, ref, stamp, []);
    CleanExec(digest, StartEnsure(want), v.iam, PatchSa(v, ref, PENDING, "", None, stamp, []).rest);
  }
}
