/** The annotation controller among its users: it never leaks, even when the provider disappears. */
module LegacyLeaks {
  import opened Strings
  import opened Subject
  import opened Store
  import opened Protocol
  import opened Safety
  import opened Kube
  import opened Reconcile
  import opened Lifecycle
  import opened Legacy
  import Scopes
  import Conditions
  import Leaks

  datatype Event =
    | Pass(ref: Ref, stamp: string, script: Script)
    | Create(ref: Ref, annotations: Annotations, finalizers: seq<string>)
    | Edit(ref: Ref, annotations: Annotations, finalizers: seq<string>)
    | RequestDelete(ref: Ref)
    | SetProviders(providers: seq<Provider>)
    | SetDirectory(directory: Directory)

  /** An event that is not possible changes nothing. */
  function Next(digest: Digest, cfg: Config, v: Estate, e: Event): Estate {
    match e
    case Pass(ref, stamp, script) => ReconcileSa(digest, cfg, v, ref, stamp, script).view
    case Create(ref, a, fs) =>
      if ref in v.accounts then v else v.(accounts := v.accounts[ref := KubeAccount(a, fs, false)])
    case Edit(ref, a, fs) =>
      if ref !in v.accounts then v
      else v.(accounts := StoredSa(v.accounts, ref, v.accounts[ref].(annotations := a, finalizers := fs)))
    case RequestDelete(ref) =>
      if ref !in v.accounts then v else v.(accounts := StoredSa(v.accounts, ref, v.accounts[ref].(deleting := true)))
    case SetProviders(ps) => v.(iam := v.iam.(providers := ps))
    case SetDirectory(d) => v.(iam := v.iam.(directory := d))
  }

  function Run(digest: Digest, cfg: Config, v: Estate, es: seq<Event>): Estate
    decreases |es|
  {
    if es == [] then v else Run(digest, cfg, Next(digest, cfg, v, es[0]), es[1..])
  }

  function OwnerAt(ref: Ref): Owner {
    Owner(ref.namespace, ref.name)
  }

  /** The ServiceAccount is there and will be cleaned up after. */
  predicate Held(v: Estate, o: Owner) {
    var ref := Ref(o.namespace, o.name);
    ref in v.accounts && FINALIZER in v.accounts[ref].finalizers
  }

  ghost predicate NoLeak(digest: Digest, issuer: string, v: Estate) {
    forall k, o: Owner | Owned(v.iam, k, o) :: k == KeyFor(digest, issuer, o) && Held(v, o)
  }

  /** An account the controller serves asks for its resources to be deleted. */
  predicate CleansUp(sa: KubeAccount) {
    FINALIZER in sa.finalizers || IsEnabled(sa.annotations) ==> DeletesResources(sa.annotations)
  }

  ghost predicate Safe(digest: Digest, cfg: Config, issuer: string, v: Estate) {
    && InOrder(v.iam) && KnownIssuer(v.iam.providers, cfg.cluster, issuer)
    && (forall ref | ref in v.accounts :: CleansUp(v.accounts[ref]))
    && NoLeak(digest, issuer, v)
  }

  /** What users must keep. The provider may come, go and lose its issuer; only another issuer is excluded. */
  predicate Steady(cfg: Config, issuer: string, v: Estate, e: Event) {
    match e
    case Create(_, a, fs) => CleansUp(KubeAccount(a, fs, false))
    case Edit(ref, a, fs) =>
      && CleansUp(KubeAccount(a, fs, false))
      && (ref in v.accounts && FINALIZER in v.accounts[ref].finalizers ==> FINALIZER in fs)
    case SetProviders(ps) => KnownIssuer(ps, cfg.cluster, issuer)
    case _ => true
  }

  predicate SteadyRun(digest: Digest, cfg: Config, issuer: string, v: Estate, es: seq<Event>)
    decreases |es|
  {
    es == [] || (Steady(cfg, issuer, v, es[0]) && SteadyRun(digest, cfg, issuer, Next(digest, cfg, v, es[0]), es[1..]))
  }

  // ---- changes that keep safety

  lemma StoredKeeps(digest: Digest, cfg: Config, issuer: string, v: Estate, ref: Ref, sa: KubeAccount)
    requires Safe(digest, cfg, issuer, v) && CleansUp(sa)
    requires ref in v.accounts && FINALIZER in v.accounts[ref].finalizers ==>
               FINALIZER in sa.finalizers || !Owned(v.iam, KeyFor(digest, issuer, OwnerAt(ref)), OwnerAt(ref))
    ensures Safe(digest, cfg, issuer, v.(accounts := StoredSa(v.accounts, ref, sa)))
  {
    hide InOrder, Owned, KeyFor, KnownIssuer, Truthy;
    var v' := v.(accounts := StoredSa(v.accounts, ref, sa));
    forall k, o: Owner | Owned(v'.iam, k, o)
      ensures k == KeyFor(digest, issuer, o) && Held(v', o)
    {
      assert Held(v, o);
    }
  }

  lemma AttemptKeeps(digest: Digest, cfg: Config, issuer: string, v: Estate, s: State, ref: Ref)
    requires Safe(digest, cfg, issuer, v) && Held(v, OwnerAt(ref))
    requires InOrder(s) && OnlyFor(v.iam, s, KeyFor(digest, issuer, OwnerAt(ref)), OwnerAt(ref))
    ensures Safe(digest, cfg, issuer, v.(iam := s))
  {
    hide InOrder, Owned, KeyFor, KnownIssuer, CleansUp;
    forall k, x: Owner | Owned(s, k, x)
      ensures k == KeyFor(digest, issuer, x) && Held(v.(iam := s), x)
    {
      if k != KeyFor(digest, issuer, OwnerAt(ref)) || x != OwnerAt(ref) { assert Owned(v.iam, k, x); }
    }
  }

  lemma ReportedFlags(a: Annotations, status: string, lastError: string, result: Option<EnsureResult>, stamp: string)
    ensures var b := Reported(a, status, lastError, result, stamp);
            Get(b, ENABLED) == Get(a, ENABLED) && Get(b, DELETE_RESOURCES) == Get(a, DELETE_RESOURCES)
  {}

  lemma PatchKeeps(digest: Digest, cfg: Config, issuer: string, v: Estate, ref: Ref, status: string,
                   lastError: string,
                   result: Option<EnsureResult>, stamp: string, script: Script)
    requires Safe(digest, cfg, issuer, v)
    ensures var r := PatchSa(v, ref, status, lastError, result, stamp, script);
            && Safe(digest, cfg, issuer, r.view) && r.view.iam == v.iam
            && (forall o :: Held(v, o) ==> Held(r.view, o))
  {
    hide InOrder, Owned, KeyFor, KnownIssuer, Reported, Truthy;
    if ref in v.accounts {
      var sa := v.accounts[ref];
      var b := Reported(sa.annotations, status, lastError, result, stamp);
      ReportedFlags(sa.annotations, status, lastError, result, stamp);
      StoredKeeps(digest, cfg, issuer, v, ref, sa.(annotations := b));
    }
  }

  lemma DeleteKeeps(digest: Digest, cfg: Config, issuer: string, v: Estate, ref: Ref, a: Annotations, script: Script)
    requires Safe(digest, cfg, issuer, v) && Held(v, OwnerAt(ref))
    ensures var r := DeleteCloudOf(digest, cfg, v, ref, a, script);
            && Safe(digest, cfg, issuer, r.view) && r.view.accounts == v.accounts
            && (r.ok ==> !Owned(r.view.iam, KeyFor(digest, issuer, OwnerAt(ref)), OwnerAt(ref)))
  {
    hide InOrder, OnlyFor, KeyFor, NoLeak, Exec, StartDelete, SelectProvider, NormalizeIssuer, Owned, Blank, PolicyOf,
      CleansUp;
    DeleteConcerns(digest, OwnerAt(ref), issuer, Get(a, ROLE), PolicyOf(a), v.iam, Tail(script));
    var (p, s, rest) := Exec(digest, StartDelete(digest, ref.namespace, ref.name, issuer, Get(a, ROLE), PolicyOf(a)),
                             v.iam, Tail(script));
    AttemptKeeps(digest, cfg, issuer, v, s, ref);
  }

  lemma LetGoKeeps(digest: Digest, cfg: Config, issuer: string, v: Estate, ref: Ref, stamp: string, script: Script)
    requires Safe(digest, cfg, issuer, v) && ref in v.accounts && FINALIZER in v.accounts[ref].finalizers
    requires v.accounts[ref].deleting || !IsEnabled(v.accounts[ref].annotations)
    ensures Safe(digest, cfg, issuer, LetGo(digest, cfg, v, ref, v.accounts[ref], stamp, script).view)
  {
    hide InOrder, KeyFor, NoLeak, DeleteCloudOf, PatchSa, Owned, KnownIssuer, Truthy;
    var sa := v.accounts[ref];
    assert CleansUp(sa);
    DeleteKeeps(digest, cfg, issuer, v, ref, sa.annotations, script);
    var gone := DeleteCloudOf(digest, cfg, v, ref, sa.annotations, script);
    if !gone.ok {
      PatchKeeps(digest, cfg, issuer, gone.view, ref, ERROR, "DeleteFailed", None, stamp, gone.rest);
    } else {
      StoredKeeps(digest, cfg, issuer, gone.view, ref, sa.(finalizers := DropString(sa.finalizers, FINALIZER)));
    }
  }

  lemma ProvideKeeps(digest: Digest, cfg: Config, issuer: string, v: Estate, ref: Ref, scopes: seq<string>,
                     stamp: string, script: Script)
    requires Safe(digest, cfg, issuer, v) && ref in v.accounts && FINALIZER in v.accounts[ref].finalizers
    ensures Safe(digest, cfg, issuer, Provide(digest, cfg, v, ref, v.accounts[ref], scopes, stamp, script).view)
  {
    hide Safe, InOrder, OnlyFor, KeyFor, NoLeak, Exec, StartEnsure, PatchSa, Owned, KnownIssuer, TrimSpace, ResultOf;
    var sa := v.accounts[ref];
    PatchKeeps(digest, cfg, issuer, v, ref, PENDING, "", None, stamp, script);
    var pending := PatchSa(v, ref, PENDING, "", None, stamp, script);
    assert Held(v, OwnerAt(ref));
    var want := InputFrom(cfg, ref, sa.annotations, scopes);
    SafeStore(digest, cfg, issuer, pending.view);
    EnsureConcerns(digest, want, pending.view.iam, pending.rest, issuer);
    var (p, s, rest) := Exec(digest, StartEnsure(want), pending.view.iam, pending.rest);
    AttemptKeeps(digest, cfg, issuer, pending.view, s, ref);
    var v' := pending.view.(iam := s);
    if p.Ensured? {
      PatchKeeps(digest, cfg, issuer, v', ref, Conditions.READY, "", Some(ResultOf(p.task)), stamp, rest);
    }
    PatchKeeps(digest, cfg, issuer, v', ref, PENDING, "ProviderNotReady", None, stamp, rest);
    PatchKeeps(digest, cfg, issuer, v', ref, ERROR, "EnsureFailed", None, stamp, rest);
  }

  lemma SafeStore(digest: Digest, cfg: Config, issuer: string, v: Estate)
    requires Safe(digest, cfg, issuer, v)
    ensures InOrder(v.iam) && KnownIssuer(v.iam.providers, cfg.cluster, issuer)
  {}

  lemma PassKeeps(digest: Digest, cfg: Config, issuer: string, v: Estate, ref: Ref, stamp: string, script: Script)
    requires Safe(digest, cfg, issuer, v)
    ensures Safe(digest, cfg, issuer, ReconcileSa(digest, cfg, v, ref, stamp, script).view)
  {
    hide InOrder, NoLeak, LetGo, Provide, PatchSa, KnownIssuer, TrimSpace, Truthy, Scopes.ParseText, Config.Watches;
    var rest := Tail(script);
    PatchKeeps(digest, cfg, issuer, v, ref, ERROR, "MissingReference", None, stamp, rest);
    PatchKeeps(digest, cfg, issuer, v, ref, ERROR, "Wildcard", None, stamp, rest);
    PatchKeeps(digest, cfg, issuer, v, ref, ERROR, "InvalidScopes", None, stamp, rest);
    if ref in v.accounts {
      var sa := v.accounts[ref];
      if FINALIZER in sa.finalizers {
        if sa.deleting || !IsEnabled(sa.annotations) { LetGoKeeps(digest, cfg, issuer, v, ref, stamp, rest); }
        var r := Scopes.ParseText(cfg.known, Get(sa.annotations, SCOPES));
        if r.Parsed? { ProvideKeeps(digest, cfg, issuer, v, ref, r.scopes, stamp, rest); }
      } else if IsEnabled(sa.annotations) {
        StoredKeeps(digest, cfg, issuer, v, ref, sa.(finalizers := sa.finalizers + [FINALIZER]));
      }
    }
  }

  lemma ReconfiguredKeeps(digest: Digest, cfg: Config, issuer: string, v: Estate, s: State)
    requires Safe(digest, cfg, issuer, v) && KnownIssuer(s.providers, cfg.cluster, issuer)
    requires s == v.iam.(providers := s.providers, directory := s.directory)
    ensures Safe(digest, cfg, issuer, v.(iam := s))
  {
    hide InOrder, Owned, KeyFor, KnownIssuer, CleansUp;
    Leaks.ReconfiguredInOrder(v.iam, s);
    forall k, o: Owner | Owned(s, k, o)
      ensures k == KeyFor(digest, issuer, o) && Held(v.(iam := s), o)
    {
      assert Held(v, o);
    }
  }

  lemma NextKeeps(digest: Digest, cfg: Config, issuer: string, v: Estate, e: Event)
    requires Safe(digest, cfg, issuer, v) && Steady(cfg, issuer, v, e)
    ensures Safe(digest, cfg, issuer, Next(digest, cfg, v, e))
  {
    hide InOrder, NoLeak, ReconcileSa, KnownIssuer, Truthy;
    match e
    case Pass(ref, stamp, script) => PassKeeps(digest, cfg, issuer, v, ref, stamp, script);
    case Create(ref, a, fs) =>
      if ref !in v.accounts { StoredKeeps(digest, cfg, issuer, v, ref, KubeAccount(a, fs, false)); }
    case Edit(ref, a, fs) =>
      if ref in v.accounts {
        StoredKeeps(digest, cfg, issuer, v, ref, v.accounts[ref].(annotations := a, finalizers := fs));
      }
    case RequestDelete(ref) =>
      if ref in v.accounts { StoredKeeps(digest, cfg, issuer, v, ref, v.accounts[ref].(deleting := true)); }
    case SetProviders(_) => ReconfiguredKeeps(digest, cfg, issuer, v, Next(digest, cfg, v, e).iam);
    case SetDirectory(_) => ReconfiguredKeeps(digest, cfg, issuer, v, Next(digest, cfg, v, e).iam);
  }

  lemma {:induction false} RunKeeps(digest: Digest, cfg: Config, issuer: string, v: Estate, es: seq<Event>)
    requires Safe(digest, cfg, issuer, v) && SteadyRun(digest, cfg, issuer, v, es)
    ensures Safe(digest, cfg, issuer, Run(digest, cfg, v, es))
    decreases |es|
  {
    hide Safe, Steady, Next;
    if es != [] {
      NextKeeps(digest, cfg, issuer, v, es[0]);
      RunKeeps(digest, cfg, issuer, Next(digest, cfg, v, es[0]), es[1..]);
    }
  }

  /** No leak over whole runs, with the provider free to disappear: from a store in which nothing is owned, a service
      account or federated identity with an owner's labels means that the ServiceAccount exists and holds its
      finalizer. */
  lemma NothingLeaks(digest: Digest, cfg: Config, issuer: string, v: Estate, es: seq<Event>)
    requires Sound(v.iam) && (forall k, o: Owner :: !Owned(v.iam, k, o))
    requires KnownIssuer(v.iam.providers, cfg.cluster, issuer)
    requires forall ref | ref in v.accounts :: CleansUp(v.accounts[ref])
    requires SteadyRun(digest, cfg, issuer, v, es)
    ensures var v' := Run(digest, cfg, v, es);
            forall k, o: Owner | Owned(v'.iam, k, o) :: k == KeyFor(digest, issuer, o) && Held(v', o)
  {
    hide Sound, InOrder, Owned, KeyFor, Run, SteadyRun, KnownIssuer, CleansUp, Held;
    Leaks.NothingOwnedInOrder(v.iam);
    RunKeeps(digest, cfg, issuer, v, es);
  }

  lemma LetGoFailsClosed(digest: Digest, cfg: Config, v: Estate, ref: Ref, stamp: string, script: Script)
    requires ref in v.accounts && FINALIZER in v.accounts[ref].finalizers
             && DeletesResources(v.accounts[ref].annotations)
    requires var choice := SelectProvider(v.iam.providers, cfg.cluster);
             !choice.OneProvider? || NormalizeIssuer(choice.provider.issuer) == ""
    ensures var v' := LetGo(digest, cfg, v, ref, v.accounts[ref], stamp, script).view;
            v'.iam == v.iam && ref in v'.accounts && FINALIZER in v'.accounts[ref].finalizers
  {
    hide SelectProvider, NormalizeIssuer, Truthy, Reported, Blank, Exec, StartDelete, PolicyOf;
  }

  /** Failing closed, where the other controller skips: as long as the provider is not found with an issuer, a reconcile
      neither lets go of an account whose resources are to be deleted nor changes the store. */
  lemma FailsClosed(digest: Digest, cfg: Config, v: Estate, ref: Ref, stamp: string, script: Script)
    requires ref in v.accounts && FINALIZER in v.accounts[ref].finalizers
             && DeletesResources(v.accounts[ref].annotations)
    requires v.accounts[ref].deleting || !IsEnabled(v.accounts[ref].annotations)
    requires var choice := SelectProvider(v.iam.providers, cfg.cluster);
             !choice.OneProvider? || NormalizeIssuer(choice.provider.issuer) == ""
    ensures var v' := Next(digest, cfg, v, Pass(ref, stamp, script));
            v'.iam == v.iam && ref in v'.accounts && FINALIZER in v'.accounts[ref].finalizers
  {
    hide SelectProvider, NormalizeIssuer, Truthy, LetGo, Config.Watches;
    LetGoFailsClosed(digest, cfg, v, ref, stamp, Tail(script));
  }
}
