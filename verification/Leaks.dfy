/** The controller among its users: runs of reconciles, edits and deletions, and what never leaks. */
module Leaks {
  import opened Strings
  import opened Subject
  import opened Store
  import opened Protocol
  import opened Safety
  import opened Conditions
  import opened Kube
  import opened Reconcile
  import opened Lifecycle
  import Ownership

  datatype Event =
    | Pass(ref: Ref, now: Time, script: Script)
    | Create(ref: Ref, spec: Spec, finalizers: seq<string>)
    | Edit(ref: Ref, spec: Spec, finalizers: seq<string>)
    | RequestDelete(ref: Ref)
    | SetAccount(at: Ref, annotations: Option<Annotations>)
    | SetConfigMap(at: Ref, configMap: Option<ConfigMap>)
    | SetProviders(providers: seq<Provider>)
    | SetDirectory(directory: Directory)

  /** Another spec is a new generation, other finalizers are not. */
  function Edited(w: Wib, spec: Spec, finalizers: seq<string>): Wib {
    w.(spec := spec, finalizers := finalizers,
       generation := if spec == w.spec then w.generation else w.generation + 1)
  }

  /** An object asked to go for the first time is a new generation. */
  function Leave(w: Wib): Wib {
    w.(deleting := true, generation := if w.deleting then w.generation else w.generation + 1)
  }

  /** An event that is not possible changes nothing. */
  function Next(digest: Digest, cfg: Config, c: Cluster, e: Event): Cluster {
    match e
    case Pass(ref, now, script) => Reconcile.Reconcile(digest, cfg, c, ref, now, script).cluster
    case Create(ref, spec, finalizers) =>
      if ref in c.objects then c else c.(objects := c.objects[ref := Wib(spec, NO_STATUS, 1, finalizers, false)])
    case Edit(ref, spec, finalizers) =>
      if ref !in c.objects then c
      else c.(objects := Stored(c.objects, ref, Edited(c.objects[ref], spec, finalizers)))
    case RequestDelete(ref) =>
      if ref !in c.objects then c
      else c.(objects := Stored(c.objects, ref, Leave(c.objects[ref])))
    case SetAccount(at, a) =>
      c.(accounts := match a case None => c.accounts - {at} case Some(x) => c.accounts[at := x])
    case SetConfigMap(at, m) =>
      c.(configMaps := match m case None => c.configMaps - {at} case Some(x) => c.configMaps[at := x])
    case SetProviders(ps) => c.(iam := c.iam.(providers := ps))
    case SetDirectory(d) => c.(iam := c.iam.(directory := d))
  }

  function Run(digest: Digest, cfg: Config, c: Cluster, es: seq<Event>): Cluster
    decreases |es|
  {
    if es == [] then c else Run(digest, cfg, Next(digest, cfg, c, es[0]), es[1..])
  }

  function OwnerAt(ref: Ref, w: Wib): Owner {
    Owner(ref.namespace, w.spec.serviceAccount)
  }

  /** A binding object that will clean up after this owner. */
  ghost predicate Held(c: Cluster, o: Owner) {
    exists ref :: ref in c.objects && HeldBy(c.objects[ref], ref, o)
  }

  predicate HeldBy(w: Wib, ref: Ref, o: Owner) {
    OwnerAt(ref, w) == o && FINALIZER in w.finalizers && w.spec.deleteResources
  }

  /** Whatever is owned is owned under the issuer's key, by an owner whose binding object exists with its finalizer. */
  ghost predicate NoLeak(digest: Digest, issuer: string, c: Cluster) {
    forall k, o: Owner | Owned(c.iam, k, o) :: k == KeyFor(digest, issuer, o) && Held(c, o)
  }

  /** A deletion would not be skipped: the provider is found with an issuer, or is found more than once. */
  predicate ProviderThere(cfg: Config, ps: seq<Provider>) {
    match SelectProvider(ps, cfg.cluster)
    case NoProvider => false
    case SeveralProviders => true
    case OneProvider(p) => NormalizeIssuer(p.issuer) != ""
  }

  /** The issuer, where there is one to be seen, stays the same: the provider may come, go and lose its issuer. */
  ghost predicate Safe(digest: Digest, cfg: Config, issuer: string, c: Cluster) {
    && InOrder(c.iam) && KnownIssuer(c.iam.providers, cfg.cluster, issuer)
    && (forall ref | ref in c.objects :: c.objects[ref].spec.deleteResources)
    && NoLeak(digest, issuer, c)
  }

  /** Another binding object will clean up after the same owner. */
  ghost predicate HeldElsewhere(c: Cluster, ref: Ref, o: Owner) {
    exists r :: r != ref && r in c.objects && HeldBy(c.objects[r], r, o)
  }

  /** What letting go of a binding takes: the provider to delete by, or nothing to delete, or another binding that
      stays. */
  ghost predicate MayLetGo(digest: Digest, cfg: Config, issuer: string, c: Cluster, ref: Ref)
    requires ref in c.objects
  {
    var o := OwnerAt(ref, c.objects[ref]);
    ProviderThere(cfg, c.iam.providers) || !Owned(c.iam, KeyFor(digest, issuer, o), o) || HeldElsewhere(c, ref, o)
  }

  predicate Leaving(c: Cluster, ref: Ref) {
    ref in c.objects && c.objects[ref].deleting && FINALIZER in c.objects[ref].finalizers
  }

  /** What users must keep: bindings delete their resources and stay with their service account, the controller's
      finalizer is left to the controller, and the issuer stays. A provider is needed only at the moment a binding that
      is being deleted is reconciled. Everything else may change at any time. */
  ghost predicate Steady(digest: Digest, cfg: Config, issuer: string, c: Cluster, e: Event) {
    match e
    case Pass(ref, _, _) => Leaving(c, ref) ==> MayLetGo(digest, cfg, issuer, c, ref)
    case Create(_, spec, _) => spec.deleteResources
    case Edit(ref, spec, finalizers) =>
      ref in c.objects ==>
        && spec.deleteResources && spec.serviceAccount == c.objects[ref].spec.serviceAccount
        && (FINALIZER in c.objects[ref].finalizers ==> FINALIZER in finalizers)
    case SetProviders(ps) => KnownIssuer(ps, cfg.cluster, issuer)
    case _ => true
  }

  ghost predicate SteadyRun(digest: Digest, cfg: Config, issuer: string, c: Cluster, es: seq<Event>)
    decreases |es|
  {
    es == [] ||
    (Steady(digest, cfg, issuer, c, es[0]) && SteadyRun(digest, cfg, issuer, Next(digest, cfg, c, es[0]), es[1..]))
  }

  // ---- changes that keep safety

  /** Nothing changed that a leak depends on. */
  ghost predicate Alike(c: Cluster, c': Cluster) {
    && c'.iam == c.iam && c'.objects.Keys == c.objects.Keys
    && forall ref | ref in c.objects ::
         c'.objects[ref].spec == c.objects[ref].spec && c'.objects[ref].finalizers == c.objects[ref].finalizers
  }

  lemma AlikeHeld(c: Cluster, c': Cluster, o: Owner)
    requires Alike(c, c') && Held(c, o)
    ensures Held(c', o)
  {
    var ref :| ref in c.objects && HeldBy(c.objects[ref], ref, o);
    assert HeldBy(c'.objects[ref], ref, o);
  }

  lemma AlikeKeeps(digest: Digest, cfg: Config, issuer: string, c: Cluster, c': Cluster)
    requires Safe(digest, cfg, issuer, c) && Alike(c, c')
    ensures Safe(digest, cfg, issuer, c')
  {
    hide InOrder, Owned, KeyFor, Held, KnownIssuer;
    forall k, o: Owner | Owned(c'.iam, k, o)
      ensures k == KeyFor(digest, issuer, o) && Held(c', o)
    {
      AlikeHeld(c, c', o);
    }
  }

  /** An object takes the place of another without giving anything up. */
  lemma StoredKeeps(digest: Digest, cfg: Config, issuer: string, c: Cluster, ref: Ref, w: Wib)
    requires Safe(digest, cfg, issuer, c) && w.spec.deleteResources
    requires ref in c.objects ==>
               OwnerAt(ref, w) == OwnerAt(ref, c.objects[ref])
               && (FINALIZER in c.objects[ref].finalizers ==> FINALIZER in w.finalizers)
    ensures Safe(digest, cfg, issuer, c.(objects := Stored(c.objects, ref, w)))
  {
    hide InOrder, Owned, KeyFor, KnownIssuer;
    var c' := c.(objects := Stored(c.objects, ref, w));
    forall k, o: Owner | Owned(c'.iam, k, o)
      ensures k == KeyFor(digest, issuer, o) && Held(c', o)
    {
      var r :| r in c.objects && HeldBy(c.objects[r], r, o);
      assert r in c'.objects && HeldBy(c'.objects[r], r, o);
    }
  }

  /** The finalizer may go once its owner owns nothing, or is held by another binding. */
  lemma ReleasedKeeps(digest: Digest, cfg: Config, issuer: string, c: Cluster, ref: Ref, w: Wib)
    requires Safe(digest, cfg, issuer, c) && ref in c.objects && w.spec == c.objects[ref].spec
    requires var o := OwnerAt(ref, w); !Owned(c.iam, KeyFor(digest, issuer, o), o) || HeldElsewhere(c, ref, o)
    ensures Safe(digest, cfg, issuer, c.(objects := Stored(c.objects, ref, w)))
  {
    hide InOrder, Owned, KeyFor, KnownIssuer;
    var c' := c.(objects := Stored(c.objects, ref, w));
    forall k, o: Owner | Owned(c'.iam, k, o)
      ensures k == KeyFor(digest, issuer, o) && Held(c', o)
    {
      var r :| r in c.objects && HeldBy(c.objects[r], r, o) && (r != ref || o == OwnerAt(ref, w));
      if r == ref {
        r :| r != ref && r in c.objects && HeldBy(c.objects[r], r, o);
      }
      assert r in c'.objects && HeldBy(c'.objects[r], r, o);
    }
  }

  /** The store may change for an owner that is held. */
  lemma AttemptKeeps(digest: Digest, cfg: Config, issuer: string, c: Cluster, s: State, o: Owner)
    requires Safe(digest, cfg, issuer, c) && Held(c, o)
    requires InOrder(s) && OnlyFor(c.iam, s, KeyFor(digest, issuer, o), o)
    ensures Safe(digest, cfg, issuer, c.(iam := s))
  {
    hide InOrder, Owned, KeyFor, KnownIssuer;
    var c' := c.(iam := s);
    forall k, x: Owner | Owned(s, k, x)
      ensures k == KeyFor(digest, issuer, x) && Held(c', x)
    {
      var y := if k == KeyFor(digest, issuer, o) && x == o then o else x;
      assert Held(c, y);
      var ref :| ref in c.objects && HeldBy(c.objects[ref], ref, y);
      assert ref in c'.objects && HeldBy(c'.objects[ref], ref, y);
    }
  }

  // ---- a reconcile keeps safety

  lemma StatusAlike(c: Cluster, ref: Ref, obs: Observation, now: Time, script: Script)
    ensures Alike(c, PatchStatus(c, ref, obs, now, script).cluster)
  {
    hide StatusWith;
  }

  lemma SafeStore(digest: Digest, cfg: Config, issuer: string, c: Cluster)
    requires Safe(digest, cfg, issuer, c)
    ensures InOrder(c.iam) && KnownIssuer(c.iam.providers, cfg.cluster, issuer)
  {}

  lemma SameObjectsAlike(c: Cluster, c': Cluster)
    requires c'.iam == c.iam && c'.objects == c.objects
    ensures Alike(c, c')
  {}

  lemma ProvisionKeeps(digest: Digest, cfg: Config, issuer: string, c: Cluster, ref: Ref, spec: Spec,
                       scopes: seq<string>, script: Script)
    requires Safe(digest, cfg, issuer, c) && Held(c, Owner(ref.namespace, spec.serviceAccount))
    ensures Safe(digest, cfg, issuer, Provision(digest, cfg, c, ref, spec, scopes, script).cluster)
  {
    hide InOrder, OnlyFor, KeyFor, Held, KnownIssuer, NoLeak, Exec, StartEnsure, Publish, KnownIssuer, Alike, Safe;
    var want := InputOf(cfg, ref.namespace, spec, scopes);
    var (p, s, rest) := Exec(digest, StartEnsure(want), c.iam, script);
    SafeStore(digest, cfg, issuer, c);
    EnsureConcerns(digest, want, c.iam, script, issuer);
    AttemptKeeps(digest, cfg, issuer, c, s, Owner(ref.namespace, spec.serviceAccount));
    if p.Ensured? {
      PublishTouches(cfg, c.(iam := s), ref, spec, ResultOf(p.task), rest);
      SameObjectsAlike(c.(iam := s), Publish(cfg, c.(iam := s), ref, spec, ResultOf(p.task), rest).cluster);
      AlikeKeeps(digest, cfg, issuer, c.(iam := s),
                 Publish(cfg, c.(iam := s), ref, spec, ResultOf(p.task), rest).cluster);
    }
  }

  /** A deletion that succeeds has left nothing, if the provider was there or nothing was owned. */
  lemma DeleteCloudKeeps(digest: Digest, cfg: Config, issuer: string, c: Cluster, ref: Ref, w: Wib, script: Script)
    requires Safe(digest, cfg, issuer, c) && Held(c, OwnerAt(ref, w))
    ensures var a := DeleteCloud(digest, cfg, c, ref.namespace, w.spec, w.status.policy, script);
            var o := OwnerAt(ref, w);
            var key := KeyFor(digest, issuer, o);
            && Safe(digest, cfg, issuer, a.cluster) && a.cluster.objects == c.objects
            && (a.ok && (ProviderThere(cfg, c.iam.providers) || !Owned(c.iam, key, o)) ==>
                 !Owned(a.cluster.iam, key, o))
  {
    hide InOrder, OnlyFor, KeyFor, Held, NoLeak, Exec, StartDelete, SelectProvider, NormalizeIssuer, Owned, Blank,
      PolicyToDrop;
    var o := OwnerAt(ref, w);
    DeleteConcerns(digest, o, issuer, w.spec.roleRef, PolicyToDrop(w.spec, w.status.policy), c.iam, Tail(script));
    var (p, s, rest) := Exec(digest, StartDelete(digest, ref.namespace, w.spec.serviceAccount, issuer, w.spec.roleRef,
                                                 PolicyToDrop(w.spec, w.status.policy)), c.iam, Tail(script));
    AttemptKeeps(digest, cfg, issuer, c, s, o);
  }

  lemma ReleaseKeeps(digest: Digest, cfg: Config, issuer: string, c: Cluster, ref: Ref, script: Script)
    requires Safe(digest, cfg, issuer, c) && ref in c.objects
    requires FINALIZER in c.objects[ref].finalizers ==> MayLetGo(digest, cfg, issuer, c, ref)
    ensures Safe(digest, cfg, issuer, Release(digest, cfg, c, ref, c.objects[ref], script).cluster)
  {
    hide InOrder, KeyFor, Held, NoLeak, DeleteCloud, ClearAnnotations, Owned, ProviderThere, KnownIssuer, Alike, Stored;
    var w := c.objects[ref];
    if FINALIZER in w.finalizers {
      var at := Ref(ref.namespace, w.spec.serviceAccount);
      var cleared := ClearAnnotations(c, at, script);
      ClearTouches(c, at, script);
      SameObjectsAlike(c, cleared.cluster);
      AlikeKeeps(digest, cfg, issuer, c, cleared.cluster);
      assert Held(cleared.cluster, OwnerAt(ref, w)) by { HeldHere(cleared.cluster, ref); }
      DeleteCloudKeeps(digest, cfg, issuer, cleared.cluster, ref, w, cleared.rest);
      var gone := DeleteCloud(digest, cfg, cleared.cluster, ref.namespace, w.spec, w.status.policy, cleared.rest);
      if cleared.ok && gone.ok {
        HeldElsewhereStays(c, gone.cluster, ref, OwnerAt(ref, w));
        ReleasedKeeps(digest, cfg, issuer, gone.cluster, ref, w.(finalizers := DropString(w.finalizers, FINALIZER)));
      }
    }
  }

  lemma HeldElsewhereStays(c: Cluster, c': Cluster, ref: Ref, o: Owner)
    requires c'.objects == c.objects
    ensures HeldElsewhere(c, ref, o) <==> HeldElsewhere(c', ref, o)
  {}

  lemma HeldHere(c: Cluster, ref: Ref)
    requires ref in c.objects && FINALIZER in c.objects[ref].finalizers && c.objects[ref].spec.deleteResources
    ensures Held(c, OwnerAt(ref, c.objects[ref]))
  {
    assert HeldBy(c.objects[ref], ref, OwnerAt(ref, c.objects[ref]));
  }

  lemma BindingKeeps(digest: Digest, cfg: Config, issuer: string, c: Cluster, ref: Ref, script: Script)
    requires Safe(digest, cfg, issuer, c) && ref in c.objects
             && (Leaving(c, ref) ==> MayLetGo(digest, cfg, issuer, c, ref))
    ensures Safe(digest, cfg, issuer, ReconcileBinding(digest, cfg, c, ref, c.objects[ref], script).cluster)
  {
    hide InOrder, Held, NoLeak, KnownIssuer, MayLetGo, Release, Provision, Stored, ValidDesired, Config.Watches,
      Scopes.Canonical, Words;
    var w := c.objects[ref];
    if w.deleting {
      ReleaseKeeps(digest, cfg, issuer, c, ref, script);
    } else if FINALIZER !in w.finalizers {
      StoredKeeps(digest, cfg, issuer, c, ref, w.(finalizers := w.finalizers + [FINALIZER]));
    } else {
      HeldHere(c, ref);
      var r := Scopes.Canonical(cfg.known, Words(w.spec.scopes));
      if r.Parsed? {
        ProvisionKeeps(digest, cfg, issuer, c, ref, w.spec, r.scopes, Tail(script));
      }
    }
  }

  lemma PassKeeps(digest: Digest, cfg: Config, issuer: string, c: Cluster, ref: Ref, now: Time, script: Script)
    requires Safe(digest, cfg, issuer, c) && (Leaving(c, ref) ==> MayLetGo(digest, cfg, issuer, c, ref))
    ensures Safe(digest, cfg, issuer, Reconcile.Reconcile(digest, cfg, c, ref, now, script).cluster)
  {
    hide Safe, ReconcileBinding, PatchStatus, Config.Watches, Alike, MayLetGo, Leaving;
    if Head(script) == Ok && ref in c.objects && cfg.Watches(ref.namespace) {
      BindingKeeps(digest, cfg, issuer, c, ref, Tail(script));
      var t := ReconcileBinding(digest, cfg, c, ref, c.objects[ref], Tail(script));
      if t.seen.Some? {
        StatusAlike(t.cluster, ref, t.seen.value, now, t.rest);
        AlikeKeeps(digest, cfg, issuer, t.cluster, PatchStatus(t.cluster, ref, t.seen.value, now, t.rest).cluster);
      }
    }
  }

  lemma ReconfiguredInOrder(s: State, s': State)
    requires InOrder(s) && s' == s.(providers := s'.providers, directory := s'.directory)
    ensures InOrder(s') && forall k, o: Owner :: Owned(s', k, o) == Owned(s, k, o)
  {
    assert forall slot :: s'.At(slot) == s.At(slot);
  }

  lemma ReconfiguredKeeps(digest: Digest, cfg: Config, issuer: string, c: Cluster, s: State)
    requires Safe(digest, cfg, issuer, c) && KnownIssuer(s.providers, cfg.cluster, issuer)
    requires s == c.iam.(providers := s.providers, directory := s.directory)
    ensures Safe(digest, cfg, issuer, c.(iam := s))
  {
    hide InOrder, Owned, KeyFor, Held, KnownIssuer;
    ReconfiguredInOrder(c.iam, s);
    forall k, o: Owner | Owned(s, k, o)
      ensures k == KeyFor(digest, issuer, o) && Held(c.(iam := s), o)
    {
      assert Held(c, o);
      HeldStays(c, s, o);
    }
  }

  lemma HeldStays(c: Cluster, s: State, o: Owner)
    requires Held(c, o)
    ensures Held(c.(iam := s), o)
  {
    var ref :| ref in c.objects && HeldBy(c.objects[ref], ref, o);
    assert ref in c.(iam := s).objects;
  }

  lemma NextKeeps(digest: Digest, cfg: Config, issuer: string, c: Cluster, e: Event)
    requires Safe(digest, cfg, issuer, c) && Steady(digest, cfg, issuer, c, e)
    ensures Safe(digest, cfg, issuer, Next(digest, cfg, c, e))
  {
    hide InOrder, Held, NoLeak, KnownIssuer, MayLetGo, Reconcile.Reconcile;
    match e
    case Pass(ref, now, script) => PassKeeps(digest, cfg, issuer, c, ref, now, script);
    case Create(ref, spec, finalizers) =>
      if ref !in c.objects { StoredKeeps(digest, cfg, issuer, c, ref, Wib(spec, NO_STATUS, 1, finalizers, false)); }
    case Edit(ref, spec, finalizers) =>
      if ref in c.objects {
        StoredKeeps(digest, cfg, issuer, c, ref, Edited(c.objects[ref], spec, finalizers));
      }
    case RequestDelete(ref) =>
      if ref in c.objects { StoredKeeps(digest, cfg, issuer, c, ref, Leave(c.objects[ref])); }
    case SetAccount(_, _) => AlikeKeeps(digest, cfg, issuer, c, Next(digest, cfg, c, e));
    case SetConfigMap(_, _) => AlikeKeeps(digest, cfg, issuer, c, Next(digest, cfg, c, e));
    case SetProviders(_) => ReconfiguredKeeps(digest, cfg, issuer, c, Next(digest, cfg, c, e).iam);
    case SetDirectory(_) => ReconfiguredKeeps(digest, cfg, issuer, c, Next(digest, cfg, c, e).iam);
  }

  /** No leak over whole runs: at any moment, whatever an owner owns, its binding object is there with its finalizer. */
  lemma {:induction false} NothingLeaks(digest: Digest, cfg: Config, issuer: string, c: Cluster, es: seq<Event>)
    requires Safe(digest, cfg, issuer, c) && SteadyRun(digest, cfg, issuer, c, es)
    ensures Safe(digest, cfg, issuer, Run(digest, cfg, c, es))
    decreases |es|
  {
    hide Safe, Steady, Next;
    if es != [] {
      NextKeeps(digest, cfg, issuer, c, es[0]);
      NothingLeaks(digest, cfg, issuer, Next(digest, cfg, c, es[0]), es[1..]);
    }
  }

  lemma NothingOwnedInOrder(s: State)
    requires Sound(s) && forall k, o: Owner :: !Owned(s, k, o)
    ensures InOrder(s)
  {
    hide Sound, LabelsMatch, OwnershipLabels;
    forall x, k, ns, n | x in s.identities
      ensures !LabelsMatch(x.labels, OwnershipLabels(k, ns, n))
    {
      assert !Owned(s, k, Owner(ns, n));
      Ownership.SelectFacts(s.identities, OwnershipLabels(k, ns, n));
    }
    forall k, ns, n
      ensures |Ownership.Select(s.accounts, OwnershipLabels(k, ns, n))| <= 1
      ensures |Ownership.Select(s.identities, OwnershipLabels(k, ns, n))| <= 1
    {
      assert !Owned(s, k, Owner(ns, n));
    }
  }

  /** The same from a store in which nothing is owned: a service account or federated identity with an owner's labels
      means that a binding object of the owner exists, holds its finalizer and deletes its resources. */
  lemma NothingLeaksFromNothing(digest: Digest, cfg: Config, issuer: string, c: Cluster, es: seq<Event>)
    requires Sound(c.iam) && (forall k, o: Owner :: !Owned(c.iam, k, o))
    requires KnownIssuer(c.iam.providers, cfg.cluster, issuer)
    requires forall ref | ref in c.objects :: c.objects[ref].spec.deleteResources
    requires SteadyRun(digest, cfg, issuer, c, es)
    ensures var c' := Run(digest, cfg, c, es);
            forall k, o: Owner | Owned(c'.iam, k, o) ::
              exists ref :: ref in c'.objects && HeldBy(c'.objects[ref], ref, o)
  {
    hide Sound, InOrder, Owned, KeyFor, Run, SteadyRun, KnownIssuer, HeldBy;
    NothingOwnedInOrder(c.iam);
    NothingLeaks(digest, cfg, issuer, c, es);
    var c' := Run(digest, cfg, c, es);
    forall k, o: Owner | Owned(c'.iam, k, o)
      ensures exists ref :: ref in c'.objects && HeldBy(c'.objects[ref], ref, o)
    {
      assert Held(c', o);
    }
  }

  // ---- when a finalizer goes while resources stay

  /** The deletion looks under this key: the provider is found and its issuer gives the key. */
  predicate Reaches(digest: Digest, cfg: Config, providers: seq<Provider>, o: Owner, key: string) {
    var choice := SelectProvider(providers, cfg.cluster);
    choice.OneProvider? && NormalizeIssuer(choice.provider.issuer) != ""
    && KeyFor(digest, NormalizeIssuer(choice.provider.issuer), o) == key
  }

  /** Exactly what a finished deletion leaves behind: a binding loses its finalizer with resources of its owner still in
      the store if and only if they are under a key the deletion did not look for, because the provider was not found,
      named no issuer, or names another issuer than the one the resources were made under. */
  lemma ReleasedLeavesIff(digest: Digest, cfg: Config, c: Cluster, ref: Ref, now: Time, script: Script, key: string)
    requires InOrder(c.iam) && ref in c.objects && c.objects[ref].deleting && c.objects[ref].spec.deleteResources
    requires FINALIZER in c.objects[ref].finalizers
    requires var c' := Next(digest, cfg, c, Pass(ref, now, script));
             ref in c'.objects ==> FINALIZER !in c'.objects[ref].finalizers
    ensures var c' := Next(digest, cfg, c, Pass(ref, now, script));
            var o := OwnerAt(ref, c.objects[ref]);
            Owned(c'.iam, key, o) <==> Owned(c.iam, key, o) && !Reaches(digest, cfg, c.iam.providers, o, key)
  {
    hide InOrder, KeyFor, Owned, Release, Stored, Config.Watches, PatchStatus, Reaches;
    var t := Release(digest, cfg, c, ref, c.objects[ref], Tail(script));
    ReleaseLeaves(digest, cfg, c, ref, Tail(script), key);
    if t.seen.Some? {
      StatusAlike(t.cluster, ref, t.seen.value, now, t.rest);
    }
  }

  lemma ReleaseLeaves(digest: Digest, cfg: Config, c: Cluster, ref: Ref, script: Script, key: string)
    requires InOrder(c.iam) && ref in c.objects && c.objects[ref].spec.deleteResources
             && FINALIZER in c.objects[ref].finalizers
    ensures var t := Release(digest, cfg, c, ref, c.objects[ref], script);
            var o := OwnerAt(ref, c.objects[ref]);
            && (t.seen.Some? ==> t.cluster.objects == c.objects)
            && (t.seen.None? ==>
                 (Owned(t.cluster.iam, key, o) <==>
                   Owned(c.iam, key, o) && !Reaches(digest, cfg, c.iam.providers, o, key)))
  {
    hide InOrder, KeyFor, Owned, DeleteCloud, ClearAnnotations, Stored, DropString, Reaches, Alike;
    var w := c.objects[ref];
    var at := Ref(ref.namespace, w.spec.serviceAccount);
    var cleared := ClearAnnotations(c, at, script);
    ClearTouches(c, at, script);
    DeleteCloudLeaves(digest, cfg, cleared.cluster, ref, w, cleared.rest, key);
  }

  lemma DeleteCloudLeaves(digest: Digest, cfg: Config, c: Cluster, ref: Ref, w: Wib, script: Script, key: string)
    requires InOrder(c.iam)
    ensures var a := DeleteCloud(digest, cfg, c, ref.namespace, w.spec, w.status.policy, script);
            var o := OwnerAt(ref, w);
            && a.cluster.objects == c.objects
            && (a.ok ==> (Owned(a.cluster.iam, key, o) <==>
                 Owned(c.iam, key, o) && !Reaches(digest, cfg, c.iam.providers, o, key)))
  {
    hide InOrder, KeyFor, Owned, Exec, StartDelete, SelectProvider, NormalizeIssuer, Blank, PolicyToDrop;
    var choice := SelectProvider(c.iam.providers, cfg.cluster);
    if choice.OneProvider? {
      var issuer := NormalizeIssuer(choice.provider.issuer);
      DeleteConcerns(digest, OwnerAt(ref, w), issuer, w.spec.roleRef, PolicyToDrop(w.spec, w.status.policy), c.iam,
                     Tail(script));
    }
  }

  /** A reconcile that lets go of a binding keeps safety exactly when it may: nothing leaks if and only if the provider
      is there to delete by, or the owner owns nothing, or another binding of the owner stays. */
  lemma LettingGoIsSafeIff(digest: Digest, cfg: Config, issuer: string, c: Cluster, ref: Ref, now: Time, script: Script)
    requires Safe(digest, cfg, issuer, c) && Leaving(c, ref)
    requires var c' := Next(digest, cfg, c, Pass(ref, now, script));
             ref in c'.objects ==> FINALIZER !in c'.objects[ref].finalizers
    ensures NoLeak(digest, issuer, Next(digest, cfg, c, Pass(ref, now, script))) <==>
              MayLetGo(digest, cfg, issuer, c, ref)
  {
    hide InOrder, KeyFor, Owned, NoLeak, Reconcile.Reconcile, Reaches;
    var c' := Next(digest, cfg, c, Pass(ref, now, script));
    var o := OwnerAt(ref, c.objects[ref]);
    var key := KeyFor(digest, issuer, o);
    if MayLetGo(digest, cfg, issuer, c, ref) {
      PassKeeps(digest, cfg, issuer, c, ref, now, script);
    } else {
      ReleasedLeavesIff(digest, cfg, c, ref, now, script, key);
      NotReached(digest, cfg, c.iam.providers, o, key);
      OnlyRefChanges(digest, cfg, c, ref, now, script);
      assert Owned(c'.iam, key, o) && !Held(c', o);
      LeakSeen(digest, issuer, c', key, o);
    }
  }

  lemma NotReached(digest: Digest, cfg: Config, ps: seq<Provider>, o: Owner, key: string)
    requires !ProviderThere(cfg, ps)
    ensures !Reaches(digest, cfg, ps, o, key)
  {
    hide SelectProvider, NormalizeIssuer, KeyFor;
  }

  lemma LeakSeen(digest: Digest, issuer: string, c: Cluster, key: string, o: Owner)
    requires Owned(c.iam, key, o) && !Held(c, o)
    ensures !NoLeak(digest, issuer, c)
  {
    hide Owned, KeyFor, Held;
  }

  lemma OnlyRefChanges(digest: Digest, cfg: Config, c: Cluster, ref: Ref, now: Time, script: Script)
    requires ref in c.objects
    ensures var c' := Next(digest, cfg, c, Pass(ref, now, script));
            forall r | r != ref && r in c'.objects :: r in c.objects && c'.objects[r] == c.objects[r]
  {
    hide ReconcileBinding, StatusWith, Config.Watches;
    BindingTouches(digest, cfg, c, ref, c.objects[ref], Tail(script));
  }

  /** Without a provider the finalizer goes and the store stays as it is, calls working or not in between. */
  lemma SkippedDeletion(digest: Digest, cfg: Config, c: Cluster, ref: Ref, now: Time)
    requires ref in c.objects && c.objects[ref].deleting && c.objects[ref].finalizers == [FINALIZER]
             && cfg.Watches(ref.namespace)
    requires !Blank(cfg.cluster) && SelectProvider(c.iam.providers, cfg.cluster).NoProvider?
    ensures var c' := Next(digest, cfg, c, Pass(ref, now, [])); c'.objects == c.objects - {ref} && c'.iam == c.iam
  {
    hide Blank, SelectProvider, WithoutIdentity, Config.Watches;
    var w := c.objects[ref];
    assert DropString([FINALIZER], FINALIZER) == [];
  }

  /** Asking for a deletion and reconciling once. */
  lemma DeletionWithoutProvider(digest: Digest, cfg: Config, c: Cluster, ref: Ref, now: Time)
    requires ref in c.objects && c.objects[ref].finalizers == [FINALIZER] && cfg.Watches(ref.namespace)
    requires !Blank(cfg.cluster) && SelectProvider(c.iam.providers, cfg.cluster).NoProvider?
    ensures var c' := Run(digest, cfg, c, [RequestDelete(ref), Pass(ref, now, [])]);
            c'.objects == c.objects - {ref} && c'.iam == c.iam
  {
    hide Blank, SelectProvider, Config.Watches, Reconcile.Reconcile;
    RunTwo(digest, cfg, c, RequestDelete(ref), Pass(ref, now, []));
    SkippedDeletion(digest, cfg, Next(digest, cfg, c, RequestDelete(ref)), ref, now);
  }

  lemma {:induction false} RunSplit(digest: Digest, cfg: Config, c: Cluster, a: seq<Event>, b: seq<Event>)
    ensures Run(digest, cfg, c, a + b) == Run(digest, cfg, Run(digest, cfg, c, a), b)
    decreases |a|
  {
    hide Next;
    if a == [] {
      assert a + b == b;
    } else {
      assert (a + b)[1..] == a[1..] + b;
      RunSplit(digest, cfg, Next(digest, cfg, c, a[0]), a[1..], b);
    }
  }

  lemma RunTwo(digest: Digest, cfg: Config, c: Cluster, a: Event, b: Event)
    ensures Run(digest, cfg, c, [a, b]) == Next(digest, cfg, Next(digest, cfg, c, a), b)
  {
    hide Next;
    var es := [a, b];
    assert es[1..] == [b] && [b][1..] == [];
    assert Run(digest, cfg, Next(digest, cfg, c, a), [b])
             == Run(digest, cfg, Next(digest, cfg, Next(digest, cfg, c, a), b), []);
  }
}
