/** A deletion gets done: when a fault-free one succeeds, and how soon a binding goes after faults. */
module Removal {
  import opened Strings
  import opened Subject
  import opened Store
  import opened Protocol
  import opened Conditions
  import opened Kube
  import opened Reconcile
  import opened Recovery
  import Leaks
  import Lifecycle
  import Safety

  /** A deletion under way, with something to do wherever it deletes bindings. */
  predicate Dropping(p: Position) {
    Deleting(p) && (p.DropBinding? ==> p.rest != [])
  }

  lemma DroppingGoesOn(digest: Digest, p: Position, s: State)
    requires Dropping(p) && !Terminal(p)
    ensures Dropping(Step(digest, p, s, Ok).0)
  {
    hide LabelsMatch, OwnershipLabels, TrimSpace, Find, Pick, Removable, Without;
  }

  lemma {:induction false} DroppingEnds(digest: Digest, p: Position, s: State)
    requires Dropping(p)
    ensures Exec(digest, p, s, []).0.Dropped?
    decreases Stage(p), Left(p)
  {
    hide Step;
    if !Terminal(p) {
      StageDrops(digest, p, s, Ok);
      DroppingGoesOn(digest, p, s);
      DroppingEnds(digest, Step(digest, p, s, Ok).0, Step(digest, p, s, Ok).1);
    }
  }

  /** A fault-free deletion succeeds on every store, unless the names make no subject. */
  lemma DeleteCompletesIff(digest: Digest, ns: string, n: string, issuer: string, roleRef: string, policyRef: string,
                           s: State)
    ensures Exec(digest, StartDelete(digest, ns, n, issuer, roleRef, policyRef), s, []).0.Dropped? <==>
              BuildSubject(ns, n).Some?
  {
    hide BuildSubject, ResourceKey;
    if BuildSubject(ns, n).Some? {
      DroppingEnds(digest, StartDelete(digest, ns, n, issuer, roleRef, policyRef), s);
    }
  }

  /** What a deletion needs: nothing to delete, or no provider with an issuer to delete by, or one and a subject. */
  predicate Removable(cfg: Config, providers: seq<Provider>, ref: Ref, spec: Spec) {
    spec.deleteResources ==>
      && !Blank(cfg.cluster)
      && match SelectProvider(providers, cfg.cluster)
         case NoProvider => true
         case SeveralProviders => false
         case OneProvider(p) =>
           NormalizeIssuer(p.issuer) == "" || BuildSubject(ref.namespace, spec.serviceAccount).Some?
  }

  lemma CleanDelete(digest: Digest, cfg: Config, c: Cluster, ref: Ref, spec: Spec, policy: string, script: Script)
    requires Clean(script) && spec.deleteResources
    ensures var a := DeleteCloud(digest, cfg, c, ref.namespace, spec, policy, script);
            Clean(a.rest) && (a.ok <==> Removable(cfg, c.iam.providers, ref, spec))
  {
    hide Blank, Exec, StartDelete, SelectProvider, NormalizeIssuer, BuildSubject, PolicyToDrop, Clean;
    CleanParts(script);
    var choice := SelectProvider(c.iam.providers, cfg.cluster);
    if choice.OneProvider? {
      var issuer := NormalizeIssuer(choice.provider.issuer);
      var start := StartDelete(digest, ref.namespace, spec.serviceAccount, issuer, spec.roleRef,
                               PolicyToDrop(spec, policy));
      CleanExec(digest, start, c.iam, Tail(script));
      DeleteCompletesIff(digest, ref.namespace, spec.serviceAccount, issuer, spec.roleRef, PolicyToDrop(spec, policy),
                         c.iam);
    }
  }

  lemma CleanClearWorks(c: Cluster, at: Ref, script: Script)
    requires Clean(script)
    ensures var a := ClearAnnotations(c, at, script); a.ok && Clean(a.rest)
  {
    hide Clean, WithoutIdentity;
    CleanParts(script);
    CleanParts(Tail(script));
  }

  predicate Gone(c: Cluster, ref: Ref) {
    ref in c.objects ==> FINALIZER !in c.objects[ref].finalizers
  }

  lemma CleanRelease(digest: Digest, cfg: Config, c: Cluster, ref: Ref, script: Script)
    requires Clean(script) && ref in c.objects && c.objects[ref].deleting && FINALIZER in c.objects[ref].finalizers
    ensures var t := Release(digest, cfg, c, ref, c.objects[ref], script);
            && (t.seen.None? <==> Removable(cfg, c.iam.providers, ref, c.objects[ref].spec))
            && (t.seen.None? ==> Gone(t.cluster, ref)) && (t.seen.Some? ==> t.cluster.objects == c.objects)
  {
    hide Clean, ClearAnnotations, DeleteCloud, DropString, Removable;
    var w := c.objects[ref];
    var at := Ref(ref.namespace, w.spec.serviceAccount);
    CleanClearWorks(c, at, script);
    ClearTouches(c, at, script);
    var cleared := ClearAnnotations(c, at, script);
    NothingToDelete(cfg, c.iam.providers, ref, w.spec);
    if w.spec.deleteResources {
      CleanDelete(digest, cfg, cleared.cluster, ref, w.spec, w.status.policy, cleared.rest);
      DeleteCloudTouches(digest, cfg, cleared.cluster, ref.namespace, w.spec, w.status.policy, cleared.rest);
      CleanParts(DeleteCloud(digest, cfg, cleared.cluster, ref.namespace, w.spec, w.status.policy, cleared.rest).rest);
    }
    CleanParts(cleared.rest);
    DropStringFacts(w.finalizers, FINALIZER);
  }

  lemma NothingToDelete(cfg: Config, providers: seq<Provider>, ref: Ref, spec: Spec)
    ensures !spec.deleteResources ==> Removable(cfg, providers, ref, spec)
  {}

  /** A fault-free reconcile lets go of a binding being deleted exactly when its deletion has what it needs. */
  lemma LetsGoIff(digest: Digest, cfg: Config, c: Cluster, ref: Ref, now: Time, script: Script)
    requires Clean(script) && cfg.Watches(ref.namespace)
    requires ref in c.objects && c.objects[ref].deleting && FINALIZER in c.objects[ref].finalizers
    ensures Gone(Leaks.Next(digest, cfg, c, Leaks.Pass(ref, now, script)), ref)
            <==> Removable(cfg, c.iam.providers, ref, c.objects[ref].spec)
  {
    hide Clean, Release, Config.Watches, Removable, StatusWith;
    CleanParts(script);
    CleanRelease(digest, cfg, c, ref, Tail(script));
  }

  /** A binding on its way out that can go. */
  predicate Leaving(cfg: Config, c: Cluster, ref: Ref) {
    && cfg.Watches(ref.namespace) && ref in c.objects && c.objects[ref].deleting
    && FINALIZER in c.objects[ref].finalizers
    && Removable(cfg, c.iam.providers, ref, c.objects[ref].spec)
  }

  lemma ReleaseKeepsProviders(digest: Digest, cfg: Config, c: Cluster, ref: Ref, w: Wib, script: Script)
    requires Lifecycle.InOrder(c.iam)
    ensures var t := Release(digest, cfg, c, ref, w, script);
            t.cluster.iam.providers == c.iam.providers && Lifecycle.InOrder(t.cluster.iam)
  {
    hide ClearAnnotations, DropString, Stored, Lifecycle.InOrder, Lifecycle.OnlyFor, Lifecycle.KeyFor,
      Lifecycle.Owned, Exec, StartDelete, SelectProvider, NormalizeIssuer, Blank, PolicyToDrop, DeleteCloud;
    var at := Ref(ref.namespace, w.spec.serviceAccount);
    ClearTouches(c, at, script);
    var cleared := ClearAnnotations(c, at, script);
    CloudKeepsProviders(digest, cfg, cleared.cluster, ref, w, cleared.rest);
  }

  lemma CloudKeepsProviders(digest: Digest, cfg: Config, c: Cluster, ref: Ref, w: Wib, script: Script)
    requires Lifecycle.InOrder(c.iam)
    ensures var a := DeleteCloud(digest, cfg, c, ref.namespace, w.spec, w.status.policy, script);
            a.cluster.iam.providers == c.iam.providers && Lifecycle.InOrder(a.cluster.iam)
  {
    hide Lifecycle.InOrder, Lifecycle.KeyFor, Lifecycle.Owned, Exec, StartDelete, SelectProvider, NormalizeIssuer,
      Blank, PolicyToDrop;
    var choice := SelectProvider(c.iam.providers, cfg.cluster);
    if choice.OneProvider? {
      Lifecycle.DeleteConcerns(digest, Safety.Owner(ref.namespace, w.spec.serviceAccount),
                               NormalizeIssuer(choice.provider.issuer),
                               w.spec.roleRef, PolicyToDrop(w.spec, w.status.policy), c.iam, Tail(script));
    }
  }

  lemma StillLeaving(digest: Digest, cfg: Config, c: Cluster, ref: Ref, now: Time, script: Script)
    requires Lifecycle.InOrder(c.iam) && Leaving(cfg, c, ref)
    ensures var c' := Leaks.Next(digest, cfg, c, Leaks.Pass(ref, now, script));
            Lifecycle.InOrder(c'.iam) && (Gone(c', ref) || Leaving(cfg, c', ref))
  {
    hide Release, Config.Watches, Removable, StatusWith, Lifecycle.InOrder, Stored;
    var w := c.objects[ref];
    ReleaseKeepsProviders(digest, cfg, c, ref, w, Tail(script));
    ReleaseTouches(digest, cfg, c, ref, w, Tail(script));
    DropStringFacts(w.finalizers, FINALIZER);
    StoredGone(c, ref, w.(finalizers := DropString(w.finalizers, FINALIZER)));
  }

  lemma StoredGone(c: Cluster, ref: Ref, w: Wib)
    requires FINALIZER !in w.finalizers
    ensures ref in Stored(c.objects, ref, w) ==> FINALIZER !in Stored(c.objects, ref, w)[ref].finalizers
  {}

  /** Bounded removal: with at most f faults among the calls of all its reconciles, one of the first f + 1 lets go. */
  lemma {:induction false} BoundedRemoval(digest: Digest, cfg: Config, c: Cluster, ref: Ref, passes: seq<Attempt>)
    returns (n: nat)
    requires Lifecycle.InOrder(c.iam) && Leaving(cfg, c, ref) && |passes| >= Faults(passes) + 1
    ensures n <= Faults(passes) + 1 && Gone(Repeat(digest, cfg, c, ref, passes[..n]), ref)
    decreases |passes|
  {
    hide Leaving, Gone, Leaks.Next, Lifecycle.InOrder, FaultsIn, Clean;
    var first := passes[0];
    var c1 := Leaks.Next(digest, cfg, c, Leaks.Pass(ref, first.now, first.script));
    StillLeaving(digest, cfg, c, ref, first.now, first.script);
    if FaultsIn(first.script) == 0 {
      NoFaultsIsClean(first.script);
      CleanLets(digest, cfg, c, ref, first.now, first.script);
    }
    if Gone(c1, ref) {
      n := 1;
      assert passes[..1] == [first];
      assert Repeat(digest, cfg, c1, ref, []) == c1;
    } else {
      var m := BoundedRemoval(digest, cfg, c1, ref, passes[1..]);
      n := m + 1;
      assert passes[..n][1..] == passes[1..][..m];
    }
  }

  lemma CleanLets(digest: Digest, cfg: Config, c: Cluster, ref: Ref, now: Time, script: Script)
    requires Clean(script) && Leaving(cfg, c, ref)
    ensures Gone(Leaks.Next(digest, cfg, c, Leaks.Pass(ref, now, script)), ref)
  {
    hide Clean, Leaks.Next, Removable, Config.Watches, Gone;
    LetsGoIff(digest, cfg, c, ref, now, script);
  }
}
