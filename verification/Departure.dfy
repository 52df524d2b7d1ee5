/** The last reconcile of a binding: what it removes and what it leaves, entry by entry, whatever the status says. */
module Departure {
  import opened Strings
  import opened Subject
  import opened Store
  import opened Protocol
  import opened Ownership
  import opened Safety
  import opened Resolution
  import opened Conditions
  import opened Kube
  import opened Reconcile
  import opened Lifecycle
  import opened Recovery
  import Clearing
  import Configured
  import Guarantees
  import Leaks
  import Providers
  import Removal
  import Runs

  // ---- a fault-free deletion, slot by slot

  /** The text names this slot, as the directory stands. */
  predicate Names(d: Directory, text: string, slot: Slot) {
    TrimSpace(text) != "" && ResolvesTo(d, slot.kind, TrimSpace(text), slot.id)
  }

  /** The binding grants to the account and is marked as the controller's. */
  predicate Given(b: Binding, account: string) {
    && b.info.account == Some(account)
    && Get(b.labels, "thalassa.cloud/managed-by") == "workload-identity-controller"
  }

  /** The owner's account under a key, if it is there. */
  function AccountOf(s: State, key: string, o: Owner): Option<ServiceAccount> {
    Find(s.accounts, OwnershipLabels(key, o.namespace, o.name))
  }

  /** In the slots that the two references name, what the controller gave the owner's account is gone; everything else
      is as it was. */
  ghost predicate Withdrawn(s: State, s': State, account: Option<ServiceAccount>, policyRef: string, roleRef: string) {
    forall slot: Slot, b :: b in s'.At(slot) <==> b in s.At(slot) && !Goes(s, account, policyRef, roleRef, slot, b)
  }

  predicate Goes(s: State, account: Option<ServiceAccount>, policyRef: string, roleRef: string, slot: Slot,
                 b: Binding)
  {
    && account.Some? && Given(b, account.value.id)
    && match slot.kind
       case Policy => Names(s.directory, policyRef, slot)
       case Role => Names(s.directory, roleRef, slot)
  }

  lemma ManagedIsMarked(labels: Labels)
    ensures Managed(labels) <==> Get(labels, "thalassa.cloud/managed-by") == "workload-identity-controller"
  {
    assert MANAGED_BY in map[MANAGED_BY := CONTROLLER];
  }

  lemma Stays(s: State, s': State, own: Labels, x: ServiceAccount, slot: Slot, b: Binding)
    requires InOrder(s) && Runs.Untouched(s, s', own) && Find(s.accounts, own) == Some(x)
    requires exists k, ns, n :: own == OwnershipLabels(k, ns, n)
    requires b in s.At(slot) && !Given(b, x.id)
    ensures b in s'.At(slot)
  {
    hide LabelsMatch, OwnershipLabels, Guarantees.Linked, Find, FreshId;
    ManagedIsMarked(b.labels);
    if !Managed(b.labels) {
      UnmanagedFacts(s.At(slot));
      UnmanagedFacts(s'.At(slot));
    } else {
      SelectFacts(s.accounts, own);
      GrantsFacts(s.At(slot), b.info.account);
      GrantsFacts(s'.At(slot), b.info.account);
      assert Runs.Foreign(s, b.info.account, own);
    }
  }

  lemma SlotAfter(digest: Digest, o: Owner, issuer: string, roleRef: string, policyRef: string, s: State, slot: Slot,
                  b: Binding)
    requires InOrder(s) && BuildSubject(o.namespace, o.name).Some?
    ensures var (q, s', _) := Exec(digest, StartDelete(digest, o.namespace, o.name, issuer, roleRef, policyRef), s, []);
            var account := AccountOf(s, KeyFor(digest, issuer, o), o);
            && q.Dropped?
            && (b in s'.At(slot) <==> b in s.At(slot) && !Goes(s, account, policyRef, roleRef, slot, b))
  {
    hide Exec, BuildSubject, ResourceKey, OwnershipLabels, Find, TrimSpace, Resolve, InOrder, LabelsMatch,
      Clearing.Visited, Runs.Untouched;
    var start := StartDelete(digest, o.namespace, o.name, issuer, roleRef, policyRef);
    var (q, s', _) := Exec(digest, start, s, []);
    Removal.DeleteCompletesIff(digest, o.namespace, o.name, issuer, roleRef, policyRef, s);
    Configured.DeleteAdds(digest, o.namespace, o.name, issuer, roleRef, policyRef, s, [], slot, b);
    Clearing.StartVisitsIff(digest, start, s, slot);
    if slot in Clearing.Visited(digest, start, s, []) {
      Clearing.DeletionClears(digest, o.namespace, o.name, issuer, roleRef, policyRef, s, [], slot);
      var x := AccountOf(s, KeyFor(digest, issuer, o), o).value;
      RemovableFacts(s'.At(slot), x.id);
      ManagedIsMarked(b.labels);
      Sounds(s);
      Runs.DeleteIsolated(digest, o.namespace, o.name, issuer, roleRef, policyRef, s, []);
      if b in s.At(slot) && !Given(b, x.id) {
        Stays(s, s', OwnershipLabels(KeyFor(digest, issuer, o), o.namespace, o.name), x, slot, b);
      }
    } else {
      Clearing.UnvisitedStaysFromStart(digest, start, s, [], slot);
    }
  }

  lemma Sounds(s: State)
    requires InOrder(s)
    ensures Sound(s)
  {}

  /** A fault-free deletion, exactly: of the bindings, those that the controller gave the owner's account in the slots
      its references name go, and no others. */
  lemma DeletionWithdraws(digest: Digest, o: Owner, issuer: string, roleRef: string, policyRef: string, s: State)
    requires InOrder(s) && BuildSubject(o.namespace, o.name).Some?
    ensures var (q, s', _) := Exec(digest, StartDelete(digest, o.namespace, o.name, issuer, roleRef, policyRef), s, []);
            q.Dropped? && Withdrawn(s, s', AccountOf(s, KeyFor(digest, issuer, o), o), policyRef, roleRef)
  {
    hide Exec, StartDelete, BuildSubject, KeyFor, AccountOf, Goes, InOrder;
    Removal.DeleteCompletesIff(digest, o.namespace, o.name, issuer, roleRef, policyRef, s);
    var s' := Exec(digest, StartDelete(digest, o.namespace, o.name, issuer, roleRef, policyRef), s, []).1;
    var account := AccountOf(s, KeyFor(digest, issuer, o), o);
    forall slot: Slot, b
      ensures b in s'.At(slot) <==> b in s.At(slot) && !Goes(s, account, policyRef, roleRef, slot, b)
    {
      SlotAfter(digest, o, issuer, roleRef, policyRef, s, slot, b);
    }
  }

  // ---- the last reconcile of a binding

  /** The annotations less the six that tell an identity. */
  function Stripped(a: Annotations): Annotations {
    a - {"thalassa.cloud/wif.service-account-id", "thalassa.cloud/wif.federated-identity-id",
         "thalassa.cloud/wif.provider-id", "thalassa.cloud/wif.policy-id", "thalassa.cloud/wif.organisation-id",
         "thalassa.cloud/wif.project-id"}
  }

  lemma StrippedIsWithout(a: Annotations)
    ensures WithoutIdentity(a) == Stripped(a)
  {
    assert WithoutIdentity(a).Keys == Stripped(a).Keys;
  }

  lemma CleanClear(c: Cluster, at: Ref, script: Script)
    requires Clean(script)
    ensures var a := ClearAnnotations(c, at, script);
            && a.ok && Clean(a.rest)
            && a.cluster == c.(accounts := if at in c.accounts then c.accounts[at := Stripped(c.accounts[at])]
                                           else c.accounts)
  {
    hide Clean, WithoutIdentity;
    CleanParts(script);
    CleanParts(Tail(script));
    if at in c.accounts {
      StrippedIsWithout(c.accounts[at]);
      if forall k | k in IDENTITY_KEYS :: k !in c.accounts[at] { NothingToStrip(c.accounts, at); }
    }
  }

  lemma NothingToStrip(accounts: map<Ref, Annotations>, at: Ref)
    requires at in accounts && forall k | k in IDENTITY_KEYS :: k !in accounts[at]
    ensures accounts[at := WithoutIdentity(accounts[at])] == accounts
  {
    assert WithoutIdentity(accounts[at]) == accounts[at];
  }

  lemma CleanCloud(digest: Digest, cfg: Config, c: Cluster, ns: string, spec: Spec, policy: string, script: Script,
                   provider: Provider)
    requires Clean(script) && !Blank(cfg.cluster) && BuildSubject(ns, spec.serviceAccount).Some?
    requires SelectProvider(c.iam.providers, cfg.cluster) == OneProvider(provider)
             && NormalizeIssuer(provider.issuer) != ""
    ensures var a := DeleteCloud(digest, cfg, c, ns, spec, policy, script);
            && a.ok && Clean(a.rest)
            && a.cluster == c.(iam := Exec(digest, StartDelete(digest, ns, spec.serviceAccount,
                                                               NormalizeIssuer(provider.issuer), spec.roleRef,
                                                               PolicyToDrop(spec, policy)), c.iam, []).1)
  {
    hide Blank, Exec, StartDelete, SelectProvider, NormalizeIssuer, BuildSubject, PolicyToDrop, Clean;
    CleanParts(script);
    var issuer := NormalizeIssuer(provider.issuer);
    var start := StartDelete(digest, ns, spec.serviceAccount, issuer, spec.roleRef, PolicyToDrop(spec, policy));
    CleanExec(digest, start, c.iam, Tail(script));
    Removal.DeleteCompletesIff(digest, ns, spec.serviceAccount, issuer, spec.roleRef, PolicyToDrop(spec, policy),
                               c.iam);
  }

  /** The object is being deleted and waits for the controller. */
  predicate LastCall(cfg: Config, c: Cluster, ref: Ref) {
    && (cfg.watch == [] || ref.namespace in cfg.watch)
    && ref in c.objects && c.objects[ref].deleting && FINALIZER in c.objects[ref].finalizers
  }

  /** The controller's finalizer is taken off, and no other. */
  ghost predicate TakenOff(had: seq<string>, fs: seq<string>) {
    forall f :: f in fs <==> f in had && f != "thalassa.cloud/wif-finalizer"
  }

  /** What a fault-free last reconcile changes besides the IAM service: the object goes, or keeps only other finalizers,
      and the ServiceAccount loses what tells an identity. */
  ghost predicate Departed(c: Cluster, c': Cluster, ref: Ref)
    requires ref in c.objects
  {
    var w, at := c.objects[ref], Ref(ref.namespace, c.objects[ref].spec.serviceAccount);
    && (ref !in c'.objects ==> forall f | f in w.finalizers :: f == FINALIZER)
    && (ref in c'.objects ==>
          c'.objects[ref] == w.(finalizers := c'.objects[ref].finalizers)
          && TakenOff(w.finalizers, c'.objects[ref].finalizers))
    && c'.objects - {ref} == c.objects - {ref} && c'.configMaps == c.configMaps
    && c'.accounts == if at in c.accounts then c.accounts[at := Stripped(c.accounts[at])] else c.accounts
  }

  lemma Freed(c: Cluster, ref: Ref, script: Script)
    requires Clean(script) && ref in c.objects
    ensures var w := c.objects[ref];
            var a := WriteObject(c, ref, w.(finalizers := DropString(w.finalizers, FINALIZER)), script);
            && a.ok && a.cluster == c.(objects := a.cluster.objects)
            && (ref !in a.cluster.objects ==> forall f | f in w.finalizers :: f == FINALIZER)
            && (ref in a.cluster.objects ==>
                  a.cluster.objects[ref] == w.(finalizers := a.cluster.objects[ref].finalizers)
                  && TakenOff(w.finalizers, a.cluster.objects[ref].finalizers))
            && a.cluster.objects - {ref} == c.objects - {ref}
  {
    hide Clean;
    CleanParts(script);
    DropStringFacts(c.objects[ref].finalizers, FINALIZER);
  }

  lemma CleanLetsGo(digest: Digest, cfg: Config, c: Cluster, ref: Ref, script: Script, s: State)
    requires Clean(script) && LastCall(cfg, c, ref)
    requires var w := c.objects[ref];
             if !w.spec.deleteResources then s == c.iam
             else exists provider ::
                    && !Blank(cfg.cluster) && BuildSubject(ref.namespace, w.spec.serviceAccount).Some?
                    && SelectProvider(c.iam.providers, cfg.cluster) == OneProvider(provider)
                    && NormalizeIssuer(provider.issuer) != ""
                    && s == Exec(digest, StartDelete(digest, ref.namespace, w.spec.serviceAccount,
                                                     NormalizeIssuer(provider.issuer), w.spec.roleRef,
                                                     PolicyToDrop(w.spec, w.status.policy)), c.iam, []).1
    ensures var t := Release(digest, cfg, c, ref, c.objects[ref], script);
            t.seen.None? && t.cluster.iam == s && Departed(c, t.cluster, ref)
  {
    hide Clean, ClearAnnotations, DeleteCloud, DropString, Stripped, Blank, BuildSubject, SelectProvider,
      NormalizeIssuer, Exec, StartDelete, PolicyToDrop, WriteObject;
    var w := c.objects[ref];
    var at := Ref(ref.namespace, w.spec.serviceAccount);
    CleanClear(c, at, script);
    var cleared := ClearAnnotations(c, at, script);
    if w.spec.deleteResources {
      var provider :| SelectProvider(c.iam.providers, cfg.cluster) == OneProvider(provider);
      CleanCloud(digest, cfg, cleared.cluster, ref.namespace, w.spec, w.status.policy, cleared.rest, provider);
      var gone := DeleteCloud(digest, cfg, cleared.cluster, ref.namespace, w.spec, w.status.policy, cleared.rest);
      Freed(gone.cluster, ref, gone.rest);
    } else {
      Freed(cleared.cluster, ref, cleared.rest);
    }
  }

  lemma LastPassIs(digest: Digest, cfg: Config, c: Cluster, ref: Ref, now: Time, script: Script)
    requires Clean(script) && LastCall(cfg, c, ref)
    ensures var t := Release(digest, cfg, c, ref, c.objects[ref], Tail(script));
            t.seen.None? ==> Leaks.Next(digest, cfg, c, Leaks.Pass(ref, now, script)) == t.cluster
    ensures Clean(Tail(script))
  {
    hide Clean, Release;
    CleanParts(script);
  }

  lemma NamesTrimmed(d: Directory, spec: Spec, policy: string, slot: Slot)
    ensures var text := if TrimSpace(policy) != "" then policy else spec.policyRef;
            Names(d, PolicyToDrop(spec, policy), slot) <==> Names(d, text, slot)
  {
    hide TrimSpace, ResolvesTo;
    TrimTwice(policy);
  }

  /** The last reconcile of a binding, with its provider there and no faults, whatever its status says: the binding lets
      go, its owner has no account and no identity left under the provider's key, and of the bindings exactly those are
      gone that the controller gave the owner's account in the slot of the policy recorded in the status, or of the
      policy referred to where none is recorded, and in the slot of the role referred to. */
  lemma LastReconcile(digest: Digest, cfg: Config, c: Cluster, ref: Ref, now: Time, script: Script, provider: Provider)
    requires InOrder(c.iam) && Clean(script) && LastCall(cfg, c, ref) && c.objects[ref].spec.deleteResources
    requires !Blank(cfg.cluster) && Providers.OnlyOne(c.iam.providers, cfg.cluster, provider)
    requires NormalizeIssuer(provider.issuer) != ""
    requires BuildSubject(ref.namespace, c.objects[ref].spec.serviceAccount).Some?
    ensures var c' := Leaks.Next(digest, cfg, c, Leaks.Pass(ref, now, script));
            var w := c.objects[ref];
            var o := Owner(ref.namespace, w.spec.serviceAccount);
            var key := KeyFor(digest, NormalizeIssuer(provider.issuer), o);
            var policy := if TrimSpace(w.status.policy) != "" then w.status.policy else w.spec.policyRef;
            && Departed(c, c', ref) && !Owned(c'.iam, key, o)
            && Withdrawn(c.iam, c'.iam, AccountOf(c.iam, key, o), policy, w.spec.roleRef)
  {
    hide InOrder, Clean, Blank, Providers.OnlyOne, SelectProvider, NormalizeIssuer, BuildSubject, Exec, StartDelete,
      PolicyToDrop, Release, KeyFor, AccountOf, Departed, Owned, OnlyFor, Names, Leaks.Next, Given;
    var w := c.objects[ref];
    var o, issuer := Owner(ref.namespace, w.spec.serviceAccount), NormalizeIssuer(provider.issuer);
    var text := PolicyToDrop(w.spec, w.status.policy);
    Providers.SelectProviderIff(c.iam.providers, cfg.cluster, provider);
    LastPassIs(digest, cfg, c, ref, now, script);
    var s := Exec(digest, StartDelete(digest, o.namespace, o.name, issuer, w.spec.roleRef, text), c.iam, []).1;
    CleanLetsGo(digest, cfg, c, ref, Tail(script), s);
    DeletionWithdraws(digest, o, issuer, w.spec.roleRef, text, c.iam);
    DeleteConcerns(digest, o, issuer, w.spec.roleRef, text, c.iam, []);
    var policy := if TrimSpace(w.status.policy) != "" then w.status.policy else w.spec.policyRef;
    forall slot
      ensures Names(c.iam.directory, text, slot) <==> Names(c.iam.directory, policy, slot)
    {
      NamesTrimmed(c.iam.directory, w.spec, w.status.policy, slot);
    }
  }

  /** Where the resources are to stay, the IAM service is left as it is. */
  lemma LastReconcileKeeps(digest: Digest, cfg: Config, c: Cluster, ref: Ref, now: Time, script: Script)
    requires Clean(script) && LastCall(cfg, c, ref) && !c.objects[ref].spec.deleteResources
    ensures var c' := Leaks.Next(digest, cfg, c, Leaks.Pass(ref, now, script));
            Departed(c, c', ref) && c'.iam == c.iam
  {
    hide Clean, Release, Departed, Leaks.Next;
    LastPassIs(digest, cfg, c, ref, now, script);
    CleanLetsGo(digest, cfg, c, ref, Tail(script), c.iam);
  }

  lemma ClearIs(c: Cluster, at: Ref, script: Script)
    ensures var a := ClearAnnotations(c, at, script);
            var stripped := if at in c.accounts then c.accounts[at := Stripped(c.accounts[at])] else c.accounts;
            && a.cluster == c.(accounts := a.cluster.accounts)
            && (a.cluster.accounts == c.accounts || a.cluster.accounts == stripped)
            && (a.ok ==> a.cluster.accounts == stripped)
  {
    hide WithoutIdentity, Stripped;
    if at in c.accounts {
      StrippedIsWithout(c.accounts[at]);
      if forall k | k in IDENTITY_KEYS :: k !in c.accounts[at] { NothingToStrip(c.accounts, at); }
    }
  }

  lemma ReleaseClearsFirst(digest: Digest, cfg: Config, c: Cluster, ref: Ref, w: Wib, script: Script)
    requires FINALIZER in w.finalizers
    ensures var t := Release(digest, cfg, c, ref, w, script);
            var at := Ref(ref.namespace, w.spec.serviceAccount);
            && (t.cluster.iam != c.iam || t.cluster.objects != c.objects ==>
                  t.cluster.accounts
                  == if at in c.accounts then c.accounts[at := Stripped(c.accounts[at])] else c.accounts)
            && t.cluster.accounts - {at} == c.accounts - {at}
  {
    hide ClearAnnotations, DeleteCloud, DropString, Stored, Stripped;
    var at := Ref(ref.namespace, w.spec.serviceAccount);
    ClearIs(c, at, script);
    var cleared := ClearAnnotations(c, at, script);
    DeleteCloudTouches(digest, cfg, cleared.cluster, ref.namespace, w.spec, w.status.policy, cleared.rest);
  }

  /** First the ServiceAccount loses what tells its identity: through whatever faults, a reconcile that has touched the
      IAM service, or let go of the binding, has left no such annotation on it. */
  lemma ClearsFirst(digest: Digest, cfg: Config, c: Cluster, ref: Ref, now: Time, script: Script)
    requires LastCall(cfg, c, ref)
    ensures var t := Reconcile.Reconcile(digest, cfg, c, ref, now, script);
            var at := Ref(ref.namespace, c.objects[ref].spec.serviceAccount);
            var gone := ref !in t.cluster.objects || FINALIZER !in t.cluster.objects[ref].finalizers;
            && (t.cluster.iam != c.iam || gone ==>
                  t.cluster.accounts
                  == if at in c.accounts then c.accounts[at := Stripped(c.accounts[at])] else c.accounts)
            && t.cluster.accounts - {at} == c.accounts - {at}
  {
    hide Release, StatusWith, Stripped;
    ReleaseClearsFirst(digest, cfg, c, ref, c.objects[ref], Tail(script));
  }
}
