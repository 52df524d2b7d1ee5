/** What whole attempts do to the question who owns anything in the store. */
module Lifecycle {
  import opened Strings
  import opened Subject
  import opened Store
  import opened Protocol
  import opened Ownership
  import opened Safety
  import opened World
  import opened Guarantees
  import opened Runs

  /** Some service account or federated identity carries the labels of this key and owner. */
  predicate Owned(s: State, key: string, o: Owner) {
    var own := OwnershipLabels(key, o.namespace, o.name);
    Select(s.accounts, own) != [] || Select(s.identities, own) != []
  }

  ghost predicate InOrder(s: State) {
    Sound(s) && Exclusive(s) && Linked(s)
  }

  /** The key of an owner under an issuer. */
  function KeyFor(digest: Digest, issuer: string, o: Owner): string {
    match BuildSubject(o.namespace, o.name)
    case None => ""
    case Some(subject) => ResourceKey(digest, o.namespace, o.name, subject, issuer)
  }

  /** Where the cluster's provider is found and names an issuer, it is this one. */
  predicate KnownIssuer(providers: seq<Provider>, cluster: string, issuer: string) {
    var choice := SelectProvider(providers, cluster);
    choice.OneProvider? ==>
      NormalizeIssuer(choice.provider.issuer) == "" || NormalizeIssuer(choice.provider.issuer) == issuer
  }

  /** Nobody but one owner, under one key, gained or lost anything. */
  ghost predicate OnlyFor(s: State, s': State, key: string, o: Owner) {
    && s'.providers == s.providers && s'.directory == s.directory
    && forall k, x: Owner | k != key || x != o :: Owned(s', k, x) == Owned(s, k, x)
  }

  lemma UntouchedIsOnlyFor(s: State, s': State, key: string, o: Owner)
    requires Untouched(s, s', OwnershipLabels(key, o.namespace, o.name))
    ensures OnlyFor(s, s', key, o)
  {
    hide LabelsMatch, OwnershipLabels, GrantsOf, Unmanaged, Foreign, Others;
    forall k, x: Owner | k != key || x != o
      ensures Owned(s', k, x) == Owned(s, k, x)
    {
      SelectStays(s'.accounts, s.accounts, key, o, k, x);
      SelectStays(s'.identities, s.identities, key, o, k, x);
    }
  }

  lemma EnsureInOrder(digest: Digest, want: EnsureInput, s: State, script: Script)
    requires InOrder(s)
    ensures InOrder(Exec(digest, StartEnsure(want), s, script).1)
  {
    hide Sound, Exclusive, Linked, Knows, Cleared, NoDuplicates, StartEnsure, Exec;
    StartKnows(digest, s, want);
    StartCleared(digest, s, want);
    ExecKnows(digest, StartEnsure(want), s, script);
    ExecOrderly(digest, StartEnsure(want), s, script);
  }

  lemma KeyAtStart(digest: Digest, want: EnsureInput, s: State, issuer: string)
    requires KnownIssuer(s.providers, want.cluster, issuer)
    ensures var p := WithProvider(digest, want, SelectProvider(s.providers, want.cluster));
            p.FindAccount? ==>
              KeyFound(digest, want, s.providers) == KeyFor(digest, issuer, Owner(want.namespace, want.name))
  {
    hide SelectProvider, BuildSubject, NormalizeIssuer, ResourceKey;
  }

  /** An ensure concerns its own owner only, under the key of the cluster's issuer. */
  lemma EnsureConcerns(digest: Digest, want: EnsureInput, s: State, script: Script, issuer: string)
    requires InOrder(s) && KnownIssuer(s.providers, want.cluster, issuer)
    ensures var s' := Exec(digest, StartEnsure(want), s, script).1;
            var o := Owner(want.namespace, want.name);
            InOrder(s') && OnlyFor(s, s', KeyFor(digest, issuer, o), o)
  {
    hide Sound, Exclusive, Linked, Untouched, OnlyFor, KeyFor, KeyFound, TrimSpace, BuildSubject, SelectProvider,
      KnownIssuer, OwnershipLabels;
    EnsureInOrder(digest, want, s, script);
    var o := Owner(want.namespace, want.name);
    var s' := Exec(digest, StartEnsure(want), s, script).1;
    EnsureIsolated(digest, want, s, script);
    UntouchedIsOnlyFor(s, s', KeyFound(digest, want, s.providers), o);
    ProviderStep(digest, want, s, Head(script));
    KeyAtStart(digest, want, s, issuer);
    if !want.Valid() || Step(digest, FindProvider(want), s, Head(script)).0.Stopped? {
      assert s' == s;
      SameStore(s, KeyFor(digest, issuer, o), o);
    }
  }

  lemma SameStore(s: State, key: string, o: Owner)
    ensures OnlyFor(s, s, key, o)
  {}

  /** So does a deletion; one that reports success leaves the owner nothing under that key. */
  lemma DeleteConcerns(digest: Digest, o: Owner, issuer: string, roleRef: string, policyRef: string,
                       s: State, script: Script)
    requires InOrder(s)
    ensures var (p, s', _) := Exec(digest, StartDelete(digest, o.namespace, o.name, issuer, roleRef, policyRef), s,
                                   script);
            && InOrder(s') && OnlyFor(s, s', KeyFor(digest, issuer, o), o)
            && (p.Dropped? ==> !Owned(s', KeyFor(digest, issuer, o), o))
  {
    hide Sound, Exclusive, Linked, Untouched, OnlyFor, BuildSubject, ResourceKey, OwnershipLabels, Exec, LabelsMatch;
    var start := StartDelete(digest, o.namespace, o.name, issuer, roleRef, policyRef);
    DeleteSucceeds(digest, o.namespace, o.name, issuer, roleRef, policyRef, s, script);
    if BuildSubject(o.namespace, o.name).None? {
      ExecEnd(digest, start, s, script);
      SameStore(s, KeyFor(digest, issuer, o), o);
    } else {
      DeleteIsolated(digest, o.namespace, o.name, issuer, roleRef, policyRef, s, script);
      UntouchedIsOnlyFor(s, Exec(digest, start, s, script).1, KeyFor(digest, issuer, o), o);
    }
  }
}
