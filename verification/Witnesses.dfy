/** Inputs on which the guarantees that have a condition fail, to show that each condition excludes something real. */
module Witnesses {
  import opened Strings
  import opened Subject
  import opened Store
  import opened Protocol
  import opened Ownership
  import opened Safety
  import opened Quiescence
  import opened Undo
  import opened Kube
  import opened Reconcile
  import opened Lifecycle
  import opened History
  import opened Recovery
  import Scopes
  import Resolution
  import Restoration
  import Guarantees
  import Truth
  import Runs
  import World
  import Leaks
  import Guard
  import Stability
  import Clearing
  import Removal
  import PodMutator

  // ---- a wrong subject or provider stays

  /** The store after a number of fault-free ensures. */
  function Again(digest: Digest, want: EnsureInput, s: State, n: nat): State {
    if n == 0 then s else Exec(digest, StartEnsure(want), Again(digest, want, s, n - 1), []).1
  }

  lemma EnsureKeepsGround(digest: Digest, want: EnsureInput, s: State, script: Script)
    requires Sound(s) && Provisionable(s.providers, s.directory, want)
    ensures var (p, s', _) := Exec(digest, StartEnsure(want), s, script);
            && Sound(s') && s'.providers == s.providers && s'.directory == s.directory
            && (script == [] ==> p.Ensured?)
  {
    hide Sound, Exec, StartEnsure, Provisionable, Knows, OwnershipLabels, Runs.KeyFound, GrantsOf, Others, Unmanaged,
      Guarantees.NoDuplicates;
    EnsureCompletesIff(digest, want, s);
    Runs.EnsureIsolated(digest, want, s, script);
    World.StartKnows(digest, s, want);
    Runs.ExecKnows(digest, StartEnsure(want), s, script);
  }

  lemma SameJob(digest: Digest, want: EnsureInput, s: State, s': State)
    requires s'.providers == s.providers
    ensures JobOf(digest, want, s') == JobOf(digest, want, s)
  {}

  /** An identity found with a wrong subject is updated by every ensure and never put right. */
  lemma {:induction false} NeverQuiet(digest: Digest, want: EnsureInput, s: State, n: nat)
    requires Sound(s) && Provisionable(s.providers, s.directory, want)
    requires var j := JobOf(digest, want, s);
             var found := Find(s.identities, j.Labels());
             found.Some? && found.value.info.subject != j.subject
    ensures var s' := Again(digest, want, s, n);
            var j := JobOf(digest, want, s);
            var found := Find(s'.identities, j.Labels());
            && Sound(s') && s'.providers == s.providers && s'.directory == s.directory
            && found.Some? && found.value.info.subject != j.subject
            && Exec(digest, StartEnsure(want), s', []).0.Ensured?
            && (n > 0 ==> !Quiet(digest, StartEnsure(want), s', []))
  {
    hide Sound, Exec, StartEnsure, Provisionable, Find, JobOf, Quiet, OwnershipLabels, UpToDate, OriginFrom;
    if n > 0 {
      NeverQuiet(digest, want, s, n - 1);
      var t := Again(digest, want, s, n - 1);
      EnsureKeepsGround(digest, want, t, []);
      SameJob(digest, want, s, t);
      var s' := Again(digest, want, s, n);
      SameJob(digest, want, s, s');
      EnsureKeepsGround(digest, want, s', []);
      Guarantees.SoundIdentities(t);
      OriginIff(digest, want, t, []);
      Unordered(s');
      QuiescenceIff(digest, want, t, [], s');
      JobIsKept(digest, want, t);
    } else {
      EnsureKeepsGround(digest, want, s, []);
    }
  }

  lemma JobIsKept(digest: Digest, want: EnsureInput, s: State)
    requires Exec(digest, StartEnsure(want), s, []).0.Ensured?
    ensures Exec(digest, StartEnsure(want), s, []).0.task.job == JobOf(digest, want, s)
  {
    hide Exec, StartEnsure, JobOf;
    FirstCall(digest, want, s, []);
    Truth.ExecSameJob(digest, FindAccount(JobOf(digest, want, s)), s, []);
  }

  lemma Unordered(s: State)
    ensures Reordered(s, s)
  {}

  // ---- one small cluster

  const EXAMPLE_DIGEST: Digest := text => "k"
  const EXAMPLE_PROVIDER := Provider("idp", "i", map[CLUSTER_ID := "c"])
  const EXAMPLE_POLICY := Target("p", "", "")
  const EXAMPLE_WANT := EnsureInput("ns", "sa", "", "p", "", [Scopes.OPENID], ["aud"], "c", [], [])

  function ExampleStore(accounts: seq<ServiceAccount>, identities: seq<FederatedIdentity>): State {
    State([EXAMPLE_PROVIDER], Directory([EXAMPLE_POLICY], [], map[]), accounts, identities, map[], 0)
  }

  lemma ExampleWords()
    ensures TrimSpace("ns") == "ns" && TrimSpace("sa") == "sa" && TrimSpace("p") == "p" && TrimSpace("c") == "c"
    ensures TrimSpace("") == "" && TrimSpace("i") == "i" && TrimSpace("org") == "org"
  {
    TightIsFixed("ns");
    TightIsFixed("sa");
    TightIsFixed("p");
    TightIsFixed("c");
    TightIsFixed("i");
    TightIsFixed("org");
  }

  lemma ExampleValid()
    ensures EXAMPLE_WANT.Valid() && BuildSubject("ns", "sa") == Some("system:serviceaccount:ns:sa")
    ensures NormalizeIssuer("i") == "i"
  {
    hide TrimSpace;
    ExampleWords();
    assert SubjectText("ns", "sa") == "system:serviceaccount:ns:sa";
  }

  lemma ExampleChoice()
    ensures SelectProvider([EXAMPLE_PROVIDER], "c") == OneProvider(EXAMPLE_PROVIDER)
  {
    hide TrimSpace;
    ExampleWords();
    var want := map[CLUSTER_ID := "c"];
    assert CLUSTER_ID in want && want != map[];
    assert LabelsMatch(EXAMPLE_PROVIDER.labels, want);
    assert [EXAMPLE_PROVIDER][..0] == [];
    assert ForCluster([], "c") == [];
    assert ForCluster([EXAMPLE_PROVIDER], "c") == [] + [EXAMPLE_PROVIDER];
  }

  lemma ExampleResolves(d: Directory)
    requires d == Directory([EXAMPLE_POLICY], [], map[])
    ensures Resolution.Resolve(d, Policy, "p") == Some(EXAMPLE_POLICY) == Pick(Policy, d.policies, "p")
  {
    Resolution.EqualFoldReflexive("p");
    assert FirstById([EXAMPLE_POLICY], "p") == Some(EXAMPLE_POLICY);
  }

  lemma ExampleProvisionable(accounts: seq<ServiceAccount>, identities: seq<FederatedIdentity>)
    ensures var s := ExampleStore(accounts, identities);
            Provisionable(s.providers, s.directory, EXAMPLE_WANT)
  {
    hide TrimSpace, Pick, Resolution.Resolve, SelectProvider, NormalizeIssuer, BuildSubject;
    var s := ExampleStore(accounts, identities);
    ExampleWords();
    ExampleValid();
    ExampleChoice();
    ExampleResolves(s.directory);
    assert EXAMPLE_WANT.Ref(Policy) == "p" && EXAMPLE_WANT.Ref(Role) == "";
  }

  lemma ExampleJob(s: State)
    requires s.providers == [EXAMPLE_PROVIDER]
    ensures var j := JobOf(EXAMPLE_DIGEST, EXAMPLE_WANT, s);
            && j.provider == EXAMPLE_PROVIDER && j.subject == "system:serviceaccount:ns:sa"
            && j.Labels() == OwnershipLabels("k", "ns", "sa")
  {
    hide SelectProvider, BuildSubject, NormalizeIssuer, KeyPreimage, TrimSpace;
    ExampleChoice();
    ExampleValid();
  }

  /** The owner's account and an identity linked to it, for some subject at some provider. */
  function ExampleOwned(subject: string, provider: string): State {
    var own := OwnershipLabels("k", "ns", "sa");
    ExampleStore([Resource("a", "a", own, AccountInfo(map[]))],
                 [Resource("f", "f", own, IdentityInfo("", "", subject, "a", provider, [], "", []))])
  }

  lemma ExampleFound(subject: string, provider: string)
    ensures var s := ExampleOwned(subject, provider);
            && Sound(s) && Find(s.identities, OwnershipLabels("k", "ns", "sa")) == Some(s.identities[0])
  {
    hide OwnershipLabels, LabelsMatch;
    var s := ExampleOwned(subject, provider);
    OwnershipMatch(OwnershipLabels("k", "ns", "sa"), "k", "ns", "sa");
    forall k: nat
      ensures FreshId(k) != "a" && FreshId(k) != "f"
    {
      assert |FreshId(k)| >= 3;
    }
  }

  /** The provider was made anew under the same issuer: the ensure succeeds and reports the new provider, and the
      identity stays with the old one. */
  lemma StaleProvider() returns (s: State)
    ensures Sound(s)
    ensures var (p, s', _) := Exec(EXAMPLE_DIGEST, StartEnsure(EXAMPLE_WANT), s, []);
            var x := Find(s'.identities, OwnershipLabels("k", "ns", "sa"));
            && p.Ensured? && ResultOf(p.task).provider == "idp" && x.Some? && x.value.info.provider == "old"
  {
    hide Exec, StartEnsure, Provisionable, Sound, Find, OwnershipLabels, JobOf, UpToDate, BoundPolicy;
    s := ExampleOwned("system:serviceaccount:ns:sa", "old");
    ExampleProvisionable(s.accounts, s.identities);
    ExampleFound("system:serviceaccount:ns:sa", "old");
    EnsureKeepsGround(EXAMPLE_DIGEST, EXAMPLE_WANT, s, []);
    Guarantees.SoundIdentities(s);
    EnsureUpdates(EXAMPLE_DIGEST, EXAMPLE_WANT, s, []);
    ExampleJob(s);
    JobIsKept(EXAMPLE_DIGEST, EXAMPLE_WANT, s);
  }

  /** An identity with another subject: no number of ensures brings one that writes nothing. */
  lemma WrongSubject() returns (s: State)
    ensures Sound(s)
    ensures forall n: nat | n > 0 ::
              var s' := Again(EXAMPLE_DIGEST, EXAMPLE_WANT, s, n);
              Exec(EXAMPLE_DIGEST, StartEnsure(EXAMPLE_WANT), s', []).0.Ensured?
              && !Quiet(EXAMPLE_DIGEST, StartEnsure(EXAMPLE_WANT), s', [])
  {
    hide Exec, StartEnsure, Provisionable, Sound, Find, OwnershipLabels, JobOf, Quiet;
    s := ExampleOwned("other", "idp");
    ExampleProvisionable(s.accounts, s.identities);
    ExampleFound("other", "idp");
    ExampleJob(s);
    forall n: nat | n > 0
      ensures var s' := Again(EXAMPLE_DIGEST, EXAMPLE_WANT, s, n);
              Exec(EXAMPLE_DIGEST, StartEnsure(EXAMPLE_WANT), s', []).0.Ensured?
              && !Quiet(EXAMPLE_DIGEST, StartEnsure(EXAMPLE_WANT), s', [])
    {
      NeverQuiet(EXAMPLE_DIGEST, EXAMPLE_WANT, s, n);
    }
  }

  // ---- a lookup that fails for once

  /** A role whose slug is the identity of another, which a direct lookup finds. */
  const EXAMPLE_ROLES := Directory([], [Target("r2", "r1", ""), Target("r1", "", "")],
                                   map[Slot(Role, "r1") := Target("r1", "", "")])
  const EXAMPLE_ROLE_WANT := EnsureInput("ns", "sa", "r1", "", "", [Scopes.OPENID], ["aud"], "c", [], [])

  function RoleStore(): State {
    State([EXAMPLE_PROVIDER], EXAMPLE_ROLES, [], [], map[], 0)
  }

  lemma RoleExample()
    ensures var s := RoleStore();
            var j := JobOf(EXAMPLE_DIGEST, EXAMPLE_ROLE_WANT, s);
            && Sound(s) && Provisionable(s.providers, s.directory, EXAMPLE_ROLE_WANT) && j.want == EXAMPLE_ROLE_WANT
            && EXAMPLE_ROLE_WANT.Valid()
            && WithProvider(EXAMPLE_DIGEST, EXAMPLE_ROLE_WANT, SelectProvider(s.providers, "c")) == FindAccount(j)
            && EXAMPLE_ROLE_WANT.Ref(Policy) == "" && EXAMPLE_ROLE_WANT.Ref(Role) == "r1"
            && Resolution.Resolve(s.directory, Role, "r1") == Some(Target("r1", "", ""))
  {
    hide TrimSpace, SelectProvider, NormalizeIssuer, BuildSubject, KeyPreimage;
    TightIsFixed("r1");
    ExampleWords();
    ExampleValid();
    ExampleChoice();
  }

  lemma RolesFit()
    ensures var d, want := EXAMPLE_ROLES, EXAMPLE_ROLE_WANT;
            Stability.Fits(d, want, [Slot(Role, "r1")]) && Stability.Fits(d, want, [Slot(Role, "r2")])
  {
    hide TrimSpace;
    var d, want := EXAMPLE_ROLES, EXAMPLE_ROLE_WANT;
    RoleExample();
    Resolution.EqualFoldReflexive("r1");
    assert Guard.Vet(d, want, Slot(Role, "r1"), d.roles[1]) && Guard.Vet(d, want, Slot(Role, "r2"), d.roles[0]);
    assert d in {d};
  }

  /** A lookup that fails for once leads the first ensure to another role than the next one, which binds again. */
  lemma OtherRole() returns (s: State, script: Script)
    ensures Sound(s)
    ensures var want := EXAMPLE_ROLE_WANT;
            var (p, s1, _) := Exec(EXAMPLE_DIGEST, StartEnsure(want), s, script);
            var (q, _, _) := Exec(EXAMPLE_DIGEST, StartEnsure(want), s1, []);
            && p.Ensured? && p.task.bound == [Slot(Role, "r2")]
            && q.Ensured? && q.task.bound == [Slot(Role, "r1")]
            && !Quiet(EXAMPLE_DIGEST, StartEnsure(want), s1, [])
  {
    hide Exec, StartEnsure, Provisionable, Sound, OwnershipLabels, JobOf, Quiet, Stability.Fits, WithProvider, Find,
      UpToDate, AllSettled, TrimSpace, AnyGrantsTo;
    var digest, want := EXAMPLE_DIGEST, EXAMPLE_ROLE_WANT;
    s := RoleStore();
    RoleExample();
    RolesFit();
    var t;
    script, t := Stability.EnsurePath(digest, want, s, [Slot(Role, "r2")]);
    EnsureKeepsGround(digest, want, s, script);
    var s1 := Exec(digest, StartEnsure(want), s, script).1;
    EnsureKeepsGround(digest, want, s1, []);
    var (q, s2, _) := Exec(digest, StartEnsure(want), s1, []);
    Unordered(s2);
    var x, y := Aftermath(digest, want, s1, [], s2);
    Stability.BoundFits(digest, want, s1, []);
    OnlyRole(s1.directory, q.task.bound);
    if Quiet(digest, StartEnsure(want), s1, []) {
      QuietKeepsStore(digest, StartEnsure(want), s1, []);
      Stability.SettledGrants(s2, Task(JobOf(digest, want, s1), x.id, y.id, []), q.task);
      assert s1.At(Slot(Role, "r1")) == [];
      NothingGranted(x.id);
    }
  }

  lemma OnlyRole(d: Directory, bound: seq<Slot>)
    requires d == EXAMPLE_ROLES && Stability.Fits(d, EXAMPLE_ROLE_WANT, bound) && AllLead(d, EXAMPLE_ROLE_WANT, bound)
    ensures bound == [Slot(Role, "r1")]
  {
    hide TrimSpace, Guard.Vetted, Resolution.Grantable;
    RoleExample();
    assert |Runs.Kinds(bound)| == 1 && Runs.Kinds(bound)[0] == bound[0].kind;
    assert LeadsTo(d, EXAMPLE_ROLE_WANT, bound[0]);
  }

  lemma NothingGranted(account: string)
    ensures !AnyGrantsTo([], account)
  {}

  /** The other way round: the next ensure writes nothing, but one whose lookup fails binds the other role as well. */
  lemma LateFailure() returns (s: State, script: Script)
    ensures Sound(s)
    ensures var want := EXAMPLE_ROLE_WANT;
            var s1 := Exec(EXAMPLE_DIGEST, StartEnsure(want), s, script).1;
            && Stability.Repeats(EXAMPLE_DIGEST, want, s, script, s1)
            && !Stability.NeverWrites(EXAMPLE_DIGEST, want, s1)
  {
    hide Exec, StartEnsure, Provisionable, Sound, OwnershipLabels, JobOf, Quiet, Stability.Fits, WithProvider, Find,
      TrimSpace, AnyGrantsTo, Stability.NeverWrites, LeadsTo;
    var digest, want := EXAMPLE_DIGEST, EXAMPLE_ROLE_WANT;
    s := RoleStore();
    RoleExample();
    RolesFit();
    var t;
    script, t := Stability.EnsurePath(digest, want, s, [Slot(Role, "r1")]);
    var s1 := Exec(digest, StartEnsure(want), s, script).1;
    Unordered(s1);
    QuiescenceIff(digest, want, s, script, s1);
    NothingFound(JobOf(digest, want, s).Labels());
    RoleLeads();
    Stability.QuietWhateverFailsIff(digest, want, s, script, s1);
    SecondMayLead();
    assert s1.At(Slot(Role, "r2")) == [];
    NothingGranted(t.account);
  }

  lemma NothingFound(own: Labels)
    ensures Find<IdentityInfo>([], own) == None
  {}

  lemma RoleLeads()
    ensures LeadsTo(EXAMPLE_ROLES, EXAMPLE_ROLE_WANT, Slot(Role, "r1"))
  {
    hide TrimSpace;
    RoleExample();
  }

  lemma SecondMayLead()
    ensures Stability.MayLead(EXAMPLE_ROLES, EXAMPLE_ROLE_WANT, Slot(Role, "r2"))
  {
    hide TrimSpace, Guard.Vetted;
    RolesFit();
    assert Slot(Role, "r2") in [Slot(Role, "r2")];
  }

  // ---- a policy that does not resolve to itself

  /** A policy is looked up by another word than its identity, and is not in the list. */
  const EXAMPLE_ALIAS := Directory([], [], map[Slot(Policy, "x") := Target("y", "", "")])
  const EXAMPLE_ALIAS_WANT := EnsureInput("ns", "sa", "", "x", "", [Scopes.OPENID], ["aud"], "c", [], [])

  /** The ensure succeeds, the deletion reports success, and the policy's binding is still there. */
  lemma LostPolicy() returns (s: State)
    ensures Sound(s) && s.bindings == map[]
    ensures var want := EXAMPLE_ALIAS_WANT;
            var (p, s1, _) := Exec(EXAMPLE_DIGEST, StartEnsure(want), s, []);
            && p.Ensured?
            && var r := ResultOf(p.task);
               var start := StartDelete(EXAMPLE_DIGEST, want.namespace, want.name, r.issuer, want.roleRef, r.policy);
               var (q, s2, _) := Exec(EXAMPLE_DIGEST, start, s1, []);
               r.policy == "y" && q.Dropped? && |s2.At(Slot(Policy, "y"))| == 1
  {
    hide Exec, StartEnsure, StartDelete, Sound, OwnershipLabels, JobOf, TrimSpace, Provisionable, BuildSubject,
      BoundPolicy, ReResolves;
    var digest, want := EXAMPLE_DIGEST, EXAMPLE_ALIAS_WANT;
    s := State([EXAMPLE_PROVIDER], EXAMPLE_ALIAS, [], [], map[], 0);
    AliasExample();
    ExampleValid();
    EnsureKeepsGround(digest, want, s, []);
    NothingSelected(JobOf(digest, want, s).Labels());
    Clearing.PolicyBindingStays(digest, want, s);
    var (p, s1, _) := Exec(digest, StartEnsure(want), s, []);
    var r := ResultOf(p.task);
    Removal.DeleteCompletesIff(digest, "ns", "sa", r.issuer, "", r.policy, s1);
  }

  lemma NothingSelected(own: Labels)
    ensures Select<AccountInfo>([], own) == [] && Select<IdentityInfo>([], own) == []
  {}

  lemma AliasExample()
    ensures var s := State([EXAMPLE_PROVIDER], EXAMPLE_ALIAS, [], [], map[], 0);
            && Sound(s) && Provisionable(s.providers, s.directory, EXAMPLE_ALIAS_WANT)
            && EXAMPLE_ALIAS_WANT.Ref(Policy) == "x" && !ReResolves(s.directory, "x")
            && Resolution.Resolve(s.directory, Policy, "x") == Some(Target("y", "", ""))
  {
    hide TrimSpace, SelectProvider, NormalizeIssuer, BuildSubject;
    TightIsFixed("x");
    TightIsFixed("y");
    ExampleWords();
    ExampleValid();
    ExampleChoice();
    assert !Blank("y");
  }

  // ---- a leak

  const EXAMPLE_CONFIG := Config({Scopes.OPENID}, "c", ["aud"], [], [], [], "org", "", false)
  const EXAMPLE_SPEC := Spec("sa", "p", "", [], "", true, false)

  lemma ExampleCanBeReady(c: Cluster, ref: Ref)
    requires ref.namespace == "ns" && c.iam == ExampleStore([], []) && c.accounts == map[Ref("ns", "sa") := map[]]
    ensures CanBeReady(EXAMPLE_CONFIG, c, ref, EXAMPLE_SPEC)
  {
    hide TrimSpace, Provisionable;
    ExampleWords();
    ExampleProvisionable([], []);
    assert Words([]) == [];
    assert Scopes.Canonical({Scopes.OPENID}, []) == Scopes.Parsed([Scopes.OPENID]);
    assert InputOf(EXAMPLE_CONFIG, "ns", EXAMPLE_SPEC, [Scopes.OPENID]) == EXAMPLE_WANT;
  }

  lemma EmptyStoreHealthy()
    ensures Healthy(ExampleStore([], [])) && forall k, o: Owner :: !Owned(ExampleStore([], []), k, o)
  {
    hide OwnershipLabels;
    Leaks.NothingOwnedInOrder(ExampleStore([], []));
  }

  /** A leak, from a store in which nothing is owned: a binding is created, becomes ready and is deleted while its
      provider is away. */
  lemma LeakExample() returns (c: Cluster, ref: Ref)
    ensures c.objects == map[] && Sound(c.iam) && forall k, o: Owner :: !Owned(c.iam, k, o)
    ensures var c' := Leaks.Run(EXAMPLE_DIGEST, EXAMPLE_CONFIG, c, Restoration.LifeWithoutEnd(ref, EXAMPLE_SPEC));
            c'.objects == map[] && exists k :: Owned(c'.iam, k, Owner("ns", "sa"))
  {
    hide Sound, Owned, CanBeReady, Leaks.Run, Named, Guarantees.Exclusive, Guarantees.Linked;
    ref := Ref("ns", "binding");
    c := Cluster(ExampleStore([], []), map[], map[Ref("ns", "sa") := map[]], map[]);
    EmptyStoreHealthy();
    ExampleCanBeReady(c, ref);
    Restoration.LeakAfterReady(EXAMPLE_DIGEST, EXAMPLE_CONFIG, c, ref, EXAMPLE_SPEC);
  }

  // ---- a mount without its volume

  /** A closed pod with a token volume of its own, not mounted: mutated, its container mounts a volume it does not
      have. */
  lemma OpenMount() returns (p: PodMutator.PodSpec, id: PodMutator.Identity)
    ensures id.Complete() && PodMutator.Closed(p) && PodMutator.Unique(p)
            && !PodMutator.Closed(PodMutator.Mutated(p, id, "aud"))
  {
    hide PodMutator.WithVolume, PodMutator.AllInjected, TrimSpace;
    ExampleWords();
    TightIsFixed("aud");
    var token := PodMutator.Token("aud", PodMutator.TOKEN_PATH, None);
    var own := PodMutator.Volume("mine", Some([token]));
    var c := PodMutator.Container("main", [], []);
    p, id := PodMutator.PodSpec([own], [], [c]), PodMutator.Identity("org", "sa", "");
    assert token in own.projected.value && PodMutator.HasToken(own, "aud");
    assert own in p.volumes && PodMutator.OtherVolumeServes(p.volumes, "aud");
    assert c in p.init + p.main && !PodMutator.AtTokenPath(c);
    PodMutator.MountClosureIff(p, id, "aud");
  }
}
