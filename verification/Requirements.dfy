/** What success needs, spelled out in the fields of the input, of the binding and of the cluster. */
module Requirements {
  import opened Strings
  import opened Subject
  import opened Store
  import opened Protocol
  import opened Resolution
  import opened Conditions
  import opened Kube
  import opened Reconcile
  import opened History
  import opened Recovery
  import Allowlist
  import Diligence
  import Leaks
  import Providers
  import Scopes

  /** The names make a subject: neither is blank and neither holds a slash. */
  predicate ProperNames(namespace: string, name: string) {
    && TrimSpace(namespace) != "" && TrimSpace(name) != ""
    && '/' !in TrimSpace(namespace) && '/' !in TrimSpace(name)
  }

  /** Exactly one provider carries the cluster's label, and its issuer is more than space and a slash. */
  ghost predicate ProviderWithIssuer(ps: seq<Provider>, cluster: string) {
    exists p :: Providers.OnlyOne(ps, cluster, p) && TrimSpace(p.issuer) != "" && TrimSpace(p.issuer) != "/"
  }

  /** Where a reference is given, it resolves to something that the list, if there is one, names. */
  ghost predicate RefWorks(d: Directory, kind: Kind, ref: string, allowlist: seq<string>) {
    TrimSpace(ref) != "" ==>
      exists t: Target :: Resolve(d, kind, TrimSpace(ref)) == Some(t)
                          && Allowlist.OnList(allowlist, [TrimSpace(ref), t.id, t.slug, t.name])
  }

  lemma GrantableIff(d: Directory, want: EnsureInput, kind: Kind)
    requires want.Ref(kind) != ""
    ensures Grantable(d, want, kind) <==>
            exists t: Target :: Resolve(d, kind, want.Ref(kind)) == Some(t)
                                && Allowlist.OnList(want.Allowed(kind), [want.Ref(kind), t.id, t.slug, t.name])
  {
    hide TrimSpace, Resolve, Allowlist.OnList, Allowlist.Permitted;
    var r := Resolve(d, kind, want.Ref(kind));
    if r.Some? {
      var t := r.value;
      Allowlist.PermittedIff(want.Allowed(kind), want.Ref(kind), [t.id, t.slug, t.name]);
      assert [want.Ref(kind)] + [t.id, t.slug, t.name] == [want.Ref(kind), t.id, t.slug, t.name];
    }
  }

  lemma IssuerIff(issuer: string)
    ensures NormalizeIssuer(issuer) != "" <==> TrimSpace(issuer) != "" && TrimSpace(issuer) != "/"
  {
    hide TrimSpace;
    var t := TrimSpace(issuer);
    if t != "" && t[|t| - 1] == '/' && |t| == 1 { assert t == "/"; }
  }

  lemma ProviderIff(ps: seq<Provider>, cluster: string)
    ensures ProviderWithIssuer(ps, cluster) <==>
            var choice := SelectProvider(ps, cluster);
            choice.OneProvider? && NormalizeIssuer(choice.provider.issuer) != ""
  {
    hide TrimSpace, SelectProvider, NormalizeIssuer, Providers.OnlyOne;
    var choice := SelectProvider(ps, cluster);
    if choice.OneProvider? {
      Providers.SelectProviderIff(ps, cluster, choice.provider);
      IssuerIff(choice.provider.issuer);
    }
    if ProviderWithIssuer(ps, cluster) {
      var p :| Providers.OnlyOne(ps, cluster, p) && TrimSpace(p.issuer) != "" && TrimSpace(p.issuer) != "/";
      Providers.SelectProviderIff(ps, cluster, p);
      IssuerIff(p.issuer);
    }
  }

  /** What an ensure needs. */
  ghost predicate Supplied(ps: seq<Provider>, d: Directory, want: EnsureInput) {
    && ProperNames(want.namespace, want.name)
    && (TrimSpace(want.policyRef) != "" || TrimSpace(want.roleRef) != "")
    && TrimSpace(want.policyRef) != "*" && TrimSpace(want.roleRef) != "*"
    && TrimSpace(want.cluster) != "" && want.audiences != [] && want.scopes != []
    && ProviderWithIssuer(ps, want.cluster)
    && RefWorks(d, Policy, want.policyRef, want.allowedPolicies) && RefWorks(d, Role, want.roleRef, want.allowedRoles)
  }

  lemma SuppliedIff(ps: seq<Provider>, d: Directory, want: EnsureInput)
    ensures Provisionable(ps, d, want) <==> Supplied(ps, d, want)
  {
    hide TrimSpace, Resolve, Allowlist.OnList, SelectProvider, NormalizeIssuer, Grantable, ProviderWithIssuer;
    ProviderIff(ps, want.cluster);
    if want.Ref(Policy) != "" { GrantableIff(d, want, Policy); }
    if want.Ref(Role) != "" { GrantableIff(d, want, Role); }
  }

  /** A fault-free ensure succeeds if and only if it has what it needs. */
  lemma EnsureCompletesWhen(digest: Digest, want: EnsureInput, s: State)
    ensures Exec(digest, StartEnsure(want), s, []).0.Ensured? <==> Supplied(s.providers, s.directory, want)
  {
    hide Exec, StartEnsure, Provisionable, Supplied;
    EnsureCompletesIff(digest, want, s);
    SuppliedIff(s.providers, s.directory, want);
  }

  /** What a binding needs to become ready. */
  ghost predicate Fit(cfg: Config, c: Cluster, ref: Ref, spec: Spec) {
    && ProperNames(ref.namespace, spec.serviceAccount) && !Diligence.Hopeless(cfg, c, ref, spec)
    && TrimSpace(cfg.cluster) != "" && cfg.audiences != [] && ProviderWithIssuer(c.iam.providers, cfg.cluster)
    && RefWorks(c.iam.directory, Policy, spec.policyRef, cfg.allowedPolicies)
    && RefWorks(c.iam.directory, Role, spec.roleRef, cfg.allowedRoles)
    && (spec.identityConfigMap || cfg.identityConfigMap ==>
          && TrimSpace(cfg.organisation) != ""
          && !Diligence.OthersMap(c, Ref(ref.namespace, "wif-" + TrimSpace(spec.serviceAccount)), ref))
  }

  lemma FitIff(cfg: Config, c: Cluster, ref: Ref, spec: Spec)
    ensures CanBeReady(cfg, c, ref, spec) <==> Fit(cfg, c, ref, spec)
  {
    hide TrimSpace, Scopes.Canonical, Words, ProviderWithIssuer, RefWorks, Diligence.BadScopes, Provisionable;
    Diligence.BadScopesIff(cfg.known, spec.scopes);
    var r := Scopes.Canonical(cfg.known, Words(spec.scopes));
    if r.Parsed? {
      SomeScope(cfg.known, Words(spec.scopes));
      SuppliedIff(c.iam.providers, c.iam.directory, InputOf(cfg, ref.namespace, spec, r.scopes));
    }
  }

  lemma SomeScope(known: set<string>, words: seq<string>)
    requires Scopes.Canonical(known, words).Parsed?
    ensures Scopes.Canonical(known, words).scopes != []
  {
    Scopes.FirstOccurrencesFacts(words);
    if words != [] { assert words[0] in words; }
  }

  /** A fault-free reconcile of a binding that has its finalizer leaves it ready if and only if it has what it needs. */
  lemma ReadyWhen(digest: Digest, cfg: Config, c: Cluster, ref: Ref, now: Time)
    requires Healthy(c.iam) && Diligence.Watched(cfg, ref.namespace)
    requires ref in c.objects && !c.objects[ref].deleting && FINALIZER in c.objects[ref].finalizers
    ensures var c' := Leaks.Next(digest, cfg, c, Leaks.Pass(ref, now, []));
            ref in c'.objects && (IsReady(c'.objects[ref]) <==> Fit(cfg, c, ref, c.objects[ref].spec))
  {
    hide Healthy, CanBeReady, Fit, IsReady, Leaks.Next;
    assert Clean([]);
    ReadyIff(digest, cfg, c, ref, now, []);
    FitIff(cfg, c, ref, c.objects[ref].spec);
  }
}
