/** What an ensure makes, in the terms of the binding and of the configuration. */
module Making {
  import opened Strings
  import opened Subject
  import opened Store
  import opened Protocol
  import opened Ownership
  import opened Safety
  import opened Undo
  import opened Kube
  import opened Reconcile
  import Providers
  import Quiescence
  import Handoff
  import Truth
  import Scopes

  // ---- names

  function Cut(text: string): string {
    if |text| > 200 then text[..200] else text
  }

  /** An identity is named after the override, or else the key. */
  function IdentityTitle(nameOverride: string, key: string): string {
    var o := TrimSpace(nameOverride);
    Cut(if o != "" then o + "-fi" else "wif-k8s-" + key + "-fi")
  }

  /** So is an account. */
  function AccountTitle(nameOverride: string, key: string): string {
    var o := TrimSpace(nameOverride);
    Cut(if o != "" then o else TrimSpace("wif-k8s-" + key))
  }

  /** An account tells the Kubernetes account it is for, and its subject. */
  function AccountNotes(namespace: string, name: string): map<string, string> {
    map["thalassa.cloud/wif.repository" := namespace + "/" + name,
        "thalassa.cloud/wif.provider-subject" := SubjectOf(namespace, name)]
  }

  lemma IdentityIsTitled(j: Job, y: FederatedIdentity)
    requires Quiescence.UpToDate(y, j)
    ensures y.name == IdentityTitle(j.want.nameOverride, j.key)
  {
    hide LabelsMatch, OwnershipLabels, TrimSpace;
    var o := TrimSpace(j.want.nameOverride);
    TrimIsTight(j.want.nameOverride);
    var text := if o != "" then o + "-fi" else "wif-k8s-" + j.key + "-fi";
    assert text[0] == (if o != "" then o[0] else 'w') && text[|text| - 1] == 'i';
    TightIsFixed(text);
  }

  lemma AccountIsTitled(s: State, j: Job)
    requires BuildSubject(j.want.namespace, j.want.name) == Some(j.subject)
    ensures AccountMade(s, j).name == AccountTitle(j.want.nameOverride, j.key)
    ensures AccountMade(s, j).info.annotations == AccountNotes(j.want.namespace, j.want.name)
  {
    hide OwnershipLabels, TrimSpace, FreshId;
    TrimTwice(j.want.nameOverride);
  }

  /** The account and the identity an ensure reports, with what was asked for: whatever was there before, the identity's
      scopes, audiences and name, and the name and notes of an account that was made. */
  ghost predicate AsAsked(before: State, want: EnsureInput, key: string, x: ServiceAccount, y: FederatedIdentity) {
    && multiset(y.info.scopes) == multiset(want.scopes) && multiset(y.info.audiences) == multiset(want.audiences)
    && y.name == IdentityTitle(want.nameOverride, key)
    && (x !in before.accounts ==>
          x.name == AccountTitle(want.nameOverride, key)
          && x.info.annotations == AccountNotes(want.namespace, want.name))
  }

  lemma EnsuredAsAsked(digest: Digest, want: EnsureInput, s: State, script: Script)
    returns (x: ServiceAccount, y: FederatedIdentity)
    requires Sound(s) && Exec(digest, StartEnsure(want), s, script).0.Ensured?
    ensures var (p, s', _) := Exec(digest, StartEnsure(want), s, script);
            && x in s'.accounts && x.id == p.task.account && y in s'.identities && y.id == p.task.identity
            && AsAsked(s, want, p.task.job.key, x, y)
  {
    hide TrimSpace, SelectProvider, LabelsMatch, OwnershipLabels, FromPolicy, Quiescence.AllSettled, Find, Exec,
      WithProvider, StartEnsure, AccountMade, FederatedIdentityName, Description, BuildSubject, JobOf;
    Quiescence.FirstCall(digest, want, s, script);
    var j := JobOf(digest, want, s);
    var rest, rest': Script, s1, s3: State;
    x, s1, rest := Quiescence.AccountStage(digest, j, s, Tail(script));
    assert DistinctIds(s.identities);
    y, s3, rest' := Quiescence.IdentityStage(digest, j, x.id, s1, rest);
    var t := Task(j, x.id, y.id, []);
    Quiescence.BindingStage(digest, t, s3, rest');
    var (end, s4, _) := Exec(digest, StartEnsure(want), s, script);
    Quiescence.SettledEnd(s4, t, end.task);
    IdentityIsTitled(j, y);
    Truth.SubjectOfJob(digest, want, s);
    AccountIsTitled(s, j);
    FindFacts(s.accounts, j.Labels());
    FindFacts(s4.accounts, j.Labels());
    FindFacts(s4.identities, j.Labels());
  }

  /** The text of a subject. */
  function SubjectOf(namespace: string, name: string): string {
    "system:serviceaccount:" + TrimSpace(namespace) + ":" + TrimSpace(name)
  }

  /** What an ensure that succeeds answers, through whatever faults: the one provider of the cluster, the owner's
      subject, the issuer, and the digest of the four lines that name the owner's resources. */
  lemma EnsureAnswers(digest: Digest, want: EnsureInput, s: State, script: Script)
    returns (provider: Provider)
    requires Exec(digest, StartEnsure(want), s, script).0.Ensured?
    ensures var r := ResultOf(Exec(digest, StartEnsure(want), s, script).0.task);
            && Providers.OnlyOne(s.providers, want.cluster, provider) && r.provider == provider.id
            && r.subject == SubjectOf(want.namespace, want.name) && r.issuer == NormalizeIssuer(provider.issuer) != ""
            && r.key == digest("kubernetes\n" + TrimSpace(want.namespace) + "/" + TrimSpace(want.name) + "\n"
                               + r.subject + "\n" + NormalizeIssuer(r.issuer))
  {
    hide TrimSpace, SelectProvider, NormalizeIssuer, Exec, StartEnsure, ResourceKey, BuildSubject, Providers.OnlyOne;
    Truth.EnsuredJob(digest, want, s, script);
    Quiescence.FirstCall(digest, want, s, script);
    var j := JobOf(digest, want, s);
    Truth.ExecSameJob(digest, FindAccount(j), s, Tail(script));
    provider := j.provider;
    Providers.SelectProviderIff(s.providers, want.cluster, provider);
    JobIs(digest, want, s);
  }

  lemma JobIs(digest: Digest, want: EnsureInput, s: State)
    requires WithProvider(digest, want, SelectProvider(s.providers, want.cluster)).FindAccount?
    ensures var j := JobOf(digest, want, s);
            && j.subject == SubjectOf(want.namespace, want.name)
            && j.issuer == NormalizeIssuer(j.provider.issuer) != ""
            && j.key == digest("kubernetes\n" + TrimSpace(want.namespace) + "/" + TrimSpace(want.name) + "\n"
                               + j.subject + "\n" + NormalizeIssuer(j.issuer))
  {
    hide TrimSpace, SelectProvider, NormalizeIssuer;
    var j := JobOf(digest, want, s);
    var ns, n := TrimSpace(want.namespace), TrimSpace(want.name);
    assert SubjectText(ns, n) == SubjectOf(want.namespace, want.name);
    assert KeyPreimage(want.namespace, want.name, j.subject, j.issuer)
        == "kubernetes\n" + ns + "/" + n + "\n" + j.subject + "\n" + NormalizeIssuer(j.issuer);
  }

  // ---- the scopes of a binding

  /** These scopes are the words given, each once, or openid where there are none. */
  ghost predicate ScopesGiven(scopes: seq<string>, words: seq<string>) {
    && (forall w :: multiset(scopes)[w] <= 1)
    && forall w :: w in scopes <==>
         if forall i | 0 <= i < |words| :: Blank(words[i]) then w == "openid"
         else exists i | 0 <= i < |words| :: !Blank(words[i]) && w == TrimSpace(words[i])
  }

  lemma ParsedScopes(known: set<string>, words: seq<string>)
    requires Scopes.Canonical(known, Words(words)).Parsed?
    ensures ScopesGiven(Scopes.Canonical(known, Words(words)).scopes, words)
  {
    hide TrimSpace, Words;
    var xs := Scopes.Canonical(known, Words(words)).scopes;
    Scopes.FirstOccurrencesFacts(Words(words));
    OnceEach(xs);
    forall w
      ensures w in Words(words) <==> exists i | 0 <= i < |words| :: !Blank(words[i]) && w == TrimSpace(words[i])
    {
      WordsIff(words, w);
    }
    NoWordsIff(words);
  }

  lemma {:induction false} OnceEach(xs: seq<string>)
    requires Scopes.NoDuplicates(xs)
    ensures forall w :: multiset(xs)[w] <= 1
  {
    if xs != [] {
      var n := |xs| - 1;
      OnceEach(xs[..n]);
      assert xs == xs[..n] + [xs[n]];
      assert xs[n] !in xs[..n];
    }
  }

  lemma SameScopes(a: seq<string>, b: seq<string>, words: seq<string>)
    requires multiset(a) == multiset(b) && ScopesGiven(b, words)
    ensures ScopesGiven(a, words)
  {
    forall w
      ensures w in a <==> w in b
    {
      assert w in a <==> w in multiset(a);
      assert w in b <==> w in multiset(b);
    }
  }

  // ---- one reconcile

  /** A ready reconcile, through whatever faults, has left the identity it names with the audiences of the configuration
      and the scopes given in the binding, named after the binding's override or else a key, and tells the configured
      organisation and project. An account that was not there before is named likewise, and noted for its Kubernetes
      account. */
  lemma ReadyAsConfigured(digest: Digest, cfg: Config, c: Cluster, ref: Ref, w: Wib, script: Script)
    returns (x: ServiceAccount, y: FederatedIdentity, key: string)
    requires Sound(c.iam)
    requires var t := ReconcileBinding(digest, cfg, c, ref, w, script); t.seen.Some? && t.seen.value.ready
    ensures var t := ReconcileBinding(digest, cfg, c, ref, w, script);
            var o := t.seen.value;
            && x in t.cluster.iam.accounts && x.id == o.account && y in t.cluster.iam.identities && y.id == o.identity
            && multiset(y.info.audiences) == multiset(cfg.audiences) && ScopesGiven(y.info.scopes, w.spec.scopes)
            && y.name == IdentityTitle(w.spec.nameOverride, key)
            && (x !in c.iam.accounts ==>
                  x.name == AccountTitle(w.spec.nameOverride, key)
                  && x.info.annotations == AccountNotes(ref.namespace, w.spec.serviceAccount))
            && o.organisation == TrimSpace(cfg.organisation) && o.project == TrimSpace(cfg.project)
  {
    hide Sound, Exec, StartEnsure, Publish, ValidDesired, Config.Watches, Scopes.Canonical, Words, Release, TrimSpace,
      IdentityTitle, AccountTitle, AccountNotes, ScopesGiven;
    Handoff.ReleaseQuiet(digest, cfg, c, ref, w, script);
    var r := Scopes.Canonical(cfg.known, Words(w.spec.scopes));
    var want := InputOf(cfg, ref.namespace, w.spec, r.scopes);
    var (p, s, rest) := Exec(digest, StartEnsure(want), c.iam, Tail(script));
    x, y := EnsuredAsAsked(digest, want, c.iam, Tail(script));
    key := p.task.job.key;
    PublishTouches(cfg, c.(iam := s), ref, w.spec, ResultOf(p.task), rest);
    ParsedScopes(cfg.known, w.spec.scopes);
    SameScopes(y.info.scopes, r.scopes, w.spec.scopes);
  }
}
