/** What a ready observation is worth: the resources it names are there and carry what was asked for; whose provider and
    subject the identity has is decided by the identity found beforehand. */
module Truth {
  import opened Strings
  import opened Subject
  import opened Store
  import opened Protocol
  import opened Ownership
  import opened Safety
  import opened Runs
  import opened Guard
  import opened Quiescence
  import opened Undo
  import opened Conditions
  import opened Kube
  import opened Reconcile
  import opened Lifecycle
  import Scopes
  import Handoff
  import Allowlist
  import Guarantees

  // ---- the job of an attempt

  function JobAt(p: Position): Option<Job> {
    match p
    case FindAccount(j) => Some(j)
    case MakeAccount(j) => Some(j)
    case FindIdentity(j, _) => Some(j)
    case MakeIdentity(j, _) => Some(j)
    case FixIdentity(j, _, _) => Some(j)
    case LookUp(t, _) => Some(t.job)
    case Search(t, _) => Some(t.job)
    case CheckBinding(t, _) => Some(t.job)
    case MakeBinding(t, _) => Some(t.job)
    case Ensured(t) => Some(t.job)
    case _ => None
  }

  lemma StepSameJob(digest: Digest, p: Position, r: Response)
    requires !Terminal(p) && JobAt(p).Some?
    ensures Advance(digest, p, r).Stopped? || JobAt(Advance(digest, p, r)) == JobAt(p)
  {
    hide LabelsMatch, OwnershipLabels, TrimSpace, Find, Pick, NeedsUpdate, AnyGrantsTo, Allowlist.Permitted;
  }

  lemma {:induction false} ExecSameJob(digest: Digest, p: Position, s: State, script: Script)
    requires JobAt(p).Some? || p.Stopped?
    ensures var q := Exec(digest, p, s, script).0; q.Stopped? || JobAt(q) == JobAt(p)
    decreases Stage(p), Left(p)
  {
    hide JobAt, Advance, Request, Perform;
    if !Terminal(p) {
      var r := Perform(s, Request(p), Head(script));
      StageDrops(digest, p, s, Head(script));
      StepSameJob(digest, p, r.1);
      StoppedStays(digest, Advance(digest, p, r.1), r.0, Tail(script));
      if !Advance(digest, p, r.1).Stopped? { ExecSameJob(digest, Advance(digest, p, r.1), r.0, Tail(script)); }
    }
  }

  /** A job that was carried through is for the one provider of the cluster, under the key of its issuer. */
  lemma EnsuredJob(digest: Digest, want: EnsureInput, s: State, script: Script)
    requires Exec(digest, StartEnsure(want), s, script).0.Ensured?
    ensures var j := Exec(digest, StartEnsure(want), s, script).0.task.job;
            var choice := SelectProvider(s.providers, want.cluster);
            && j.want == want && choice == OneProvider(j.provider)
            && j.key == KeyFor(digest, NormalizeIssuer(j.provider.issuer), Owner(want.namespace, want.name))
  {
    hide Exec, TrimSpace, SelectProvider, BuildSubject, NormalizeIssuer, ResourceKey, StartEnsure;
    FirstCall(digest, want, s, script);
    ExecSameJob(digest, FindAccount(JobOf(digest, want, s)), s, Tail(script));
  }

  // ---- ready

  /** The resources an observation names, as the store has them: the account and the identity are the owner's only ones
      and linked, the provider named is the cluster's, and each reference asked for has a binding of the account to
      something the directory answers for it and the allowlist permits; for the policy, to the one named. The identity
      itself has the provider named if and only if the owner's identity before, when there was one, had it; the subject
      likewise. */
  ghost predicate Holds(digest: Digest, before: State, s: State, want: EnsureInput, o: Observation) {
    && AccountAndIdentity(digest, before, s, want, o)
    && (if want.Ref(Policy) == "" then o.policy == ""
       else Granted(before.directory, s, want, Slot(Policy, o.policy), o.account))
    && (want.Ref(Role) != "" ==>
         exists slot: Slot :: slot.kind == Role && Granted(before.directory, s, want, slot, o.account))
  }

  ghost predicate AccountAndIdentity(digest: Digest, before: State, s: State, want: EnsureInput, o: Observation) {
    var choice := SelectProvider(before.providers, want.cluster);
    choice.OneProvider? && o.provider == choice.provider.id &&
    var key := KeyFor(digest, NormalizeIssuer(choice.provider.issuer), Owner(want.namespace, want.name));
    var own := OwnershipLabels(key, want.namespace, want.name);
    && |Select(s.accounts, own)| == 1 && Select(s.accounts, own)[0].id == o.account
    && |Select(s.identities, own)| == 1 && Select(s.identities, own)[0].id == o.identity
    && Select(s.identities, own)[0].info.account == o.account
    && Trusts(Select(s.identities, own)[0], want)
    && var x, found := Select(s.identities, own)[0], Select(before.identities, own);
       && (x.info.provider == o.provider <==> (found != [] ==> found[0].info.provider == o.provider))
       && (RightSubject(x, want) <==> (found != [] ==> RightSubject(found[0], want)))
  }

  /** The identity is for the subject of the owner. */
  predicate RightSubject(x: FederatedIdentity, want: EnsureInput) {
    BuildSubject(want.namespace, want.name) == Some(x.info.subject)
  }

  /** The identity allows the scopes and trusts the audiences asked for, in whatever order. */
  predicate Trusts(x: FederatedIdentity, want: EnsureInput) {
    && multiset(x.info.scopes) == multiset(want.scopes) && multiset(x.info.audiences) == multiset(want.audiences)
    && (x.info.matchMode == "" || x.info.matchMode == MATCH_ANY)
  }

  ghost predicate Granted(d: Directory, s: State, want: EnsureInput, slot: Slot, account: string) {
    GrantsOf(s.At(slot), Some(account)) != [] && Vetted({d}, want, slot)
  }

  lemma BoundInOrder(bound: seq<Slot>, want: EnsureInput)
    requires Kinds(bound) == Wanted(want)
    ensures want.Ref(Policy) == "" ==> BoundPolicy(bound) == ""
    ensures want.Ref(Policy) != "" ==> Slot(Policy, BoundPolicy(bound)) in bound
    ensures want.Ref(Role) != "" ==> exists slot: Slot :: slot in bound && slot.kind == Role
  {
    hide TrimSpace;
    var kinds := Kinds(bound);
    assert forall i | 0 <= i < |bound| :: kinds[i] == bound[i].kind;
    if want.Ref(Policy) != "" {
      assert kinds[0] == Policy && bound[0] == Slot(Policy, BoundPolicy(bound));
    } else if want.Ref(Role) != "" {
      assert kinds[0] == Role;
    }
    if want.Ref(Role) != "" {
      assert kinds[|kinds| - 1] == Role && bound[|bound| - 1] in bound;
    }
  }

  lemma EnsuredTrusts(digest: Digest, want: EnsureInput, s: State, script: Script)
    requires InOrder(s) && Exec(digest, StartEnsure(want), s, script).0.Ensured?
    ensures var (p, s', _) := Exec(digest, StartEnsure(want), s, script);
            var j := p.task.job;
            var own := OwnershipLabels(j.key, want.namespace, want.name);
            var found := Select(s.identities, own);
            && Select(s'.identities, own) != []
            && var x := Select(s'.identities, own)[0];
               && Trusts(x, want)
               && (x.info.provider == j.provider.id <==> (found != [] ==> found[0].info.provider == j.provider.id))
               && (RightSubject(x, want) <==> (found != [] ==> RightSubject(found[0], want)))
  {
    hide Exec, StartEnsure, Guarantees.Exclusive, Guarantees.Linked, OwnershipLabels, LabelsMatch, Find, Select,
      TrimSpace, WithProvider, FederatedIdentityName, Description, JobOf, BuildSubject;
    Guarantees.SoundIdentities(s);
    EnsureUpdates(digest, want, s, script);
    OriginIff(digest, want, s, script);
    var j := JobOf(digest, want, s);
    SelectFacts(Exec(digest, StartEnsure(want), s, script).1.identities, j.Labels());
    SelectFacts(s.identities, j.Labels());
    FirstCall(digest, want, s, script);
    ExecSameJob(digest, FindAccount(j), s, Tail(script));
    SubjectOfJob(digest, want, s);
  }

  lemma SubjectOfJob(digest: Digest, want: EnsureInput, s: State)
    requires WithProvider(digest, want, SelectProvider(s.providers, want.cluster)).FindAccount?
    ensures BuildSubject(want.namespace, want.name) == Some(JobOf(digest, want, s).subject)
  {
    hide SelectProvider, BuildSubject, NormalizeIssuer, ResourceKey;
  }

  lemma EnsuredHolds(digest: Digest, cfg: Config, want: EnsureInput, s: State, script: Script)
    requires InOrder(s) && Exec(digest, StartEnsure(want), s, script).0.Ensured?
    ensures var (p, s', _) := Exec(digest, StartEnsure(want), s, script);
            Holds(digest, s, s', want, ReadyWith(cfg, ResultOf(p.task)))
  {
    hide Sound, Guarantees.Exclusive, Guarantees.Linked, Exec, StartEnsure, TrimSpace, SelectProvider,
      NormalizeIssuer, KeyFor, OwnershipLabels, Select, GrantsOf, Kinds, Wanted, Vetted, Config.Organisation,
      Config.Project, BoundPolicy, BuildSubject;
    EnsureSucceeds(digest, want, s, script);
    EnsuredJob(digest, want, s, script);
    EnsureVetted(digest, want, s, script);
    var (p, s', _) := Exec(digest, StartEnsure(want), s, script);
    var t := p.task;
    EnsuredTrusts(digest, want, s, script);
    BoundInOrder(t.bound, want);
    if want.Ref(Policy) != "" {
      assert Granted(s.directory, s', want, Slot(Policy, BoundPolicy(t.bound)), t.account);
    }
    if want.Ref(Role) != "" {
      var slot: Slot :| slot in t.bound && slot.kind == Role;
      assert Granted(s.directory, s', want, slot, t.account);
    }
  }

  /** The input a reconcile ensures, once its scopes are parsed. */
  function WantedBy(cfg: Config, ref: Ref, spec: Spec): EnsureInput {
    var r := Scopes.Canonical(cfg.known, Words(spec.scopes));
    Reconcile.InputOf(cfg, ref.namespace, spec, if r.Parsed? then r.scopes else [])
  }

  /** A ready observation is true of the store at that moment, through whatever faults the reconcile went. */
  lemma ReadyIsTrue(digest: Digest, cfg: Config, c: Cluster, ref: Ref, w: Wib, script: Script)
    requires InOrder(c.iam)
    requires var t := ReconcileBinding(digest, cfg, c, ref, w, script); t.seen.Some? && t.seen.value.ready
    ensures var t := ReconcileBinding(digest, cfg, c, ref, w, script);
            Holds(digest, c.iam, t.cluster.iam, WantedBy(cfg, ref, w.spec), t.seen.value)
  {
    hide InOrder, Exec, StartEnsure, Publish, ValidDesired, Config.Watches, Scopes.Canonical, Words, Release, Holds,
      ReadyWith, Config.Organisation, Config.Project;
    Handoff.ReleaseQuiet(digest, cfg, c, ref, w, script);
    var want := WantedBy(cfg, ref, w.spec);
    var (p, s, rest) := Exec(digest, StartEnsure(want), c.iam, Tail(script));
    if p.Ensured? {
      EnsuredHolds(digest, cfg, want, c.iam, Tail(script));
      PublishTouches(cfg, c.(iam := s), ref, w.spec, ResultOf(p.task), rest);
    }
  }

  /** The ServiceAccount tells this identity, and is otherwise as it was. */
  predicate Annotated(cfg: Config, had: Annotations, a: Annotations, account: string) {
    && Get(a, "thalassa.cloud/wif.service-account-id") == account
    && Get(a, "thalassa.cloud/wif.organisation-id") == TrimSpace(cfg.organisation)
    && Get(a, "thalassa.cloud/wif.project-id") == TrimSpace(cfg.project)
    && ("thalassa.cloud/wif.project-id" in a <==> TrimSpace(cfg.project) != "")
    && var told := {"thalassa.cloud/wif.service-account-id", "thalassa.cloud/wif.organisation-id",
                    "thalassa.cloud/wif.project-id"};
       a - told == had - told
  }

  lemma NamedIsAnnotated(cfg: Config, had: Annotations, account: string)
    ensures Annotated(cfg, had, WithIdentity(had, account, cfg.Organisation(), cfg.Project()), account)
  {
    hide TrimSpace;
  }

  lemma AnnotateIs(c: Cluster, at: Ref, account: string, organisation: string, project: string, script: Script)
    ensures var a := Annotate(c, at, account, organisation, project, script);
            || a.cluster == c
            || (at in c.accounts
                && a.cluster == c.(accounts := c.accounts[
                                     at := WithIdentity(c.accounts[at], account, organisation, project)]))
  {
    hide WithIdentity;
  }

  lemma PublishIs(cfg: Config, c: Cluster, ref: Ref, spec: Spec, r: EnsureResult, script: Script)
    ensures var accounts := Publish(cfg, c, ref, spec, r, script).cluster.accounts;
            var at := Ref(ref.namespace, spec.serviceAccount);
            || accounts == c.accounts
            || (at in c.accounts
                && accounts == c.accounts[
                     at := WithIdentity(c.accounts[at], r.account, cfg.Organisation(), cfg.Project())])
  {
    hide SyncConfigMap, Annotate, WithIdentity, Config.Organisation, Config.Project;
    var organisation, project := cfg.Organisation(), cfg.Project();
    SyncTouches(c, ref, spec.serviceAccount, r.account, organisation, project, script);
    var synced := if spec.identityConfigMap || cfg.identityConfigMap
                  then SyncConfigMap(c, ref, spec.serviceAccount, r.account, organisation, project, script)
                  else Answer(c, true, script);
    AnnotateIs(synced.cluster, Ref(ref.namespace, spec.serviceAccount), r.account, organisation, project, synced.rest);
  }

  /** Nothing is published before it is true: through whatever faults, when a reconcile of a binding that stays has
      changed an annotation or a ConfigMap, the store already holds what was asked for, and the annotations changed are
      those that tell its account. */
  lemma PublishesLast(digest: Digest, cfg: Config, c: Cluster, ref: Ref, w: Wib, script: Script)
    returns (o: Observation)
    requires InOrder(c.iam) && !w.deleting
    requires var c' := ReconcileBinding(digest, cfg, c, ref, w, script).cluster;
             c'.accounts != c.accounts || c'.configMaps != c.configMaps
    ensures var c' := ReconcileBinding(digest, cfg, c, ref, w, script).cluster;
            var at := Ref(ref.namespace, w.spec.serviceAccount);
            && Holds(digest, c.iam, c'.iam, WantedBy(cfg, ref, w.spec), o)
            && (c'.accounts != c.accounts ==>
                  && at in c.accounts && at in c'.accounts && c'.accounts - {at} == c.accounts - {at}
                  && Annotated(cfg, c.accounts[at], c'.accounts[at], o.account))
  {
    hide InOrder, Exec, StartEnsure, Publish, ValidDesired, Config.Watches, Scopes.Canonical, Words, Holds, Stored,
      Config.Organisation, Config.Project, Annotated, WithIdentity, ReadyWith;
    var want := WantedBy(cfg, ref, w.spec);
    var (p, s, rest) := Exec(digest, StartEnsure(want), c.iam, Tail(script));
    EnsuredHolds(digest, cfg, want, c.iam, Tail(script));
    var r, at := ResultOf(p.task), Ref(ref.namespace, w.spec.serviceAccount);
    PublishTouches(cfg, c.(iam := s), ref, w.spec, r, rest);
    PublishIs(cfg, c.(iam := s), ref, w.spec, r, rest);
    if at in c.accounts { NamedIsAnnotated(cfg, c.accounts[at], r.account); }
    o := ReadyWith(cfg, r);
    ReadyNamesAccount(cfg, r);
  }

  lemma ReadyNamesAccount(cfg: Config, r: EnsureResult)
    ensures ReadyWith(cfg, r).account == r.account
  {}

  // ---- the ConfigMap

  lemma SyncFills(c: Cluster, ref: Ref, serviceAccount: string, account: string, organisation: string,
                  project: string, script: Script)
    requires SyncConfigMap(c, ref, serviceAccount, account, organisation, project, script).ok
    ensures var a := SyncConfigMap(c, ref, serviceAccount, account, organisation, project, script);
            var at := Ref(ref.namespace, ConfigMapName(serviceAccount));
            at in a.cluster.configMaps
            && FilledFor(a.cluster.configMaps[at], ref, serviceAccount, ConfigMapData(organisation, account, project))
  {
    hide UsableData, ConfigMapData, ConfigMapName;
  }

  predicate FilledFor(m: ConfigMap, ref: Ref, serviceAccount: string, data: map<string, string>) {
    m.data == data && UsableData(data) && MarkedFor(m, ref, serviceAccount)
  }

  /** The binding controls the map, and its labels name the Kubernetes account. */
  predicate MarkedFor(m: ConfigMap, ref: Ref, serviceAccount: string) {
    && m.controller == Some(OwnerRef("WorkloadIdentityBinding", ref.name))
    && Get(m.labels, "thalassa.cloud/managed-by") == "workload-identity-controller"
    && Get(m.labels, "thalassa.cloud/k8s-namespace") == ref.namespace
    && Get(m.labels, "thalassa.cloud/k8s-service-account") == serviceAccount
  }

  lemma PublishFillsConfigMap(cfg: Config, c: Cluster, ref: Ref, spec: Spec, r: EnsureResult, script: Script)
    requires spec.identityConfigMap || cfg.identityConfigMap
    requires Publish(cfg, c, ref, spec, r, script).seen == Some(ReadyWith(cfg, r))
    ensures var t := Publish(cfg, c, ref, spec, r, script);
            var at := Ref(ref.namespace, ConfigMapName(spec.serviceAccount));
            at in t.cluster.configMaps && Tells(t.cluster.configMaps[at], ref, spec.serviceAccount, ReadyWith(cfg, r))
  {
    hide SyncConfigMap, Annotate, TrimSpace, ConfigMapName, Tells, FilledFor;
    var organisation, project := cfg.Organisation(), cfg.Project();
    SyncFills(c, ref, spec.serviceAccount, r.account, organisation, project, script);
    var synced := SyncConfigMap(c, ref, spec.serviceAccount, r.account, organisation, project, script);
    AnnotateTouches(synced.cluster, Ref(ref.namespace, spec.serviceAccount), r.account, organisation, project,
                    synced.rest);
    FilledTells(cfg, synced.cluster.configMaps[Ref(ref.namespace, ConfigMapName(spec.serviceAccount))], ref,
                spec.serviceAccount, r);
  }

  /** Where the ConfigMap is wanted, a reconcile that observes ready, through whatever faults, leaves it with the
      identities observed, controlled by the binding. */
  lemma ReadyFillsConfigMap(digest: Digest, cfg: Config, c: Cluster, ref: Ref, w: Wib, script: Script)
    requires w.spec.identityConfigMap || cfg.identityConfigMap
    requires var t := ReconcileBinding(digest, cfg, c, ref, w, script); t.seen.Some? && t.seen.value.ready
    ensures var t := ReconcileBinding(digest, cfg, c, ref, w, script);
            var at := Ref(ref.namespace, "wif-" + TrimSpace(w.spec.serviceAccount));
            at in t.cluster.configMaps && Tells(t.cluster.configMaps[at], ref, w.spec.serviceAccount, t.seen.value)
  {
    hide Exec, StartEnsure, Publish, ValidDesired, Config.Watches, Scopes.Canonical, Words, Release, ReadyWith,
      TrimSpace, Tells;
    Handoff.ReleaseQuiet(digest, cfg, c, ref, w, script);
    var (p, s, rest) := Exec(digest, StartEnsure(WantedBy(cfg, ref, w.spec)), c.iam, Tail(script));
    if p.Ensured? {
      var r := ResultOf(p.task);
      PublishTouches(cfg, c.(iam := s), ref, w.spec, r, rest);
      PublishFillsConfigMap(cfg, c.(iam := s), ref, w.spec, r, rest);
    }
  }

  /** The map gives the observation's organisation, account and project, the last only if there is one, and nothing
      else; it is the binding's. */
  predicate Tells(m: ConfigMap, ref: Ref, serviceAccount: string, o: Observation) {
    && Get(m.data, "organisation-id") == o.organisation != ""
    && Get(m.data, "service-account-id") == TrimSpace(o.account) != ""
    && Get(m.data, "project-id") == o.project && ("project-id" in m.data <==> o.project != "")
    && m.data.Keys <= {"organisation-id", "service-account-id", "project-id"}
    && MarkedFor(m, ref, serviceAccount)
  }

  lemma FilledTells(cfg: Config, m: ConfigMap, ref: Ref, serviceAccount: string, r: EnsureResult)
    requires FilledFor(m, ref, serviceAccount, ConfigMapData(cfg.Organisation(), r.account, cfg.Project()))
    ensures Tells(m, ref, serviceAccount, ReadyWith(cfg, r))
  {
    hide TrimSpace, ConfigMapData, MarkedFor;
    TrimTwice(cfg.organisation);
    TrimTwice(cfg.project);
    TrimTwice(r.account);
    DataReads(cfg.Organisation(), r.account, cfg.Project());
    EmptyIsBlank();
  }

  lemma DataReads(organisation: string, account: string, project: string)
    ensures var data := ConfigMapData(organisation, account, project);
            && Get(data, ORGANISATION_KEY) == TrimSpace(organisation) && Get(data, ACCOUNT_KEY) == TrimSpace(account)
            && Get(data, PROJECT_KEY) == TrimSpace(project) && (PROJECT_KEY in data <==> !Blank(project))
            && data.Keys <= {ORGANISATION_KEY, ACCOUNT_KEY, PROJECT_KEY}
  {
    hide TrimSpace;
  }
}
