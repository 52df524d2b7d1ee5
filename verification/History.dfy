/** What the status of a binding remembers of a whole run. */
module History {
  import opened Strings
  import opened Subject
  import opened Store
  import opened Protocol
  import opened Ownership
  import opened Safety
  import opened Attempts
  import opened World
  import opened Conditions
  import opened Kube
  import opened Reconcile
  import opened Lifecycle
  import Leaks

  /** The observation an event writes into the status of an object, if the write reaches the object. */
  function Persisted(digest: Digest, cfg: Config, c: Cluster, e: Leaks.Event, ref: Ref): seq<Sighting> {
    if !e.Pass? || e.ref != ref || Head(e.script) != Ok || ref !in c.objects || !cfg.Watches(ref.namespace) then []
    else
      var t := ReconcileBinding(digest, cfg, c, ref, c.objects[ref], Tail(e.script));
      if t.seen.None? || ref !in t.cluster.objects || Head(t.rest) != Ok || Head(Tail(t.rest)) == FailBefore then []
      else [Sighting(t.seen.value, t.cluster.objects[ref].generation, e.now)]
  }

  function Trace(digest: Digest, cfg: Config, c: Cluster, es: seq<Leaks.Event>, ref: Ref): seq<Sighting>
    decreases |es|
  {
    if es == [] then []
    else
      var before := es[..|es| - 1];
      Trace(digest, cfg, c, before, ref) + Persisted(digest, cfg, Leaks.Run(digest, cfg, c, before), es[|es| - 1], ref)
  }

  function FoldStatus(st: Status, history: seq<Sighting>): Status {
    if history == [] then st
    else
      var last := history[|history| - 1];
      StatusWith(FoldStatus(st, history[..|history| - 1]), last.seen, last.generation, last.at)
  }

  ghost predicate Lives(digest: Digest, cfg: Config, c: Cluster, es: seq<Leaks.Event>, ref: Ref) {
    forall i | 0 <= i <= |es| :: ref in Leaks.Run(digest, cfg, c, es[..i]).objects
  }

  lemma {:induction false} RunSnoc(digest: Digest, cfg: Config, c: Cluster, es: seq<Leaks.Event>)
    requires es != []
    ensures Leaks.Run(digest, cfg, c, es)
              == Leaks.Next(digest, cfg, Leaks.Run(digest, cfg, c, es[..|es| - 1]), es[|es| - 1])
    decreases |es|
  {
    hide Leaks.Next;
    if |es| == 1 {
      assert es[1..] == [] && es[..0] == [];
    } else {
      RunSnoc(digest, cfg, Leaks.Next(digest, cfg, c, es[0]), es[1..]);
      assert es[1..][..|es| - 2] == es[..|es| - 1][1..];
    }
  }

  // ---- one event

  lemma {:induction false} FoldSnoc(st: Status, history: seq<Sighting>, x: Sighting)
    ensures FoldStatus(st, history + [x]) == StatusWith(FoldStatus(st, history), x.seen, x.generation, x.at)
  {
    assert (history + [x])[..|history|] == history;
  }

  /** Up to the status patch, a reconcile leaves other objects alone, and the status of its own where it stays. */
  lemma BindingStatus(digest: Digest, cfg: Config, c: Cluster, at: Ref, script: Script, ref: Ref)
    requires at in c.objects && ref in c.objects
    ensures var c1 := ReconcileBinding(digest, cfg, c, at, c.objects[at], script).cluster;
            ref in c1.objects ==> c1.objects[ref].status == c.objects[ref].status
  {
    hide ReconcileBinding;
    BindingTouches(digest, cfg, c, at, c.objects[at], script);
  }

  lemma PassStatus(digest: Digest, cfg: Config, c: Cluster, e: Leaks.Event, ref: Ref)
    requires e.Pass? && ref in c.objects && ref in Leaks.Next(digest, cfg, c, e).objects
    ensures var xs := Persisted(digest, cfg, c, e, ref);
            Leaks.Next(digest, cfg, c, e).objects[ref].status
            == if xs == [] then c.objects[ref].status
               else StatusWith(c.objects[ref].status, xs[0].seen, xs[0].generation, xs[0].at)
  {
    hide ReconcileBinding, StatusWith, Config.Watches;
    if e.ref in c.objects {
      BindingStatus(digest, cfg, c, e.ref, Tail(e.script), ref);
    }
  }

  lemma NextStatus(digest: Digest, cfg: Config, c: Cluster, e: Leaks.Event, ref: Ref)
    requires ref in c.objects && ref in Leaks.Next(digest, cfg, c, e).objects
    ensures Leaks.Next(digest, cfg, c, e).objects[ref].status
         == FoldStatus(c.objects[ref].status, Persisted(digest, cfg, c, e, ref))
  {
    hide Reconcile.Reconcile, ReconcileBinding, StatusWith, Config.Watches;
    if e.Pass? {
      var xs := Persisted(digest, cfg, c, e, ref);
      PassStatus(digest, cfg, c, e, ref);
      if xs != [] {
        assert xs == [] + [xs[0]];
        FoldSnoc(c.objects[ref].status, [], xs[0]);
      }
    }
  }

  lemma FoldAppend(st: Status, history: seq<Sighting>, xs: seq<Sighting>)
    requires |xs| <= 1
    ensures FoldStatus(st, history + xs) == FoldStatus(FoldStatus(st, history), xs)
  {
    if xs == [] {
      assert history + xs == history;
    } else {
      assert xs == [xs[0]] && [] + [xs[0]] == xs;
      FoldSnoc(st, history, xs[0]);
      FoldSnoc(FoldStatus(st, history), [], xs[0]);
    }
  }

  /** While an object lives, its status is the fold of the observations written into it, whatever users do meanwhile. */
  lemma {:induction false} StatusIsHistory(digest: Digest, cfg: Config, c: Cluster, es: seq<Leaks.Event>, ref: Ref)
    requires Lives(digest, cfg, c, es, ref)
    ensures ref in c.objects && ref in Leaks.Run(digest, cfg, c, es).objects
    ensures Leaks.Run(digest, cfg, c, es).objects[ref].status
         == FoldStatus(c.objects[ref].status, Trace(digest, cfg, c, es, ref))
    decreases |es|
  {
    hide Leaks.Next, Persisted;
    assert es[..0] == [] && es[..|es|] == es;
    if es != [] {
      var before := es[..|es| - 1];
      assert forall i | 0 <= i <= |before| :: before[..i] == es[..i];
      StatusIsHistory(digest, cfg, c, before, ref);
      RunSnoc(digest, cfg, c, es);
      NextStatus(digest, cfg, Leaks.Run(digest, cfg, c, before), es[|es| - 1], ref);
      PersistedOnce(digest, cfg, Leaks.Run(digest, cfg, c, before), es[|es| - 1], ref);
      FoldAppend(c.objects[ref].status, Trace(digest, cfg, c, before, ref),
                 Persisted(digest, cfg, Leaks.Run(digest, cfg, c, before), es[|es| - 1], ref));
    }
  }

  lemma PersistedOnce(digest: Digest, cfg: Config, c: Cluster, e: Leaks.Event, ref: Ref)
    ensures |Persisted(digest, cfg, c, e, ref)| <= 1
  {
    hide ReconcileBinding, Config.Watches;
  }

  // ---- the identities in the status

  datatype Names = Names(
    account: string, identity: string, provider: string, policy: string, organisation: string, project: string)

  function InStatus(st: Status): Names {
    Names(st.account, st.identity, st.provider, st.policy, st.organisation, st.project)
  }

  function InObservation(o: Observation): Names {
    Names(o.account, o.identity, o.provider, o.policy, o.organisation, o.project)
  }

  function LastReady(history: seq<Sighting>): Option<Observation> {
    if history == [] then None
    else if history[|history| - 1].seen.ready then Some(history[|history| - 1].seen)
    else LastReady(history[..|history| - 1])
  }

  /** An observation names a service account exactly when it is a ready one. */
  predicate Honest(o: Observation) {
    (o.ready <==> o.account != "") && (o.ready <==> o.phase == READY)
  }

  lemma {:induction false} FoldRemembers(st: Status, history: seq<Sighting>)
    requires forall x | x in history :: Honest(x.seen)
    ensures InStatus(FoldStatus(st, history))
              == if LastReady(history).None? then InStatus(st) else InObservation(LastReady(history).value)
    ensures FoldStatus(st, history).conditions == Fold(st.conditions, history)
    ensures history != [] ==>
              var has, last := FoldStatus(st, history), history[|history| - 1];
              && has.phase == last.seen.phase && has.observedGeneration == last.generation
              && has.lastReconcile == Some(last.at)
  {
    hide WithReady;
    if history != [] {
      FoldRemembers(st, history[..|history| - 1]);
      assert history[|history| - 1] in history;
    }
  }

  /** No service account has a blank identity. */
  ghost predicate Named(s: State) {
    forall x | x in s.accounts :: !Blank(x.id)
  }

  lemma FreshIsNamed(n: nat, id: string)
    requires Blank(id)
    ensures Issued(n, id)
  {
    forall k: nat | k >= n
      ensures id != FreshId(k)
    {
      var given := FreshId(k);
      assert given[0] == 'i' && given[|given| - 1] in {'i', '-'};
      TightIsFixed(given);
    }
  }

  lemma NamedNotEmpty(id: string)
    ensures !Blank(id) ==> id != ""
  {}

  lemma StepNamed(digest: Digest, p: Position, s: State, o: Outcome)
    requires !Terminal(p) && Sound(s) && Knows(s, p) && Named(s)
    ensures Named(Step(digest, p, s, o).1)
  {
    hide Sound, Knows, Step, LabelsOf, Actor, Terminal, GrantsOf, Unmanaged, Others, Issued, Blank;
    StepSafe(digest, p, s, o);
    var s' := Step(digest, p, s, o).1;
    forall x | x in s'.accounts
      ensures !Blank(x.id)
    {
      assert x in s.accounts || !Issued(s.next, x.id);
      if Blank(x.id) { FreshIsNamed(s.next, x.id); }
    }
  }

  lemma {:induction false} ExecNamed(digest: Digest, p: Position, s: State, script: Script)
    requires Sound(s) && Knows(s, p) && Named(s)
    ensures Named(Exec(digest, p, s, script).1)
    decreases Stage(p), Left(p)
  {
    hide Sound, Knows, Step, Named;
    if !Terminal(p) {
      var o := Head(script);
      var (p', s') := Step(digest, p, s, o);
      StageDrops(digest, p, s, o);
      StepSafe(digest, p, s, o);
      StepKnows(digest, p, s, o);
      StepNamed(digest, p, s, o);
      ExecNamed(digest, p', s', Tail(script));
    }
  }

  ghost predicate Healthy(s: State) {
    InOrder(s) && Named(s)
  }

  lemma EnsureHealthy(digest: Digest, want: EnsureInput, s: State, script: Script)
    requires Healthy(s)
    ensures var (p, s', _) := Exec(digest, StartEnsure(want), s, script);
            Healthy(s') && (p.Ensured? ==> !Blank(p.task.account) && p.task.account != "")
  {
    hide Blank, Guarantees.Exclusive, Guarantees.Linked, Sound, Exec, StartEnsure, Guarantees.NoDuplicates, Terminal,
      LabelsMatch, OwnershipLabels;
    var p := Exec(digest, StartEnsure(want), s, script).0;
    EnsureInOrder(digest, want, s, script);
    StartKnows(digest, s, want);
    ExecNamed(digest, StartEnsure(want), s, script);
    if p.Ensured? { NamedNotEmpty(p.task.account); }
    Runs.ExecKnows(digest, StartEnsure(want), s, script);
  }

  lemma DeleteHealthy(digest: Digest, o: Owner, issuer: string, roleRef: string, policyRef: string, s: State,
                      script: Script)
    requires Healthy(s)
    ensures Healthy(Exec(digest, StartDelete(digest, o.namespace, o.name, issuer, roleRef, policyRef), s, script).1)
  {
    hide InOrder, Named, Exec, StartDelete, OnlyFor, Owned, KeyFor;
    DeleteConcerns(digest, o, issuer, roleRef, policyRef, s, script);
    StartDeleteKnows(digest, s, o.namespace, o.name, issuer, roleRef, policyRef);
    SoundWhenInOrder(s);
    ExecNamed(digest, StartDelete(digest, o.namespace, o.name, issuer, roleRef, policyRef), s, script);
  }

  lemma SoundWhenInOrder(s: State)
    requires InOrder(s)
    ensures Sound(s)
  {}

  lemma ProvisionHonest(digest: Digest, cfg: Config, c: Cluster, ref: Ref, spec: Spec, scopes: seq<string>,
                        script: Script)
    requires Healthy(c.iam)
    ensures var t := Provision(digest, cfg, c, ref, spec, scopes, script);
            Healthy(t.cluster.iam) && (t.seen.Some? ==> Honest(t.seen.value))
  {
    hide Healthy, Exec, StartEnsure, Publish, Config.Organisation, Config.Project;
    var want := InputOf(cfg, ref.namespace, spec, scopes);
    var (p, s, rest) := Exec(digest, StartEnsure(want), c.iam, script);
    EnsureHealthy(digest, want, c.iam, script);
    if p.Ensured? { PublishTouches(cfg, c.(iam := s), ref, spec, ResultOf(p.task), rest); }
  }

  lemma ReleaseHonest(digest: Digest, cfg: Config, c: Cluster, ref: Ref, w: Wib, script: Script)
    requires Healthy(c.iam)
    ensures var t := Release(digest, cfg, c, ref, w, script);
            Healthy(t.cluster.iam) && (t.seen.Some? ==> Honest(t.seen.value))
  {
    hide Healthy, ClearAnnotations, DeleteCloud, DropString, Stored;
    var at := Ref(ref.namespace, w.spec.serviceAccount);
    ClearTouches(c, at, script);
    var cleared := ClearAnnotations(c, at, script);
    CloudHealthy(digest, cfg, cleared.cluster, ref.namespace, w.spec, w.status.policy, cleared.rest);
  }

  /** A reconcile keeps the store healthy and observes honestly. */
  lemma BindingHonest(digest: Digest, cfg: Config, c: Cluster, ref: Ref, w: Wib, script: Script)
    requires Healthy(c.iam)
    ensures var t := ReconcileBinding(digest, cfg, c, ref, w, script);
            Healthy(t.cluster.iam) && (t.seen.Some? ==> Honest(t.seen.value))
  {
    hide Healthy, Release, Provision, Stored, ValidDesired, Config.Watches, Scopes.Canonical, Words;
    ReleaseHonest(digest, cfg, c, ref, w, script);
    var r := Scopes.Canonical(cfg.known, Words(w.spec.scopes));
    if r.Parsed? {
      ProvisionHonest(digest, cfg, c, ref, w.spec, r.scopes, Tail(script));
    }
  }

  lemma CloudHealthy(digest: Digest, cfg: Config, c: Cluster, ns: string, spec: Spec, policy: string, script: Script)
    requires Healthy(c.iam)
    ensures Healthy(DeleteCloud(digest, cfg, c, ns, spec, policy, script).cluster.iam)
  {
    hide Healthy, Exec, StartDelete, SelectProvider, NormalizeIssuer, Blank, PolicyToDrop;
    var choice := SelectProvider(c.iam.providers, cfg.cluster);
    if choice.OneProvider? {
      DeleteHealthy(digest, Owner(ns, spec.serviceAccount), NormalizeIssuer(choice.provider.issuer), spec.roleRef,
                    PolicyToDrop(spec, policy), c.iam, Tail(script));
    }
  }

  lemma NextHealthy(digest: Digest, cfg: Config, c: Cluster, e: Leaks.Event, ref: Ref)
    requires Healthy(c.iam)
    ensures Healthy(Leaks.Next(digest, cfg, c, e).iam)
    ensures forall x | x in Persisted(digest, cfg, c, e, ref) :: Honest(x.seen)
  {
    hide InOrder, ReconcileBinding, Config.Watches, Honest;
    match e
    case Pass(r, now, script) =>
      if r in c.objects { BindingHonest(digest, cfg, c, r, c.objects[r], Tail(script)); }
    case SetProviders(_) => Leaks.ReconfiguredInOrder(c.iam, Leaks.Next(digest, cfg, c, e).iam);
    case SetDirectory(_) => Leaks.ReconfiguredInOrder(c.iam, Leaks.Next(digest, cfg, c, e).iam);
    case _ =>
  }

  lemma {:induction false} RunHonest(digest: Digest, cfg: Config, c: Cluster, es: seq<Leaks.Event>, ref: Ref)
    requires Healthy(c.iam)
    ensures Healthy(Leaks.Run(digest, cfg, c, es).iam)
    ensures forall x | x in Trace(digest, cfg, c, es, ref) :: Honest(x.seen)
    decreases |es|
  {
    hide Healthy, Leaks.Next, Persisted, Honest;
    if es != [] {
      RunHonest(digest, cfg, c, es[..|es| - 1], ref);
      RunSnoc(digest, cfg, c, es);
      NextHealthy(digest, cfg, Leaks.Run(digest, cfg, c, es[..|es| - 1]), es[|es| - 1], ref);
    }
  }

  /** Sticky identity: over any run, faults and edits included, the identities in the status are those of the last ready
      observation written into it, and the Ready condition tells the last observation and when its status began. */
  lemma StickyIdentity(digest: Digest, cfg: Config, c: Cluster, es: seq<Leaks.Event>, ref: Ref)
    requires Healthy(c.iam) && Lives(digest, cfg, c, es, ref)
    ensures ref in c.objects && ref in Leaks.Run(digest, cfg, c, es).objects
    ensures var had, has := c.objects[ref].status, Leaks.Run(digest, cfg, c, es).objects[ref].status;
            var history := Trace(digest, cfg, c, es, ref);
            && InStatus(has)
                 == (if LastReady(history).None? then InStatus(had) else InObservation(LastReady(history).value))
            && (history != [] ==>
                 var last := history[|history| - 1];
                 && has.phase == last.seen.phase && has.observedGeneration == last.generation
                 && has.lastReconcile == Some(last.at)
                 && var entry := OfKind(has.conditions, "Ready");
                    && entry.Some? && Reports(entry.value, last)
                    && entry.value.since == ChangedAt(had.conditions, history))
            && NotOfKind(has.conditions, READY) == NotOfKind(had.conditions, READY)
  {
    hide Healthy, Honest, Leaks.Run, Trace, Reports, ChangedAt, FoldStatus;
    StatusIsHistory(digest, cfg, c, es, ref);
    RunHonest(digest, cfg, c, es, ref);
    var history := Trace(digest, cfg, c, es, ref);
    FoldRemembers(c.objects[ref].status, history);
    if history != [] {
      TransitionTime(c.objects[ref].status.conditions, history);
    }
  }
}
