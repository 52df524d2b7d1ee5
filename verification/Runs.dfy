/** One attempt from start to end, under any script of faults. */
module Runs {
  import opened Strings
  import opened Subject
  import opened Store
  import opened Protocol
  import opened Ownership
  import opened Safety
  import opened Attempts
  import opened World
  import opened Guarantees
  import Allowlist

  /** An attempt keeps the store sound and knows, at its end, what its last position claims. */
  lemma {:induction false} ExecKnows(digest: Digest, p: Position, s: State, script: Script)
    requires Sound(s) && Knows(s, p)
    ensures var r := Exec(digest, p, s, script);
            && Sound(r.1) && Knows(r.1, r.0) && Terminal(r.0) && NoDuplicates(s, r.1)
            && (!r.0.Stopped? ==> OwnerOf(r.0) == OwnerOf(p)) && (Live(p) && !r.0.Stopped? ==> KeyOf(r.0) == KeyOf(p))
    decreases Stage(p), Left(p)
  {
    hide Sound, Knows, NoDuplicates, Step, OwnerOf, KeyOf;
    if Terminal(p) {
      NoDuplicatesReflexive(s);
    } else {
      var o := Head(script);
      var (p', s') := Step(digest, p, s, o);
      StageDrops(digest, p, s, o);
      StepSafe(digest, p, s, o);
      StepKnows(digest, p, s, o);
      StepSameOwner(digest, p, s, o);
      StepNoDuplicates(digest, p, s, o);
      ExecKnows(digest, p', s', Tail(script));
      NoDuplicatesTransitive(s, s', Exec(digest, p', s', Tail(script)).1);
      StoppedStays(digest, p', s', Tail(script));
    }
  }

  lemma StoppedStays(digest: Digest, p: Position, s: State, script: Script)
    ensures p.Stopped? ==> Exec(digest, p, s, script).0 == p
  {}

  /** An orderly store stays so, and a deletion that ends well leaves nothing of the owner. */
  lemma {:induction false} ExecOrderly(digest: Digest, p: Position, s: State, script: Script)
    requires Sound(s) && Knows(s, p) && Exclusive(s) && Linked(s) && Cleared(s, p)
    ensures var r := Exec(digest, p, s, script);
            Exclusive(r.1) && Linked(r.1) && Cleared(r.1, r.0)
    decreases Stage(p), Left(p)
  {
    hide Sound, Knows, NoDuplicates, Step, OwnerOf, KeyOf, Exclusive, Linked, Cleared;
    if !Terminal(p) {
      var o := Head(script);
      var (p', s') := Step(digest, p, s, o);
      StageDrops(digest, p, s, o);
      StepSafe(digest, p, s, o);
      StepKnows(digest, p, s, o);
      StepNoDuplicates(digest, p, s, o);
      ExclusiveStays(s, s');
      StepCleared(digest, p, s, o);
      StepLinked(digest, p, s, o);
      ExecOrderly(digest, p', s', Tail(script));
    }
  }

  // ---- isolation of a whole attempt

  /** An account id that existed before and is not the owner's (or no account at all). */
  ghost predicate Foreign(s: State, a: Option<string>, own: Labels) {
    a.Some? ==> Issued(s.next, a.value) && !Has(s.accounts, a.value, own)
  }

  /** What a whole attempt of one owner leaves alone. */
  ghost predicate Untouched(s: State, s': State, own: Labels) {
    && s'.providers == s.providers && s'.directory == s.directory
    && Others(s'.accounts, own) == Others(s.accounts, own)
    && Others(s'.identities, own) == Others(s.identities, own)
    && (forall slot :: Unmanaged(s'.At(slot)) == Unmanaged(s.At(slot)))
    && (forall slot, a: Option<string> | Foreign(s, a, own) :: GrantsOf(s'.At(slot), a) == GrantsOf(s.At(slot), a))
  }

  lemma ForeignStays(s: State, s': State, a: Option<string>, own: Labels, actor: Option<string>)
    requires Isolated(s, s', own, actor) && Foreign(s, a, own)
    ensures Foreign(s', a, own)
  {
    hide LabelsMatch;
    if a.Some? {
      IssuedLater(s.next, s'.next, a.value);
    }
  }

  lemma IsolatedIsUntouched(s: State, s': State, own: Labels, actor: Option<string>)
    requires Isolated(s, s', own, actor) && (actor.Some? ==> Has(s.accounts, actor.value, own))
    ensures Untouched(s, s', own)
  {
    hide LabelsMatch, Has, Issued;
  }

  lemma UntouchedTransitive(s: State, s1: State, s2: State, own: Labels, actor: Option<string>)
    requires Isolated(s, s1, own, actor) && Untouched(s, s1, own) && Untouched(s1, s2, own)
    ensures Untouched(s, s2, own)
  {
    hide LabelsMatch, Has, Issued, Isolated, Foreign;
    forall slot, a: Option<string> | Foreign(s, a, own)
      ensures GrantsOf(s2.At(slot), a) == GrantsOf(s.At(slot), a)
    {
      ForeignStays(s, s1, a, own, actor);
    }
  }

  /** Isolation: an attempt leaves every resource without the owner's labels, every binding of another account and
      every binding not labelled by the controller exactly as it was, order included, for any digest. */
  lemma {:induction false} ExecIsolated(digest: Digest, p: Position, s: State, script: Script)
    requires Sound(s) && Knows(s, p) && Live(p)
    ensures Untouched(s, Exec(digest, p, s, script).1, LabelsOf(p))
    decreases Stage(p), Left(p)
  {
    hide Sound, Knows, Step, OwnerOf, KeyOf, Isolated, Untouched, Has, OwnershipLabels;
    if Terminal(p) {
      UntouchedReflexive(s, LabelsOf(p));
    } else {
      var o := Head(script);
      var (p', s') := Step(digest, p, s, o);
      StageDrops(digest, p, s, o);
      StepSafe(digest, p, s, o);
      StepKnows(digest, p, s, o);
      StepSameOwner(digest, p, s, o);
      if Actor(p).Some? { ActorHeld(s, p); }
      IsolatedIsUntouched(s, s', LabelsOf(p), Actor(p));
      if p'.Stopped? {
        StoppedStays(digest, p', s', Tail(script));
        UntouchedByStopping(digest, p', s', Tail(script), LabelsOf(p));
      } else {
        ExecIsolated(digest, p', s', Tail(script));
      }
      UntouchedTransitive(s, s', Exec(digest, p', s', Tail(script)).1, LabelsOf(p), Actor(p));
    }
  }

  lemma UntouchedReflexive(s: State, own: Labels)
    ensures Untouched(s, s, own)
  {}

  lemma UntouchedByStopping(digest: Digest, p: Position, s: State, script: Script, own: Labels)
    requires p.Stopped?
    ensures Untouched(s, Exec(digest, p, s, script).1, own)
  {}

  /** The key an ensure derives from the providers it finds. */
  function KeyFound(digest: Digest, want: EnsureInput, providers: seq<Provider>): string {
    var p := WithProvider(digest, want, SelectProvider(providers, want.cluster));
    if p.FindAccount? then p.job.key else ""
  }

  lemma ProviderStep(digest: Digest, want: EnsureInput, s: State, o: Outcome)
    ensures var (p', s') := Step(digest, FindProvider(want), s, o);
            && s' == s
            && (p'.Stopped? || p'.FindAccount?)
            && p' == (if o == Ok then WithProvider(digest, want, SelectProvider(s.providers, want.cluster))
               else Stopped(CallFailed))
            && (p'.FindAccount? ==> p'.job.want == want && p'.job.key == KeyFound(digest, want, s.providers))
  {
    hide SelectProvider, BuildSubject, NormalizeIssuer, ResourceKey;
  }

  lemma EnsureIsolated(digest: Digest, want: EnsureInput, s: State, script: Script)
    requires Sound(s)
    ensures Untouched(s, Exec(digest, StartEnsure(want), s, script).1,
                      OwnershipLabels(KeyFound(digest, want, s.providers), want.namespace, want.name))
  {
    hide Sound, Untouched, OwnershipLabels, KeyFound, TrimSpace, LabelsMatch;
    var own := OwnershipLabels(KeyFound(digest, want, s.providers), want.namespace, want.name);
    UntouchedReflexive(s, own);
    if want.Valid() {
      ProviderStep(digest, want, s, Head(script));
      var (p, s') := Step(digest, FindProvider(want), s, Head(script));
      if p.FindAccount? {
        ExecIsolated(digest, p, s, Tail(script));
      }
    }
  }

  lemma DeleteIsolated(digest: Digest, ns: string, n: string, issuer: string, roleRef: string, policyRef: string,
                       s: State, script: Script)
    requires Sound(s) && BuildSubject(ns, n).Some?
    ensures Untouched(s, Exec(digest, StartDelete(digest, ns, n, issuer, roleRef, policyRef), s, script).1,
                      OwnershipLabels(ResourceKey(digest, ns, n, BuildSubject(ns, n).value, issuer), ns, n))
  {
    hide Sound, Untouched, OwnershipLabels, BuildSubject, ResourceKey;
    ExecIsolated(digest, StartDelete(digest, ns, n, issuer, roleRef, policyRef), s, script);
  }

  // ---- what success means

  /** The kinds of slot an input asks to bind, policy first. */
  function Wanted(want: EnsureInput): seq<Kind> {
    (if want.Ref(Policy) != "" then [Policy] else []) + (if want.Ref(Role) != "" then [Role] else [])
  }

  function Kinds(bound: seq<Slot>): seq<Kind> {
    seq(|bound|, i requires 0 <= i < |bound| => bound[i].kind)
  }

  /** The kinds bound on the way are those asked for. */
  ghost predicate OnTrack(p: Position) {
    match p
    case LookUp(t, kind) => TrackOf(t, kind)
    case Search(t, kind) => TrackOf(t, kind)
    case CheckBinding(t, slot) => TrackOf(t, slot.kind)
    case MakeBinding(t, slot) => TrackOf(t, slot.kind)
    case Ensured(t) => Kinds(t.bound) == Wanted(t.job.want)
    case _ => true
  }

  ghost predicate TrackOf(t: Task, kind: Kind) {
    && t.job.want.Ref(kind) != ""
    && (kind == Policy ==> t.bound == [])
    && (kind == Role ==> Kinds(t.bound) == if t.job.want.Ref(Policy) != "" then [Policy] else [])
  }

  lemma TrackAfterBinding(t: Task, slot: Slot)
    requires TrackOf(t, slot.kind)
    ensures OnTrack(WithBinding(t, slot))
  {
    hide TrimSpace;
    assert Kinds(t.bound + [slot]) == Kinds(t.bound) + [slot.kind];
  }

  lemma TrackAfterIdentity(j: Job, account: string, identity: string)
    ensures OnTrack(FromPolicy(Task(j, account, identity, [])))
  {
    hide TrimSpace;
  }

  lemma TrackAfterTarget(t: Task, kind: Kind, target: Target)
    requires TrackOf(t, kind)
    ensures OnTrack(WithTarget(t, kind, target))
  {
    hide TrimSpace, Allowlist.Permitted, TrackOf;
  }

  lemma FoundingOnTrack(digest: Digest, p: Position, r: Response)
    requires p.FindIdentity? || p.MakeIdentity? || p.FixIdentity?
    ensures OnTrack(Advance(digest, p, r))
  {
    hide LabelsMatch, OwnershipLabels, Find, NeedsUpdate, FromPolicy, TrackOf;
    match p
    case FindIdentity(j, account) =>
      if r.Identities? && Find(r.identities, j.Labels()).Some? {
        TrackAfterIdentity(j, account, Find(r.identities, j.Labels()).value.id);
      }
    case MakeIdentity(j, account) => if r.OneIdentity? { TrackAfterIdentity(j, account, r.identity.id); }
    case FixIdentity(j, account, _) => if r.OneIdentity? { TrackAfterIdentity(j, account, r.identity.id); }
  }

  lemma ReferringOnTrack(digest: Digest, p: Position, r: Response)
    requires Referring(p) && OnTrack(p)
    ensures OnTrack(Advance(digest, p, r))
  {
    hide TrimSpace, Pick, AnyGrantsTo, WithTarget, WithBinding, TrackOf;
    match p
    case LookUp(t, kind) => if r.OneTarget? { TrackAfterTarget(t, kind, r.target); }
    case Search(t, kind) =>
      if r.Targets? && Pick(kind, r.targets, t.job.want.Ref(kind)).Some? {
        TrackAfterTarget(t, kind, Pick(kind, r.targets, t.job.want.Ref(kind)).value);
      }
    case CheckBinding(t, slot) => TrackAfterBinding(t, slot);
    case MakeBinding(t, slot) => TrackAfterBinding(t, slot);
  }

  lemma StepOnTrack(digest: Digest, p: Position, r: Response)
    requires !Terminal(p) && OnTrack(p)
    ensures OnTrack(Advance(digest, p, r))
  {
    hide LabelsMatch, OwnershipLabels, TrimSpace, Find, Pick, Removable, SelectProvider, BuildSubject, FromPolicy,
      ResourceKey, NormalizeIssuer, TrackOf;
    if p.FindIdentity? || p.MakeIdentity? || p.FixIdentity? {
      FoundingOnTrack(digest, p, r);
    } else if Referring(p) {
      ReferringOnTrack(digest, p, r);
    }
  }

  lemma {:induction false} ExecOnTrack(digest: Digest, p: Position, s: State, script: Script)
    requires OnTrack(p)
    ensures OnTrack(Exec(digest, p, s, script).0)
    decreases Stage(p), Left(p)
  {
    hide OnTrack, Advance, Perform, Request;
    if !Terminal(p) {
      StageDrops(digest, p, s, Head(script));
      var r := Perform(s, Request(p), Head(script));
      StepOnTrack(digest, p, r.1);
      ExecOnTrack(digest, Advance(digest, p, r.1), r.0, Tail(script));
    }
  }

  /** Success of an ensure, whatever faults it met: one service account and one federated identity carry the owner's
      labels, the identity points to the account, and every reference asked for has a binding to the account. */
  lemma EnsureSucceeds(digest: Digest, want: EnsureInput, s: State, script: Script)
    requires Sound(s) && Exclusive(s) && Linked(s)
    requires Exec(digest, StartEnsure(want), s, script).0.Ensured?
    ensures var (p, s', _) := Exec(digest, StartEnsure(want), s, script);
            var own, t := LabelsOf(p), p.task;
            && OwnerOf(p) == Owner(want.namespace, want.name)
            && |Select(s'.accounts, own)| == 1 && Select(s'.accounts, own)[0].id == t.account
            && |Select(s'.identities, own)| == 1 && Select(s'.identities, own)[0].id == t.identity
            && Select(s'.identities, own)[0].info.account == t.account
            && Kinds(t.bound) == Wanted(t.job.want)
            && forall slot | slot in t.bound :: GrantsOf(s'.At(slot), Some(t.account)) != []
  {
    hide Sound, Exclusive, Linked, Knows, OwnershipLabels, LabelsMatch, Exec, StartEnsure, Cleared, OnTrack,
      NoDuplicates, Wanted, Kinds, Select, GrantsOf, TrimSpace, LabelsOf;
    StartKnows(digest, s, want);
    StartCleared(digest, s, want);
    ExecKnows(digest, StartEnsure(want), s, script);
    ExecOrderly(digest, StartEnsure(want), s, script);
    StartOnTrack(want);
    ExecOnTrack(digest, StartEnsure(want), s, script);
    var (p, s', _) := Exec(digest, StartEnsure(want), s, script);
    StoppedOrNot(digest, want, s, script);
    SuccessFacts(s', p);
  }

  lemma StoppedOrNot(digest: Digest, want: EnsureInput, s: State, script: Script)
    requires Exec(digest, StartEnsure(want), s, script).0.Ensured?
    ensures StartEnsure(want) == FindProvider(want)
  {
    hide TrimSpace;
  }

  lemma StartOnTrack(want: EnsureInput)
    ensures OnTrack(StartEnsure(want))
  {
    hide TrimSpace;
  }

  lemma SuccessFacts(s: State, p: Position)
    requires p.Ensured? && Knows(s, p) && Exclusive(s) && Linked(s) && OnTrack(p)
    ensures var own, t := LabelsOf(p), p.task;
            && Kinds(t.bound) == Wanted(t.job.want)
            && (forall slot | slot in t.bound :: GrantsOf(s.At(slot), Some(t.account)) != [])
            && |Select(s.accounts, own)| == 1 && Select(s.accounts, own)[0].id == t.account
            && |Select(s.identities, own)| == 1 && Select(s.identities, own)[0].id == t.identity
            && Select(s.identities, own)[0].info.account == t.account
  {
    hide LabelsMatch, OwnershipLabels, Wanted;
    var own, t := LabelsOf(p), p.task;
    HasBySelect(s.accounts, t.account, own);
    HasBySelect(s.identities, t.identity, own);
    SelectFacts(s.identities, own);
    var y := Select(s.identities, own)[0];
    assert y in Select(s.identities, own);
    assert Has(s.accounts, y.info.account, own);
    HasBySelect(s.accounts, y.info.account, own);
  }

  /** A deletion that reports success has left no account and no identity of the owner. */
  lemma DeleteSucceeds(digest: Digest, ns: string, n: string, issuer: string, roleRef: string, policyRef: string,
                       s: State, script: Script)
    requires Sound(s) && Exclusive(s) && Linked(s)
    ensures var p := StartDelete(digest, ns, n, issuer, roleRef, policyRef);
            var r := Exec(digest, p, s, script);
            && Sound(r.1) && Exclusive(r.1) && Linked(r.1)
            && (r.0.Dropped? ==> Select(r.1.accounts, LabelsOf(p)) == [] && Select(r.1.identities, LabelsOf(p)) == [])
  {
    hide Sound, Exclusive, Linked, Knows, OwnershipLabels, LabelsMatch, StartDelete, Exec, NoDuplicates;
    var p := StartDelete(digest, ns, n, issuer, roleRef, policyRef);
    StartDeleteKnows(digest, s, ns, n, issuer, roleRef, policyRef);
    StartDeleteCleared(digest, s, ns, n, issuer, roleRef, policyRef);
    ExecKnows(digest, p, s, script);
    ExecOrderly(digest, p, s, script);
    StoppedStays(digest, p, s, script);
    if !Live(p) { StartIsDelete(digest, ns, n, issuer, roleRef, policyRef); }
  }

  lemma StartIsDelete(digest: Digest, ns: string, n: string, issuer: string, roleRef: string, policyRef: string)
    ensures var p := StartDelete(digest, ns, n, issuer, roleRef, policyRef); p.Stopped? || Live(p)
  {
    hide BuildSubject, ResourceKey;
  }
}
