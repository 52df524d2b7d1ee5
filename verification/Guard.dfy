/** Every binding ever added went through resolution and the allowlist. */
module Guard {
  import opened Strings
  import opened Subject
  import opened Store
  import opened Protocol
  import opened Safety
  import opened World
  import Allowlist

  /** The directory answers the reference with this target: directly, or by the search rule. */
  ghost predicate Answers(d: Directory, kind: Kind, ref: string, target: Target) {
    || (Slot(kind, ref) in d.direct && d.direct[Slot(kind, ref)] == target && (kind == Role || !Blank(target.id)))
    || Pick(kind, d.Listed(kind), ref) == Some(target)
  }

  ghost predicate Vet(d: Directory, want: EnsureInput, slot: Slot, target: Target) {
    && target.id == slot.id
    && Answers(d, slot.kind, want.Ref(slot.kind), target)
    && Allowlist.Permitted(want.Allowed(slot.kind), want.Ref(slot.kind), [target.id, target.slug, target.name])
  }

  /** Some directory of the run answered the input's reference with a permitted target of this slot. */
  ghost predicate Vetted(ds: set<Directory>, want: EnsureInput, slot: Slot) {
    exists d, target | d in ds :: Vet(d, want, slot, target)
  }

  ghost predicate AllVetted(ds: set<Directory>, t: Task) {
    forall slot | slot in t.bound :: Vetted(ds, t.job.want, slot)
  }

  ghost predicate Clean(ds: set<Directory>, p: Position) {
    match p
    case LookUp(t, _) => AllVetted(ds, t)
    case Search(t, _) => AllVetted(ds, t)
    case CheckBinding(t, slot) => AllVetted(ds, t) && Vetted(ds, t.job.want, slot)
    case MakeBinding(t, slot) => AllVetted(ds, t) && Vetted(ds, t.job.want, slot)
    case Ensured(t) => AllVetted(ds, t)
    case _ => true
  }

  function InputOf(p: Position): Option<EnsureInput> {
    match p
    case FindProvider(w) => Some(w)
    case FindAccount(j) => Some(j.want)
    case MakeAccount(j) => Some(j.want)
    case FindIdentity(j, _) => Some(j.want)
    case MakeIdentity(j, _) => Some(j.want)
    case FixIdentity(j, _, _) => Some(j.want)
    case LookUp(t, _) => Some(t.job.want)
    case Search(t, _) => Some(t.job.want)
    case CheckBinding(t, _) => Some(t.job.want)
    case MakeBinding(t, _) => Some(t.job.want)
    case Ensured(t) => Some(t.job.want)
    case _ => None
  }

  lemma CleanAfterTarget(ds: set<Directory>, d: Directory, t: Task, kind: Kind, target: Target)
    requires AllVetted(ds, t) && d in ds && Answers(d, kind, t.job.want.Ref(kind), target)
    ensures Clean(ds, WithTarget(t, kind, target))
  {
    hide AllVetted, Answers, Allowlist.Permitted, TrimSpace;
    if Allowlist.Permitted(t.job.want.Allowed(kind), t.job.want.Ref(kind), [target.id, target.slug, target.name]) {
      assert Vet(d, t.job.want, Slot(kind, target.id), target);
    }
  }

  lemma CleanAfterBinding(ds: set<Directory>, t: Task, slot: Slot)
    requires AllVetted(ds, t) && Vetted(ds, t.job.want, slot)
    ensures Clean(ds, WithBinding(t, slot))
  {
    hide Vetted, TrimSpace;
    assert AllVetted(ds, t.(bound := t.bound + [slot]));
  }

  lemma CleanAfterIdentity(ds: set<Directory>, j: Job, account: string, identity: string)
    ensures Clean(ds, FromPolicy(Task(j, account, identity, [])))
  {
    hide Vetted, TrimSpace;
  }

  lemma CleanAfterResolving(digest: Digest, ds: set<Directory>, p: Position, s: State, o: Outcome)
    requires (p.LookUp? || p.Search?) && Clean(ds, p) && s.directory in ds
    ensures Clean(ds, Step(digest, p, s, o).0)
  {
    hide TrimSpace, Pick, WithTarget, AllVetted, Vetted;
    var r := Perform(s, Request(p), o).1;
    match p
    case LookUp(t, kind) => if Resolves(kind, r) { CleanAfterTarget(ds, s.directory, t, kind, r.target); }
    case Search(t, kind) =>
      if r.Targets? && Pick(kind, r.targets, t.job.want.Ref(kind)).Some? {
        CleanAfterTarget(ds, s.directory, t, kind, Pick(kind, r.targets, t.job.want.Ref(kind)).value);
      }
  }

  lemma CleanElsewhere(digest: Digest, ds: set<Directory>, p: Position, r: Response)
    requires !Terminal(p) && !p.LookUp? && !p.Search? && Clean(ds, p)
    ensures Clean(ds, Advance(digest, p, r))
  {
    hide LabelsMatch, OwnershipLabels, TrimSpace, Find, Pick, NeedsUpdate, Removable, SelectProvider, BuildSubject,
      AnyGrantsTo, FromPolicy, WithBinding, ResourceKey, NormalizeIssuer, AllVetted, Vetted;
    match p
    case FindIdentity(j, account) =>
      if r.Identities? && Find(r.identities, j.Labels()).Some? {
        CleanAfterIdentity(ds, j, account, Find(r.identities, j.Labels()).value.id);
      }
    case MakeIdentity(j, account) => if r.OneIdentity? { CleanAfterIdentity(ds, j, account, r.identity.id); }
    case FixIdentity(j, account, _) => if r.OneIdentity? { CleanAfterIdentity(ds, j, account, r.identity.id); }
    case CheckBinding(t, slot) => CleanAfterBinding(ds, t, slot);
    case MakeBinding(t, slot) => CleanAfterBinding(ds, t, slot);
    case _ =>
  }

  lemma StepClean(digest: Digest, ds: set<Directory>, p: Position, s: State, o: Outcome)
    requires !Terminal(p) && Clean(ds, p) && s.directory in ds
    ensures Clean(ds, Step(digest, p, s, o).0)
  {
    hide Clean, Advance, Request, Perform;
    if p.LookUp? || p.Search? {
      CleanAfterResolving(digest, ds, p, s, o);
    } else {
      CleanElsewhere(digest, ds, p, Perform(s, Request(p), o).1);
    }
  }

  lemma StepSameInput(digest: Digest, p: Position, r: Response)
    requires !Terminal(p)
    ensures InputOf(Advance(digest, p, r)).Some? ==> InputOf(Advance(digest, p, r)) == InputOf(p)
  {
    hide LabelsMatch, OwnershipLabels, TrimSpace, Find, Pick, NeedsUpdate, Removable, SelectProvider, BuildSubject,
      AnyGrantsTo, ResourceKey, NormalizeIssuer, Allowlist.Permitted;
  }

  // ---- over runs

  /** A binding added on behalf of an input: the controller's, with the input's owner on it, named after its key. */
  ghost predicate AddedFor(b: Binding, want: EnsureInput) {
    Managed(b.labels) && Get(b.labels, K8S_NAMESPACE) == want.namespace
    && Get(b.labels, K8S_SERVICE_ACCOUNT) == want.name && Get(b.labels, WIF_VCS) == KUBERNETES
    && b.name == BindingName(Get(b.labels, WIF_KEY))
  }

  ghost predicate Accounted(w: World, start: State, slot: Slot, b: Binding) {
    || b in start.At(slot)
    || exists want | want in w.asked :: AddedFor(b, want) && Vetted(w.directories, want, slot)
  }

  ghost predicate Screened(w: World, p: Position) {
    Clean(w.directories, p) && (InputOf(p).Some? ==> InputOf(p).value in w.asked)
  }

  ghost predicate Guarded(w: World, start: State) {
    && w.state.directory in w.directories
    && (forall o | o in w.attempts :: Screened(w, w.attempts[o]))
    && (forall slot, b | b in w.state.At(slot) :: Accounted(w, start, slot, b))
  }

  lemma VettedMore(ds: set<Directory>, ds': set<Directory>, want: EnsureInput, slot: Slot)
    requires Vetted(ds, want, slot) && ds <= ds'
    ensures Vetted(ds', want, slot)
  {
    hide Vet;
  }

  lemma CleanMore(ds: set<Directory>, ds': set<Directory>, p: Position)
    requires Clean(ds, p) && ds <= ds'
    ensures Clean(ds', p)
  {
    hide Vetted;
    forall want, slot | Vetted(ds, want, slot)
      ensures Vetted(ds', want, slot)
    {
      VettedMore(ds, ds', want, slot);
    }
  }

  lemma GuardedMore(w: World, w': World, start: State)
    requires Guarded(w, start) && w'.attempts == w.attempts && w.asked <= w'.asked && w.directories <= w'.directories
    requires w'.state.bindings == w.state.bindings && w'.state.directory in w'.directories
    ensures Guarded(w', start)
  {
    hide Vetted, AddedFor, Clean;
    forall o | o in w'.attempts
      ensures Screened(w', w'.attempts[o])
    {
      assert Screened(w, w.attempts[o]);
      CleanMore(w.directories, w'.directories, w.attempts[o]);
    }
    forall slot, b | b in w'.state.At(slot)
      ensures Accounted(w', start, slot, b)
    {
      assert b in w.state.At(slot);
      assert Accounted(w, start, slot, b);
      if b !in start.At(slot) {
        var want :| want in w.asked && AddedFor(b, want) && Vetted(w.directories, want, slot);
        VettedMore(w.directories, w'.directories, want, slot);
      }
    }
  }

  lemma StepDirectory(digest: Digest, p: Position, s: State, o: Outcome)
    requires !Terminal(p)
    ensures Step(digest, p, s, o).1.directory == s.directory
  {
    hide Advance;
    StoreAfterStep(digest, p, s, o);
  }

  /** Only one call adds a binding, to its own slot and with the labels of its job, named after the key. */
  lemma NewBinding(digest: Digest, p: Position, s: State, o: Outcome, slot: Slot, b: Binding)
    requires !Terminal(p) && b in Step(digest, p, s, o).1.At(slot) && b !in s.At(slot)
    ensures p.MakeBinding? && slot == p.slot && b.labels == p.task.job.Labels()
            && b.name == BindingName(p.task.job.key)
  {
    hide LabelsMatch, TrimSpace, FreshId, ServiceAccountName, FederatedIdentityName, BindingName, Description, Lookup,
      Replace, Find, Managed, OwnershipLabels, Advance;
    StoreAfterStep(digest, p, s, o);
    if p.DropBinding? && slot == p.slot { WithoutMember(s.At(slot), Request(p).id, b); }
  }

  lemma BindingsAfterStep(digest: Digest, w: World, p: Position, o: Outcome, start: State)
    requires !Terminal(p) && Guarded(w, start) && Screened(w, p)
    ensures var s' := Step(digest, p, w.state, o).1;
            && s'.directory == w.state.directory
            && forall slot, b | b in s'.At(slot) :: Accounted(w, start, slot, b)
  {
    hide Step, Accounted, Screened, LabelsMatch, OwnershipLabels;
    var s, s' := w.state, Step(digest, p, w.state, o).1;
    StepDirectory(digest, p, s, o);
    forall slot, b | b in s'.At(slot)
      ensures Accounted(w, start, slot, b)
    {
      if b !in s.At(slot) {
        NewBinding(digest, p, s, o, slot, b);
        NewBindingAccounted(w, start, p, b);
      }
    }
  }

  lemma NewBindingAccounted(w: World, start: State, p: Position, b: Binding)
    requires p.MakeBinding? && Screened(w, p) && b.labels == p.task.job.Labels()
             && b.name == BindingName(p.task.job.key)
    ensures Accounted(w, start, p.slot, b)
  {
    hide LabelsMatch, Vetted, AllVetted, BindingName;
    var want := p.task.job.want;
    OwnershipMatch(b.labels, p.task.job.key, want.namespace, want.name);
    assert AddedFor(b, want);
  }

  lemma NextGuarded(digest: Digest, w: World, e: Event, start: State)
    requires Guarded(w, start)
    ensures Guarded(Next(digest, w, e), start)
  {
    hide LabelsMatch, OwnershipLabels, Step, StartEnsure, StartDelete, Terminal, Clean, Accounted, InputOf;
    match e
    case BeginEnsure(want) =>
      var w' := w.(asked := w.asked + {want});
      GuardedMore(w, w', start);
      StartScreened(digest, w', want);
      LaunchGuarded(w', Owner(want.namespace, want.name), StartEnsure(want), start);
    case BeginDelete(ns, n, issuer, roleRef, policyRef) =>
      StartDeleteScreened(digest, w, ns, n, issuer, roleRef, policyRef);
      LaunchGuarded(w, Owner(ns, n), StartDelete(digest, ns, n, issuer, roleRef, policyRef), start);
    case OneCall(owner, o) =>
      if owner in w.attempts && !Terminal(w.attempts[owner]) {
        var p := w.attempts[owner];
        assert Screened(w, p);
        StepClean(digest, w.directories, p, w.state, o);
        StepSameInput(digest, p, Perform(w.state, Request(p), o).1);
        StepIsAdvance(digest, p, w.state, o);
        BindingsAfterStep(digest, w, p, o, start);
        var w' := Next(digest, w, e);
        forall other | other in w'.attempts
          ensures Screened(w', w'.attempts[other])
        {
          if other != owner {
            assert Screened(w, w.attempts[other]);
          }
        }
        forall slot, b | b in w'.state.At(slot)
          ensures Accounted(w', start, slot, b)
        {
          assert Accounted(w, start, slot, b);
          AccountedSame(w, w', start, slot, b);
        }
      }
    case Abandon(_) =>
      forall slot, b | b in w.state.At(slot)
        ensures Accounted(Next(digest, w, e), start, slot, b)
      {
        AccountedSame(w, Next(digest, w, e), start, slot, b);
      }
    case Reconfigure(_, _) => GuardedMore(w, Next(digest, w, e), start);
  }

  lemma LaunchGuarded(w: World, owner: Owner, p: Position, start: State)
    requires Guarded(w, start) && Screened(w, p)
    ensures Guarded(Launch(w, owner, p), start)
  {
    hide Clean, InputOf, Accounted;
    var w' := Launch(w, owner, p);
    forall o | o in w'.attempts
      ensures Screened(w', w'.attempts[o])
    {
      assert o in w.attempts ==> Screened(w, w.attempts[o]);
    }
    forall slot, b | b in w'.state.At(slot)
      ensures Accounted(w', start, slot, b)
    {
      AccountedSame(w, w', start, slot, b);
    }
  }

  lemma AccountedSame(w: World, w': World, start: State, slot: Slot, b: Binding)
    requires Accounted(w, start, slot, b) && w'.asked == w.asked && w'.directories == w.directories
    ensures Accounted(w', start, slot, b)
  {}

  lemma StepIsAdvance(digest: Digest, p: Position, s: State, o: Outcome)
    requires !Terminal(p)
    ensures Step(digest, p, s, o).0 == Advance(digest, p, Perform(s, Request(p), o).1)
  {}

  lemma StartScreened(digest: Digest, w: World, want: EnsureInput)
    requires want in w.asked
    ensures Screened(w, StartEnsure(want))
  {
    hide TrimSpace;
  }

  lemma StartDeleteScreened(digest: Digest, w: World, ns: string, n: string, issuer: string, roleRef: string,
                            policyRef: string)
    ensures Screened(w, StartDelete(digest, ns, n, issuer, roleRef, policyRef))
  {
    hide BuildSubject, ResourceKey;
  }

  lemma {:induction false} RunGuarded(digest: Digest, w: World, es: seq<Event>, start: State)
    requires Guarded(w, start)
    ensures Guarded(Run(digest, w, es), start)
    decreases |es|
  {
    hide Guarded, Next;
    if es != [] {
      NextGuarded(digest, w, es[0], start);
      RunGuarded(digest, Next(digest, w, es[0]), es[1..], start);
    }
  }

  /** The inputs of a run carry one allowlist per kind, as they do when it comes from the configuration. */
  ghost predicate OneAllowlist(w: World, kind: Kind, allowlist: seq<string>) {
    forall want | want in w.asked :: want.Allowed(kind) == allowlist
  }

  /** With a non-empty allowlist, a binding that a run has added belongs to a policy or role, found by the reference of
      some input for the binding's own owner, whose reference, identity, slug or name is on the list. */
  lemma AllowlistOverRuns(digest: Digest, w: World, es: seq<Event>, slot: Slot, b: Binding, allowlist: seq<string>)
    requires w.attempts == map[] && w.state.directory in w.directories
    requires var w' := Run(digest, w, es);
             b in w'.state.At(slot) && b !in w.state.At(slot) && OneAllowlist(w', slot.kind, allowlist)
             && allowlist != []
    ensures exists want: EnsureInput, d: Directory, target: Target ::
              want in Run(digest, w, es).asked && d in Run(digest, w, es).directories
              && AddedFor(b, want) && target.id == slot.id && Answers(d, slot.kind, want.Ref(slot.kind), target)
              && Allowlist.Listed(allowlist, [want.Ref(slot.kind)] + [target.id, target.slug, target.name])
  {
    hide Answers, AddedFor, Allowlist.Listed, Next, TrimSpace;
    RunGuarded(digest, w, es, w.state);
    var w' := Run(digest, w, es);
    assert Accounted(w', w.state, slot, b);
    var want :| want in w'.asked && AddedFor(b, want) && Vetted(w'.directories, want, slot);
    var d, target :| d in w'.directories && Vet(d, want, slot, target);
    assert want.Allowed(slot.kind) == allowlist;
  }

  lemma {:induction false} ExecVetted(digest: Digest, p: Position, s: State, script: Script)
    requires Clean({s.directory}, p)
    ensures Clean({s.directory}, Exec(digest, p, s, script).0)
    decreases Stage(p), Left(p)
  {
    hide Clean, Step;
    if !Terminal(p) {
      var (p', s') := Step(digest, p, s, Head(script));
      StageDrops(digest, p, s, Head(script));
      StepClean(digest, {s.directory}, p, s, Head(script));
      StepKeepsDirectory(digest, p, s, Head(script));
      ExecVetted(digest, p', s', Tail(script));
    }
  }

  lemma StepKeepsDirectory(digest: Digest, p: Position, s: State, o: Outcome)
    requires !Terminal(p)
    ensures Step(digest, p, s, o).1.directory == s.directory && Step(digest, p, s, o).1.providers == s.providers
  {
    hide Advance, Lookup, Replace, Without, FreshId, Updated, Request;
  }

  /** An ensure that succeeds has bound only slots the directory answered for its references and the allowlists
      permit. */
  lemma EnsureVetted(digest: Digest, want: EnsureInput, s: State, script: Script)
    requires Exec(digest, StartEnsure(want), s, script).0.Ensured?
    ensures AllVetted({s.directory}, Exec(digest, StartEnsure(want), s, script).0.task)
  {
    hide Exec, AllVetted, TrimSpace;
    assert Clean({s.directory}, StartEnsure(want));
    ExecVetted(digest, StartEnsure(want), s, script);
  }
}
