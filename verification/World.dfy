/** Many owners at once: attempts interleave call by call, attempts of one owner are serial. */
module World {
  import opened Strings
  import opened Subject
  import opened Store
  import opened Protocol
  import opened Ownership
  import opened Safety
  import opened Attempts

  /** The store, the attempt in flight of each owner, and what has been asked for and configured so far. */
  datatype World = World(state: State, attempts: map<Owner, Position>, asked: set<EnsureInput>,
                         directories: set<Directory>)

  datatype Event =
    | BeginEnsure(want: EnsureInput)
    | BeginDelete(namespace: string, name: string, issuer: string, roleRef: string, policyRef: string)
    | OneCall(owner: Owner, outcome: Outcome)
    | Abandon(owner: Owner)
    | Reconfigure(providers: seq<Provider>, directory: Directory)

  function Launch(w: World, owner: Owner, p: Position): World {
    if owner in w.attempts || Terminal(p) then w else w.(attempts := w.attempts[owner := p])
  }

  /** An event that is not possible changes nothing. */
  function Next(digest: Digest, w: World, e: Event): World {
    match e
    case BeginEnsure(want) =>
      Launch(w, Owner(want.namespace, want.name), StartEnsure(want)).(asked := w.asked + {want})
    case BeginDelete(ns, n, issuer, roleRef, policyRef) =>
      Launch(w, Owner(ns, n), StartDelete(digest, ns, n, issuer, roleRef, policyRef))
    case OneCall(owner, o) =>
      if owner !in w.attempts || Terminal(w.attempts[owner]) then w
      else
        var (p', s') := Step(digest, w.attempts[owner], w.state, o);
        w.(state := s', attempts := if Terminal(p') then w.attempts - {owner} else w.attempts[owner := p'])
    case Abandon(owner) => w.(attempts := w.attempts - {owner})
    case Reconfigure(providers, directory) =>
      w.(state := w.state.(providers := providers, directory := directory), directories := w.directories + {directory})
  }

  function Run(digest: Digest, w: World, es: seq<Event>): World
    decreases |es|
  {
    if es == [] then w else Run(digest, Next(digest, w, es[0]), es[1..])
  }

  ghost predicate Knowing(s: State, o: Owner, p: Position) {
    !Terminal(p) && OwnerOf(p) == o && Knows(s, p)
  }

  ghost predicate Consistent(w: World) {
    && Sound(w.state)
    && forall o | o in w.attempts :: Knowing(w.state, o, w.attempts[o])
  }

  // ---- a call of one owner does not disturb what another knows

  lemma SelectStays<T>(xs: seq<Resource<T>>, ys: seq<Resource<T>>, k1: string, o1: Owner, k2: string, o2: Owner)
    requires (k1 != k2 || o1 != o2)
    requires Others(xs, OwnershipLabels(k1, o1.namespace, o1.name))
               == Others(ys, OwnershipLabels(k1, o1.namespace, o1.name))
    ensures Select(xs, OwnershipLabels(k2, o2.namespace, o2.name))
              == Select(ys, OwnershipLabels(k2, o2.namespace, o2.name))
  {
    hide LabelsMatch, OwnershipLabels;
    SelectAmongOthers(xs, k1, o1.namespace, o1.name, k2, o2.namespace, o2.name);
    SelectAmongOthers(ys, k1, o1.namespace, o1.name, k2, o2.namespace, o2.name);
  }

  lemma HasBySelect<T>(xs: seq<Resource<T>>, id: string, own: Labels)
    ensures Has(xs, id, own) <==> exists x | x in Select(xs, own) :: x.id == id
  {
    hide LabelsMatch;
    SelectFacts(xs, own);
    if Has(xs, id, own) {
      var h :| h in xs && h.id == id && LabelsMatch(h.labels, own);
      assert h in Select(xs, own);
    }
    if exists x | x in Select(xs, own) :: x.id == id {
      var h :| h in Select(xs, own) && h.id == id;
      assert h in xs && LabelsMatch(h.labels, own);
    }
  }

  lemma HasStays<T>(xs: seq<Resource<T>>, ys: seq<Resource<T>>, id: string, own: Labels)
    requires Select(xs, own) == Select(ys, own) && Has(xs, id, own)
    ensures Has(ys, id, own)
  {
    HasBySelect(xs, id, own);
    HasBySelect(ys, id, own);
  }

  /** Two owners never hold the same account. */
  lemma AccountsApart(s: State, a1: string, k1: string, o1: Owner, a2: string, k2: string, o2: Owner)
    requires Sound(s) && o1 != o2
    requires Has(s.accounts, a1, OwnershipLabels(k1, o1.namespace, o1.name))
    requires Has(s.accounts, a2, OwnershipLabels(k2, o2.namespace, o2.name))
    ensures a1 != a2
  {
    hide LabelsMatch, OwnershipLabels;
    if a1 == a2 {
      var x :| x in s.accounts && x.id == a1 && LabelsMatch(x.labels, OwnershipLabels(k1, o1.namespace, o1.name));
      var y :| y in s.accounts && y.id == a2 && LabelsMatch(y.labels, OwnershipLabels(k2, o2.namespace, o2.name));
      SameIdSame(s.accounts, x, y);
      OwnersAreSeparate(x.labels, k1, o1.namespace, o1.name, k2, o2.namespace, o2.name);
    }
  }

  /** What a change of the store must leave for an attempt to keep its knowledge. */
  ghost predicate Undisturbed(s: State, s': State, own: Labels) {
    && s.next <= s'.next
    && Select(s'.accounts, own) == Select(s.accounts, own)
    && Select(s'.identities, own) == Select(s.identities, own)
    && (forall slot, a | Has(s.accounts, a, own) :: GrantsOf(s'.At(slot), Some(a)) == GrantsOf(s.At(slot), Some(a)))
    && (forall slot, b | b in s'.At(slot) :: b in s.At(slot) || !Issued(s.next, b.id))
  }

  lemma RestStays(s: State, s': State, slot: Slot, account: string, rest: seq<Binding>)
    requires KnowsRest(s, slot, account, rest) && s.next <= s'.next
    requires forall b | b in s'.At(slot) :: b in s.At(slot) || !Issued(s.next, b.id)
    ensures KnowsRest(s', slot, account, rest)
  {
    hide Managed;
    forall b | b in rest
      ensures KnowsOne(s', slot, account, b)
    {
      assert KnowsOne(s, slot, account, b);
      IssuedLater(s.next, s'.next, b.id);
    }
  }

  lemma TaskStays(s: State, s': State, t: Task)
    requires KnowsTask(s, t) && Undisturbed(s, s', t.job.Labels())
    ensures KnowsTask(s', t)
  {
    hide LabelsMatch, OwnershipLabels;
    HasStays(s.accounts, s'.accounts, t.account, t.job.Labels());
    HasStays(s.identities, s'.identities, t.identity, t.job.Labels());
  }

  lemma KnowsStays(s: State, s': State, p: Position)
    requires Knows(s, p) && Undisturbed(s, s', LabelsOf(p))
    ensures Knows(s', p)
  {
    hide LabelsMatch, OwnershipLabels, KnowsTask, KnowsRest, Has, Issued;
    match p
    case FindIdentity(j, a) => HasStays(s.accounts, s'.accounts, a, LabelsOf(p));
    case MakeIdentity(j, a) => HasStays(s.accounts, s'.accounts, a, LabelsOf(p));
    case FixIdentity(j, a, i) =>
      HasStays(s.accounts, s'.accounts, a, LabelsOf(p));
      HasStays(s.identities, s'.identities, i, LabelsOf(p));
    case LookUp(t, _) => TaskStays(s, s', t);
    case Search(t, _) => TaskStays(s, s', t);
    case CheckBinding(t, _) => TaskStays(s, s', t);
    case MakeBinding(t, _) =>
      TaskStays(s, s', t);
      HeldByTask(s, t);
    case Ensured(t) => TaskStays(s, s', t);
    case DropIdentity(c, i) => HasStays(s.identities, s'.identities, i, LabelsOf(p));
    case DropLookUp(_, a, _) => HasStays(s.accounts, s'.accounts, a, LabelsOf(p));
    case DropSearch(_, a, _) => HasStays(s.accounts, s'.accounts, a, LabelsOf(p));
    case DropListBindings(_, a, _) => HasStays(s.accounts, s'.accounts, a, LabelsOf(p));
    case DropBinding(_, a, slot, rest) =>
      HasStays(s.accounts, s'.accounts, a, LabelsOf(p));
      RestStays(s, s', slot, a, rest);
    case DropAccount(_, a) => HasStays(s.accounts, s'.accounts, a, LabelsOf(p));
    case _ =>
  }

  lemma HeldByTask(s: State, t: Task)
    requires KnowsTask(s, t)
    ensures Has(s.accounts, t.account, t.job.Labels())
  {}

  lemma ActorHeld(s: State, p: Position)
    requires Knows(s, p) && Actor(p).Some?
    ensures Has(s.accounts, Actor(p).value, LabelsOf(p))
  {
    hide LabelsMatch, OwnershipLabels, Has;
  }

  /** Isolation as another owner sees it. */
  lemma IsolatedIsUndisturbed(s: State, s': State, p: Position, k2: string, o2: Owner)
    requires Sound(s) && Knows(s, p) && Isolated(s, s', LabelsOf(p), Actor(p)) && OwnerOf(p) != o2
    ensures Undisturbed(s, s', OwnershipLabels(k2, o2.namespace, o2.name))
  {
    hide LabelsMatch, OwnershipLabels, Has, Sound, Issued, Knows;
    SelectStays(s'.accounts, s.accounts, KeyOf(p), OwnerOf(p), k2, o2);
    SelectStays(s'.identities, s.identities, KeyOf(p), OwnerOf(p), k2, o2);
    forall slot, a | Has(s.accounts, a, OwnershipLabels(k2, o2.namespace, o2.name))
      ensures GrantsOf(s'.At(slot), Some(a)) == GrantsOf(s.At(slot), Some(a))
    {
      if Actor(p).Some? {
        ActorHeld(s, p);
        AccountsApart(s, Actor(p).value, KeyOf(p), OwnerOf(p), a, k2, o2);
      }
    }
  }

  lemma CallKeepsOthers(digest: Digest, w: World, owner: Owner, o: Outcome, other: Owner)
    requires Consistent(w) && owner in w.attempts && other in w.attempts && other != owner
    ensures Knowing(Step(digest, w.attempts[owner], w.state, o).1, other, w.attempts[other])
  {
    hide LabelsMatch, OwnershipLabels, Sound, Knows, Isolated, Undisturbed, Step, Terminal;
    var p, q := w.attempts[owner], w.attempts[other];
    assert Knowing(w.state, owner, p) && Knowing(w.state, other, q);
    StepSafe(digest, p, w.state, o);
    var s' := Step(digest, p, w.state, o).1;
    IsolatedIsUndisturbed(w.state, s', p, KeyOf(q), OwnerOf(q));
    KnowsStays(w.state, s', q);
  }

  /** Reconfiguration touches no resource. */
  lemma ReconfigureKeeps(s: State, s': State, p: Position)
    requires s' == s.(providers := s'.providers, directory := s'.directory)
    ensures Sound(s) ==> Sound(s')
    ensures Knows(s, p) ==> Knows(s', p)
  {
    hide LabelsMatch, OwnershipLabels, SoundSlot, Registered;
    assert forall slot :: s'.At(slot) == s.At(slot);
    if Knows(s, p) {
      KnowsStays(s, s', p);
    }
  }

  lemma StartKnows(digest: Digest, s: State, want: EnsureInput)
    ensures Knows(s, StartEnsure(want))
    ensures !Terminal(StartEnsure(want)) ==> OwnerOf(StartEnsure(want)) == Owner(want.namespace, want.name)
  {
    hide TrimSpace;
  }

  lemma StartDeleteKnows(digest: Digest, s: State, ns: string, n: string, issuer: string, roleRef: string,
                         policyRef: string)
    ensures Knows(s, StartDelete(digest, ns, n, issuer, roleRef, policyRef))
    ensures var p := StartDelete(digest, ns, n, issuer, roleRef, policyRef); !Terminal(p) ==> OwnerOf(p) == Owner(ns, n)
  {
    hide BuildSubject, ResourceKey;
  }

  lemma NextConsistent(digest: Digest, w: World, e: Event)
    requires Consistent(w)
    ensures Consistent(Next(digest, w, e))
  {
    hide LabelsMatch, OwnershipLabels, Sound, Knows, Step, StartEnsure, StartDelete, Terminal, OwnerOf;
    match e
    case BeginEnsure(want) => StartKnows(digest, w.state, want);
    case BeginDelete(ns, n, issuer, roleRef, policyRef) =>
      StartDeleteKnows(digest, w.state, ns, n, issuer, roleRef, policyRef);
    case OneCall(owner, o) =>
      if owner in w.attempts && !Terminal(w.attempts[owner]) {
        var p := w.attempts[owner];
        assert Knowing(w.state, owner, p);
        StepSafe(digest, p, w.state, o);
        StepKnows(digest, p, w.state, o);
        StepSameOwner(digest, p, w.state, o);
        StoppedIsTerminal(Step(digest, p, w.state, o).0);
        forall other | other in w.attempts && other != owner
          ensures Knowing(Step(digest, p, w.state, o).1, other, w.attempts[other])
        {
          CallKeepsOthers(digest, w, owner, o, other);
        }
      }
    case Abandon(_) =>
    case Reconfigure(_, _) =>
      var s' := Next(digest, w, e).state;
      ReconfigureKeeps(w.state, s', FindProvider(EnsureInput("", "", "", "", "", [], [], "", [], [])));
      forall o | o in w.attempts
        ensures Knowing(s', o, w.attempts[o])
      {
        assert Knowing(w.state, o, w.attempts[o]);
        ReconfigureKeeps(w.state, s', w.attempts[o]);
      }
  }

  lemma StoppedIsTerminal(p: Position)
    ensures p.Stopped? ==> Terminal(p)
  {}
}
