/** What every single call of the protocol keeps, under every outcome: identities stay distinct, an owner's
    calls touch only that owner's resources, nothing is created twice. */
module Safety {
  import opened Strings
  import opened Subject
  import opened Store
  import opened Protocol
  import opened Ownership

  datatype Owner = Owner(namespace: string, name: string)

  /** Distinct identities, all of them given out already. */
  ghost predicate Registered<T>(next: nat, xs: seq<Resource<T>>) {
    DistinctIds(xs) && forall x | x in xs :: Issued(next, x.id)
  }

  ghost predicate SoundSlot(next: nat, bs: seq<Binding>) {
    Registered(next, bs) && forall b | b in bs && b.info.account.Some? :: Issued(next, b.info.account.value)
  }

  /** What the service guarantees about identities. */
  ghost predicate Sound(s: State) {
    && Registered(s.next, s.accounts)
    && Registered(s.next, s.identities)
    && forall slot :: SoundSlot(s.next, s.At(slot))
  }

  /** The key, once known. */
  function KeyOf(p: Position): string {
    match p
    case FindAccount(j) => j.key
    case MakeAccount(j) => j.key
    case FindIdentity(j, _) => j.key
    case MakeIdentity(j, _) => j.key
    case FixIdentity(j, _, _) => j.key
    case LookUp(t, _) => t.job.key
    case Search(t, _) => t.job.key
    case CheckBinding(t, _) => t.job.key
    case MakeBinding(t, _) => t.job.key
    case Ensured(t) => t.job.key
    case FindProvider(_) => ""
    case Stopped(_) => ""
    case _ => p.goal.key
  }

  function OwnerOf(p: Position): Owner {
    match p
    case FindProvider(w) => Owner(w.namespace, w.name)
    case FindAccount(j) => Owner(j.want.namespace, j.want.name)
    case MakeAccount(j) => Owner(j.want.namespace, j.want.name)
    case FindIdentity(j, _) => Owner(j.want.namespace, j.want.name)
    case MakeIdentity(j, _) => Owner(j.want.namespace, j.want.name)
    case FixIdentity(j, _, _) => Owner(j.want.namespace, j.want.name)
    case LookUp(t, _) => Owner(t.job.want.namespace, t.job.want.name)
    case Search(t, _) => Owner(t.job.want.namespace, t.job.want.name)
    case CheckBinding(t, _) => Owner(t.job.want.namespace, t.job.want.name)
    case MakeBinding(t, _) => Owner(t.job.want.namespace, t.job.want.name)
    case Ensured(t) => Owner(t.job.want.namespace, t.job.want.name)
    case Stopped(_) => Owner("", "")
    case _ => Owner(p.goal.namespace, p.goal.name)
  }

  function LabelsOf(p: Position): Labels {
    OwnershipLabels(KeyOf(p), OwnerOf(p).namespace, OwnerOf(p).name)
  }

  /** The account whose bindings the next call may change. */
  function Actor(p: Position): Option<string> {
    match p
    case MakeBinding(t, _) => Some(t.account)
    case DropBinding(_, account, _, _) => Some(account)
    case _ => None
  }

  // ---- what an attempt knows about the store at each position

  ghost predicate KnowsTask(s: State, t: Task) {
    && Has(s.accounts, t.account, t.job.Labels())
    && Has(s.identities, t.identity, t.job.Labels())
    && forall slot | slot in t.bound :: GrantsOf(s.At(slot), Some(t.account)) != []
  }

  ghost predicate KnowsRest(s: State, slot: Slot, account: string, rest: seq<Binding>) {
    forall b | b in rest :: KnowsOne(s, slot, account, b)
  }

  ghost predicate KnowsOne(s: State, slot: Slot, account: string, b: Binding) {
    GrantsTo(b, account) && Managed(b.labels) && Issued(s.next, b.id)
    && forall x | x in s.At(slot) && x.id == b.id :: x == b
  }

  ghost predicate Knows(s: State, p: Position) {
    match p
    case MakeAccount(j) => Select(s.accounts, j.Labels()) == []
    case FindIdentity(j, account) => Has(s.accounts, account, j.Labels())
    case MakeIdentity(j, account) => Has(s.accounts, account, j.Labels()) && Select(s.identities, j.Labels()) == []
    case FixIdentity(j, account, identity) =>
      Has(s.accounts, account, j.Labels()) && Has(s.identities, identity, j.Labels())
    case LookUp(t, _) => KnowsTask(s, t)
    case Search(t, _) => KnowsTask(s, t)
    case CheckBinding(t, _) => KnowsTask(s, t)
    case MakeBinding(t, slot) => KnowsTask(s, t) && GrantsOf(s.At(slot), Some(t.account)) == []
    case Ensured(t) => KnowsTask(s, t)
    case DropIdentity(c, identity) => Has(s.identities, identity, c.Labels())
    case DropLookUp(c, account, _) => Has(s.accounts, account, c.Labels())
    case DropSearch(c, account, _) => Has(s.accounts, account, c.Labels())
    case DropListBindings(c, account, _) => Has(s.accounts, account, c.Labels())
    case DropBinding(c, account, slot, rest) =>
      rest != [] && Has(s.accounts, account, c.Labels()) && KnowsRest(s, slot, account, rest)
    case DropAccount(c, account) => Has(s.accounts, account, c.Labels())
    case _ => true
  }

  /** What a call leaves alone: everything not carrying the owner's labels, every other account's bindings,
      every binding the controller did not label, and the order of all these. */
  ghost predicate Isolated(s: State, s': State, own: Labels, actor: Option<string>) {
    && s'.providers == s.providers && s'.directory == s.directory && s.next <= s'.next
    && Others(s'.accounts, own) == Others(s.accounts, own)
    && Others(s'.identities, own) == Others(s.identities, own)
    && (forall slot, a: Option<string> | actor.None? || a != actor ::
         GrantsOf(s'.At(slot), a) == GrantsOf(s.At(slot), a))
    && (forall slot :: Unmanaged(s'.At(slot)) == Unmanaged(s.At(slot)))
    && (forall slot, b | b in s'.At(slot) :: b in s.At(slot) || !Issued(s.next, b.id))
    && (forall x | x in s'.accounts :: x in s.accounts || !Issued(s.next, x.id))
  }

  /** The store after a call that reached the service. */
  function After(s: State, p: Position): State
    requires !Terminal(p)
  {
    Serve(s, Request(p)).0
  }

  lemma StoreAfterStep(digest: Digest, p: Position, s: State, o: Outcome)
    requires !Terminal(p)
    ensures var (p', s') := Step(digest, p, s, o);
            (s' == s || s' == After(s, p)) && (!IsWrite(Request(p)) ==> s' == s && After(s, p) == s)
  {
    hide Find, Select, LabelsMatch, NeedsUpdate, TrimSpace, OwnershipLabels;
  }

  // ---- what the writes do to a store

  lemma RegisteredLater<T>(next: nat, xs: seq<Resource<T>>)
    requires Registered(next, xs)
    ensures Registered(next + 1, xs)
  {
    forall x | x in xs
      ensures Issued(next + 1, x.id)
    {
      IssuedLater(next, next + 1, x.id);
    }
  }

  lemma RegisteredSnoc<T>(next: nat, xs: seq<Resource<T>>, x: Resource<T>)
    requires Registered(next, xs) && x.id == FreshId(next)
    ensures Registered(next + 1, xs + [x])
  {
    hide FreshId;
    RegisteredLater(next, xs);
    FreshIsIssued(next);
    DistinctSnoc(xs, x);
  }

  lemma RegisteredWithout<T>(next: nat, xs: seq<Resource<T>>, id: string)
    requires Registered(next, xs)
    ensures Registered(next, Without(xs, id))
  {
    DistinctWithout(xs, id);
    forall x | x in Without(xs, id)
      ensures Issued(next, x.id)
    {
      WithoutMember(xs, id, x);
    }
  }

  lemma RegisteredReplace<T>(next: nat, xs: seq<Resource<T>>, y: Resource<T>)
    requires Registered(next, xs)
    ensures Registered(next, Replace(xs, y))
  {
    var r := Replace(xs, y);
    forall i | 0 <= i < |r|
      ensures Issued(next, r[i].id)
    {
      assert xs[i] in xs;
    }
  }

  lemma SlotLater(next: nat, bs: seq<Binding>)
    requires SoundSlot(next, bs)
    ensures SoundSlot(next + 1, bs)
  {
    RegisteredLater(next, bs);
    forall b | b in bs && b.info.account.Some?
      ensures Issued(next + 1, b.info.account.value)
    {
      IssuedLater(next, next + 1, b.info.account.value);
    }
  }

  lemma SoundLater(s: State, s': State)
    requires Sound(s) && s'.bindings == s.bindings && s'.next == s.next + 1
    ensures forall slot :: SoundSlot(s'.next, s'.At(slot))
    ensures Registered(s'.next, s.accounts) && Registered(s'.next, s.identities)
  {
    hide Registered, SoundSlot;
    RegisteredLater(s.next, s.accounts);
    RegisteredLater(s.next, s.identities);
    forall slot
      ensures SoundSlot(s'.next, s'.At(slot))
    {
      SlotLater(s.next, s.At(slot));
    }
  }

  lemma AddAccount(s: State, x: ServiceAccount, own: Labels)
    requires Sound(s) && x.id == FreshId(s.next) && LabelsMatch(x.labels, own)
    ensures var s' := s.(accounts := s.accounts + [x], next := s.next + 1);
            Sound(s') && Isolated(s, s', own, None)
  {
    hide Registered, SoundSlot, LabelsMatch, Managed, Issued, FreshId;
    var s' := s.(accounts := s.accounts + [x], next := s.next + 1);
    SoundLater(s, s');
    RegisteredSnoc(s.next, s.accounts, x);
    SelectSnoc(s.accounts, x, own);
    FreshIsIssued(s.next);
    assert forall slot :: s'.At(slot) == s.At(slot);
  }

  lemma AddIdentity(s: State, x: FederatedIdentity, own: Labels)
    requires Sound(s) && x.id == FreshId(s.next) && LabelsMatch(x.labels, own)
    ensures var s' := s.(identities := s.identities + [x], next := s.next + 1);
            Sound(s') && Isolated(s, s', own, None)
  {
    hide Registered, SoundSlot, LabelsMatch, Managed, Issued, FreshId;
    var s' := s.(identities := s.identities + [x], next := s.next + 1);
    SoundLater(s, s');
    RegisteredSnoc(s.next, s.identities, x);
    SelectSnoc(s.identities, x, own);
    assert forall slot :: s'.At(slot) == s.At(slot);
  }

  lemma OwnedById<T>(xs: seq<Resource<T>>, id: string, own: Labels)
    requires DistinctIds(xs) && Has(xs, id, own)
    ensures forall z | z in xs && z.id == id :: LabelsMatch(z.labels, own)
  {
    hide LabelsMatch;
    forall z | z in xs && z.id == id
      ensures LabelsMatch(z.labels, own)
    {
      var h :| h in xs && h.id == id && LabelsMatch(h.labels, own);
      SameIdSame(xs, z, h);
    }
  }

  lemma ChangeIdentity(s: State, y: FederatedIdentity, own: Labels)
    requires Sound(s) && Has(s.identities, y.id, own) && LabelsMatch(y.labels, own)
    ensures var s' := s.(identities := Replace(s.identities, y));
            Sound(s') && Isolated(s, s', own, None)
  {
    hide SoundSlot, LabelsMatch, Managed, Issued, FreshId;
    var s' := s.(identities := Replace(s.identities, y));
    RegisteredReplace(s.next, s.identities, y);
    OwnedById(s.identities, y.id, own);
    SelectReplace(s.identities, y, own);
    assert forall slot :: s'.At(slot) == s.At(slot);
  }

  lemma RemoveIdentity(s: State, id: string, own: Labels)
    requires Sound(s) && Has(s.identities, id, own)
    ensures var s' := s.(identities := Without(s.identities, id));
            Sound(s') && Isolated(s, s', own, None)
  {
    hide SoundSlot, LabelsMatch, Managed, Issued, FreshId;
    var s' := s.(identities := Without(s.identities, id));
    RegisteredWithout(s.next, s.identities, id);
    OwnedById(s.identities, id, own);
    SelectWithout(s.identities, id, own);
    assert forall slot :: s'.At(slot) == s.At(slot);
  }

  lemma RemoveAccount(s: State, id: string, own: Labels)
    requires Sound(s) && Has(s.accounts, id, own)
    ensures var s' := s.(accounts := Without(s.accounts, id));
            Sound(s') && Isolated(s, s', own, None)
  {
    hide SoundSlot, LabelsMatch, Managed, Issued, FreshId;
    var s' := s.(accounts := Without(s.accounts, id));
    RegisteredWithout(s.next, s.accounts, id);
    OwnedById(s.accounts, id, own);
    SelectWithout(s.accounts, id, own);
    forall x | x in s'.accounts
      ensures x in s.accounts
    {
      WithoutMember(s.accounts, id, x);
    }
    assert forall slot :: s'.At(slot) == s.At(slot);
  }

  lemma AddBinding(s: State, slot: Slot, b: Binding, own: Labels)
    requires Sound(s) && b.id == FreshId(s.next) && Managed(b.labels)
    requires b.info.account.Some? && Issued(s.next, b.info.account.value)
    ensures var s' := s.(bindings := s.bindings[slot := s.At(slot) + [b]], next := s.next + 1);
            Sound(s') && Isolated(s, s', own, b.info.account)
  {
    hide LabelsMatch, Managed, Issued, FreshId;
    var had := s.At(slot);
    var s' := s.(bindings := s.bindings[slot := had + [b]], next := s.next + 1);
    SoundLater(s, s.(next := s.next + 1));
    IssuedLater(s.next, s'.next, b.info.account.value);
    RegisteredSnoc(s.next, had, b) by { assert SoundSlot(s.next, had); }
    assert forall c | c in had && c.info.account.Some? :: Issued(s'.next, c.info.account.value) by {
      SlotLater(s.next, had);
    }
    FreshIsIssued(s.next);
    forall other
      ensures SoundSlot(s'.next, s'.At(other))
      ensures Unmanaged(s'.At(other)) == Unmanaged(s.At(other))
      ensures forall x | x in s'.At(other) :: x in s.At(other) || !Issued(s.next, x.id)
    {
      if other == slot {
        GrantsSnoc(had, b, None);
      } else {
        assert s'.At(other) == s.(next := s.next + 1).At(other) == s.At(other);
      }
    }
    forall other, a: Option<string> | a != b.info.account
      ensures GrantsOf(s'.At(other), a) == GrantsOf(s.At(other), a)
    {
      GrantsSnoc(had, b, a);
    }
  }

  lemma SlotWithout(next: nat, had: seq<Binding>, b: Binding, a: Option<string>)
    requires SoundSlot(next, had) && Managed(b.labels) && forall x | x in had && x.id == b.id :: x == b
    ensures SoundSlot(next, Without(had, b.id)) && Unmanaged(Without(had, b.id)) == Unmanaged(had)
    ensures a != b.info.account ==> GrantsOf(Without(had, b.id), a) == GrantsOf(had, a)
  {
    hide LabelsMatch, Managed, Issued, FreshId;
    RegisteredWithout(next, had, b.id);
    WithoutFacts(had, b.id);
    GrantsWithout(had, b.id, a);
  }

  lemma RemoveBinding(s: State, slot: Slot, b: Binding, own: Labels)
    requires Sound(s) && Managed(b.labels) && b.info.account.Some?
    requires forall x | x in s.At(slot) && x.id == b.id :: x == b
    ensures var s' := s.(bindings := s.bindings[slot := Without(s.At(slot), b.id)]);
            Sound(s') && Isolated(s, s', own, b.info.account)
  {
    hide LabelsMatch, Managed, Issued, FreshId, SoundSlot, Registered;
    var s' := s.(bindings := s.bindings[slot := Without(s.At(slot), b.id)]);
    forall other
      ensures SoundSlot(s'.next, s'.At(other))
      ensures Unmanaged(s'.At(other)) == Unmanaged(s.At(other))
    {
      assert SoundSlot(s.next, s.At(other));
      if other == slot {
        SlotWithout(s.next, s.At(slot), b, None);
      }
    }
    forall other, x | x in s'.At(other)
      ensures x in s.At(other)
    {
      WithoutMember(s.At(slot), b.id, x);
    }
    forall other, a: Option<string> | a != b.info.account
      ensures GrantsOf(s'.At(other), a) == GrantsOf(s.At(other), a)
    {
      if other == slot {
        SlotWithout(s.next, s.At(slot), b, a);
      }
    }
  }
}
