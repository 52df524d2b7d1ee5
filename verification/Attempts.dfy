/** Every step of an attempt is safe, under every outcome. */
module Attempts {
  import opened Strings
  import opened Subject
  import opened Store
  import opened Protocol
  import opened Ownership
  import opened Safety
  import Allowlist

  lemma IsolatedReflexive(s: State, own: Labels, actor: Option<string>)
    ensures Isolated(s, s, own, actor)
  {}

  lemma HasIssued<T>(next: nat, xs: seq<Resource<T>>, id: string, own: Labels)
    requires Registered(next, xs) && Has(xs, id, own)
    ensures Issued(next, id)
  {
    var h :| h in xs && h.id == id && LabelsMatch(h.labels, own);
  }

  lemma CreationSafe(s: State, p: Position)
    requires (p.MakeAccount? || p.MakeIdentity?) && Sound(s)
    ensures Sound(After(s, p)) && Isolated(s, After(s, p), LabelsOf(p), None)
  {
    hide LabelsMatch, OwnershipLabels, FreshId, Isolated, Sound, ServiceAccountName, FederatedIdentityName,
      Description;
    var own := LabelsOf(p);
    OwnershipMatch(own, KeyOf(p), OwnerOf(p).namespace, OwnerOf(p).name);
    if p.MakeAccount? {
      AddAccount(s, After(s, p).accounts[|s.accounts|], own);
    } else {
      AddIdentity(s, After(s, p).identities[|s.identities|], own);
    }
  }

  lemma FixSafe(s: State, p: Position)
    requires p.FixIdentity? && Sound(s) && Has(s.identities, p.identity, LabelsOf(p))
    ensures Sound(After(s, p)) && Isolated(s, After(s, p), LabelsOf(p), None)
  {
    hide LabelsMatch, OwnershipLabels, Isolated, Sound, FederatedIdentityName, Description, Has, Lookup, Replace;
    var own := LabelsOf(p);
    OwnershipMatch(own, KeyOf(p), OwnerOf(p).namespace, OwnerOf(p).name);
    LookupOwned(s.identities, p.identity, own);
    ChangeIdentity(s, Updated(Lookup(s.identities, p.identity).value, Request(p)), own);
  }

  lemma BindSafe(s: State, p: Position)
    requires p.MakeBinding? && Sound(s) && Has(s.accounts, p.task.account, LabelsOf(p))
    ensures Sound(After(s, p)) && Isolated(s, After(s, p), LabelsOf(p), Actor(p))
  {
    hide LabelsMatch, OwnershipLabels, Managed, FreshId, Isolated, Sound, BindingName, Has, Issued;
    var own := LabelsOf(p);
    OwnershipMatch(own, KeyOf(p), OwnerOf(p).namespace, OwnerOf(p).name);
    AccountIssued(s, p.task.account, own);
    AddBinding(s, p.slot, After(s, p).At(p.slot)[|s.At(p.slot)|], own);
  }

  lemma RemovalSafe(s: State, p: Position)
    requires (p.DropIdentity? || p.DropBinding? || p.DropAccount?) && Sound(s) && Knows(s, p)
    ensures Sound(After(s, p)) && Isolated(s, After(s, p), LabelsOf(p), Actor(p))
  {
    hide LabelsMatch, OwnershipLabels, Managed, Isolated, Sound, Issued, KnowsRest, Has, Without;
    match p
    case DropIdentity(_, id) => RemoveIdentity(s, id, LabelsOf(p));
    case DropBinding(_, account, slot, rest) =>
      FirstOfRest(s, slot, account, rest);
      RemoveBinding(s, slot, rest[0], LabelsOf(p));
    case DropAccount(_, account) => RemoveAccount(s, account, LabelsOf(p));
  }

  /** A write that reaches the service keeps identities distinct and stays within the owner's resources. */
  lemma WriteSafe(s: State, p: Position)
    requires !Terminal(p) && IsWrite(Request(p)) && Sound(s) && Knows(s, p)
    ensures Sound(After(s, p)) && Isolated(s, After(s, p), LabelsOf(p), Actor(p))
  {
    hide OwnershipLabels, Managed, TrimSpace, Isolated, Sound, After, KnowsRest, Has, Select, GrantsOf,
      ServiceAccountName, FederatedIdentityName, BindingName, Description;
    match p
    case MakeAccount(_) => CreationSafe(s, p);
    case MakeIdentity(_, _) => CreationSafe(s, p);
    case FixIdentity(_, _, _) => FixSafe(s, p);
    case MakeBinding(_, _) => BindSafe(s, p);
    case DropIdentity(_, _) => RemovalSafe(s, p);
    case DropBinding(_, _, _, _) => RemovalSafe(s, p);
    case DropAccount(_, _) => RemovalSafe(s, p);
  }

  lemma LookupOwned<T>(xs: seq<Resource<T>>, id: string, own: Labels)
    requires Has(xs, id, own)
    ensures Lookup(xs, id).Some? && Lookup(xs, id).value.id == id && Lookup(xs, id).value in xs
  {
    LookupFacts(xs, id);
  }

  lemma AccountIssued(s: State, account: string, own: Labels)
    requires Sound(s) && Has(s.accounts, account, own)
    ensures Issued(s.next, account)
  {
    HasIssued(s.next, s.accounts, account, own);
  }

  lemma FirstOfRest(s: State, slot: Slot, account: string, rest: seq<Binding>)
    requires rest != [] && KnowsRest(s, slot, account, rest)
    ensures KnowsOne(s, slot, account, rest[0]) && KnowsRest(s, slot, account, rest[1..])
  {
    assert rest == [rest[0]] + rest[1..];
  }

  /** One call: the store stays sound and only the owner's resources change. */
  lemma StepSafe(digest: Digest, p: Position, s: State, o: Outcome)
    requires !Terminal(p) && Sound(s) && Knows(s, p)
    ensures var s' := Step(digest, p, s, o).1;
            Sound(s') && Isolated(s, s', LabelsOf(p), Actor(p))
  {
    hide LabelsMatch, OwnershipLabels, Managed, TrimSpace, Sound, Isolated, Knows, Request, Advance, Perform;
    StoreAfterStep(digest, p, s, o);
    IsolatedReflexive(s, LabelsOf(p), Actor(p));
    if IsWrite(Request(p)) {
      WriteSafe(s, p);
    }
  }

  // ---- knowledge carried to the next position

  predicate Live(p: Position) {
    !p.FindProvider? && !p.Stopped?
  }

  predicate SameOwner(p: Position, p': Position) {
    && (!p'.Stopped? ==> OwnerOf(p') == OwnerOf(p))
    && (Live(p) && !p'.Stopped? ==> Live(p') && KeyOf(p') == KeyOf(p))
  }

  lemma StartingSameOwner(digest: Digest, p: Position, r: Response)
    requires Starting(p)
    ensures SameOwner(p, Advance(digest, p, r))
  {
    hide LabelsMatch, OwnershipLabels, TrimSpace, Find;
  }

  lemma DroppingSameOwner(digest: Digest, p: Position, r: Response)
    requires !Terminal(p) && Deleting(p) && !Starting(p)
    ensures SameOwner(p, Advance(digest, p, r))
  {
    hide LabelsMatch, OwnershipLabels, TrimSpace, Pick, Protocol.Removable;
  }

  lemma ReferringSameOwner(digest: Digest, p: Position, r: Response)
    requires Referring(p)
    ensures SameOwner(p, Advance(digest, p, r))
  {
    hide LabelsMatch, OwnershipLabels, TrimSpace, Pick, AnyGrantsTo, Allowlist.Permitted;
  }

  lemma FoundingSameOwner(digest: Digest, p: Position, r: Response)
    requires !Terminal(p) && !Deleting(p) && !Referring(p)
    ensures SameOwner(p, Advance(digest, p, r))
  {
    hide LabelsMatch, OwnershipLabels, TrimSpace, Find, NeedsUpdate, SelectProvider, BuildSubject, ResourceKey,
      NormalizeIssuer;
  }

  /** The owner and the key do not change on the way. */
  lemma StepSameOwner(digest: Digest, p: Position, s: State, o: Outcome)
    requires !Terminal(p)
    ensures SameOwner(p, Step(digest, p, s, o).0)
  {
    hide Advance, Perform, Request, SameOwner;
    var r := Perform(s, Request(p), o).1;
    if Starting(p) {
      StartingSameOwner(digest, p, r);
    } else if Deleting(p) {
      DroppingSameOwner(digest, p, r);
    } else if Referring(p) {
      ReferringSameOwner(digest, p, r);
    } else {
      FoundingSameOwner(digest, p, r);
    }
  }

  lemma FoundIsHeld<T>(xs: seq<Resource<T>>, own: Labels)
    ensures Find(xs, own).Some? ==> Has(xs, Find(xs, own).value.id, own)
    ensures Find(xs, own).None? ==> Select(xs, own) == []
  {
    hide LabelsMatch;
    SelectFacts(xs, own);
    FindFacts(xs, own);
  }

  lemma NoGrant(bs: seq<Binding>, account: string)
    ensures AnyGrantsTo(bs, account) <==> GrantsOf(bs, Some(account)) != []
  {
    GrantsFacts(bs, Some(account));
    if AnyGrantsTo(bs, account) {
      var b :| b in bs && GrantsTo(b, account);
      assert b in GrantsOf(bs, Some(account));
    }
    if GrantsOf(bs, Some(account)) != [] {
      assert GrantsTo(GrantsOf(bs, Some(account))[0], account);
    }
  }

  lemma RemovableKnown(s: State, slot: Slot, account: string)
    requires Sound(s)
    ensures KnowsRest(s, slot, account, Removable(s.At(slot), account))
  {
    hide Managed, Issued;
    var bs := s.At(slot);
    assert SoundSlot(s.next, bs);
    RemovableFacts(bs, account);
    forall b | b in Removable(bs, account)
      ensures KnowsOne(s, slot, account, b)
    {
      forall x | x in bs && x.id == b.id
        ensures x == b
      {
        SameIdSame(bs, x, b);
      }
    }
  }

  lemma HasLast<T>(xs: seq<Resource<T>>, x: Resource<T>, own: Labels)
    requires LabelsMatch(x.labels, own)
    ensures Has(xs + [x], x.id, own)
  {
    assert x in xs + [x];
  }

  lemma HasMore<T>(xs: seq<Resource<T>>, x: Resource<T>, id: string, own: Labels)
    requires Has(xs, id, own)
    ensures Has(xs + [x], id, own)
  {
    hide LabelsMatch;
    var h :| h in xs && h.id == id && LabelsMatch(h.labels, own);
    assert h in xs + [x];
  }

  lemma HasReplaced<T>(xs: seq<Resource<T>>, y: Resource<T>, own: Labels)
    requires Has(xs, y.id, own) && LabelsMatch(y.labels, own)
    ensures Has(Replace(xs, y), y.id, own)
  {
    hide LabelsMatch;
    var h :| h in xs && h.id == y.id && LabelsMatch(h.labels, own);
    var i :| 0 <= i < |xs| && xs[i] == h;
    assert Replace(xs, y)[i] == y;
  }

  lemma KnowsAfterTarget(s: State, t: Task, kind: Kind, target: Target)
    requires KnowsTask(s, t)
    ensures Knows(s, WithTarget(t, kind, target))
  {
    hide KnowsTask, Has, Allowlist.Permitted, TrimSpace;
  }

  lemma KnowsAfterBinding(s: State, t: Task, slot: Slot)
    requires KnowsTask(s, t) && GrantsOf(s.At(slot), Some(t.account)) != []
    ensures Knows(s, WithBinding(t, slot))
  {
    hide TrimSpace, LabelsMatch;
    assert KnowsTask(s, t.(bound := t.bound + [slot]));
  }

  lemma KnowsAfterIdentity(s: State, j: Job, account: string, identity: string)
    requires Has(s.accounts, account, j.Labels()) && Has(s.identities, identity, j.Labels())
    ensures Knows(s, FromPolicy(Task(j, account, identity, [])))
  {
    hide TrimSpace, LabelsMatch, Has;
  }

  lemma KnowsAfterReadEnsure(digest: Digest, p: Position, s: State, o: Outcome)
    requires !Terminal(p) && !IsWrite(Request(p)) && Sound(s) && Knows(s, p)
    requires p.FindProvider? || p.FindAccount? || p.FindIdentity? || p.LookUp? || p.Search? || p.CheckBinding?
    ensures Knows(s, Step(digest, p, s, o).0)
  {
    hide LabelsMatch, OwnershipLabels, Managed, TrimSpace, Find, Select, GrantsOf, Has, Pick, Issued, NeedsUpdate,
      AnyGrantsTo, Sound, Removable, SelectProvider, BuildSubject, KnowsTask, FromPolicy, WithTarget, WithBinding;
    match p
    case FindProvider(_) =>
    case FindAccount(j) => FoundIsHeld(s.accounts, j.Labels());
    case FindIdentity(j, account) =>
      FoundIsHeld(s.identities, j.Labels());
      var r := Find(s.identities, j.Labels());
      if r.Some? { KnowsAfterIdentity(s, j, account, r.value.id); }
    case LookUp(t, kind) =>
      var r := Serve(s, Request(p)).1;
      if r.OneTarget? { KnowsAfterTarget(s, t, kind, r.target); }
    case Search(t, kind) =>
      var r := Pick(kind, s.directory.Listed(kind), t.job.want.Ref(kind));
      if r.Some? { KnowsAfterTarget(s, t, kind, r.value); }
    case CheckBinding(t, slot) =>
      NoGrant(s.At(slot), t.account);
      if AnyGrantsTo(s.At(slot), t.account) { KnowsAfterBinding(s, t, slot); }
  }

  lemma KnowsAfterReadDelete(digest: Digest, p: Position, s: State, o: Outcome)
    requires !Terminal(p) && !IsWrite(Request(p)) && Sound(s) && Knows(s, p)
    requires p.DropFindIdentity? || p.DropFindAccount? || p.DropLookUp? || p.DropSearch? || p.DropListBindings?
    ensures Knows(s, Step(digest, p, s, o).0)
  {
    hide LabelsMatch, OwnershipLabels, Managed, TrimSpace, Find, Select, GrantsOf, Has, Pick, Issued, Sound,
      Removable, KnowsRest;
    match p
    case DropFindIdentity(c) => FoundIsHeld(s.identities, c.Labels());
    case DropFindAccount(c) => FoundIsHeld(s.accounts, c.Labels());
    case DropLookUp(_, _, _) =>
    case DropSearch(_, _, _) =>
    case DropListBindings(c, account, slot) => RemovableKnown(s, slot, account);
  }

  lemma KnowsMadeAccount(digest: Digest, p: Position, s: State)
    requires p.MakeAccount?
    ensures var (p', s') := Step(digest, p, s, Ok); Knows(s', p')
  {
    hide LabelsMatch, OwnershipLabels, FreshId, ServiceAccountName, Has;
    OwnershipMatch(LabelsOf(p), KeyOf(p), OwnerOf(p).namespace, OwnerOf(p).name);
    HasLast(s.accounts, After(s, p).accounts[|s.accounts|], LabelsOf(p));
  }

  lemma KnowsMadeIdentity(digest: Digest, p: Position, s: State)
    requires p.MakeIdentity? && Knows(s, p)
    ensures var (p', s') := Step(digest, p, s, Ok); Knows(s', p')
  {
    hide LabelsMatch, OwnershipLabels, FreshId, FederatedIdentityName, Description, Has, Select, FromPolicy;
    OwnershipMatch(LabelsOf(p), KeyOf(p), OwnerOf(p).namespace, OwnerOf(p).name);
    var x := After(s, p).identities[|s.identities|];
    HasLast(s.identities, x, LabelsOf(p));
    KnowsAfterIdentity(After(s, p), p.job, p.account, x.id);
  }

  lemma FixedIdentityStep(digest: Digest, p: Position, s: State)
    requires p.FixIdentity? && Lookup(s.identities, p.identity).Some?
    requires Lookup(s.identities, p.identity).value.id == p.identity
    ensures var y := Updated(Lookup(s.identities, p.identity).value, Request(p));
            var (p', s') := Step(digest, p, s, Ok);
            && y.id == p.identity && y.labels == p.job.Labels()
            && p' == FromPolicy(Task(p.job, p.account, p.identity, []))
            && s' == s.(identities := Replace(s.identities, y))
  {
    hide OwnershipLabels, FederatedIdentityName, Description, FromPolicy, Replace, Lookup;
  }

  lemma KnowsFixedIdentity(digest: Digest, p: Position, s: State)
    requires p.FixIdentity? && Knows(s, p)
    ensures var (p', s') := Step(digest, p, s, Ok); Knows(s', p')
  {
    hide LabelsMatch, OwnershipLabels, Has, FromPolicy, Step, Lookup, Replace, Updated, Description;
    LookupOwned(s.identities, p.identity, p.job.Labels());
    FixedIdentityStep(digest, p, s);
    var y := Updated(Lookup(s.identities, p.identity).value, Request(p));
    OwnershipMatch(y.labels, p.job.key, p.job.want.namespace, p.job.want.name);
    HasReplaced(s.identities, y, p.job.Labels());
    KnowsAfterIdentity(s.(identities := Replace(s.identities, y)), p.job, p.account, p.identity);
  }

  lemma KnowsMadeBinding(digest: Digest, p: Position, s: State)
    requires p.MakeBinding? && Knows(s, p)
    ensures var (p', s') := Step(digest, p, s, Ok); Knows(s', p')
  {
    hide LabelsMatch, OwnershipLabels, FreshId, BindingName, Has, GrantsOf, KnowsTask, WithBinding;
    KnowsBound(s, After(s, p), p.task, p.slot, After(s, p).At(p.slot)[|s.At(p.slot)|]);
  }

  lemma KnowsDroppedBinding(digest: Digest, p: Position, s: State)
    requires p.DropBinding? && Knows(s, p)
    ensures var (p', s') := Step(digest, p, s, Ok); Knows(s', p')
  {
    hide LabelsMatch, OwnershipLabels, Has, KnowsRest, Without, DropFromRole;
    FirstOfRest(s, p.slot, p.account, p.rest);
    KnowsRestAfter(s, p.slot, p.account, p.rest[0], p.rest[1..]);
    KnowsAfterDrop(After(s, p), p.goal, p.account, p.slot.kind);
  }

  lemma KnowsAfterDrop(s: State, c: Cleanup, account: string, kind: Kind)
    requires Has(s.accounts, account, c.Labels())
    ensures Knows(s, DropAfter(c, account, kind))
  {
    hide LabelsMatch, TrimSpace, Has;
  }

  lemma KnowsAfterWrite(digest: Digest, p: Position, s: State, o: Outcome)
    requires !Terminal(p) && IsWrite(Request(p)) && Sound(s) && Knows(s, p)
    ensures var (p', s') := Step(digest, p, s, o); Knows(s', p')
  {
    hide LabelsMatch, OwnershipLabels, TrimSpace, Sound, Serve, FromPolicy, WithBinding, DropRest, KnowsTask,
      KnowsRest, Has, Select, GrantsOf, ServiceAccountName, FederatedIdentityName, BindingName, Description;
    if o == Ok {
      match p
      case MakeAccount(_) => KnowsMadeAccount(digest, p, s);
      case MakeIdentity(_, _) => KnowsMadeIdentity(digest, p, s);
      case FixIdentity(_, _, _) => KnowsFixedIdentity(digest, p, s);
      case MakeBinding(_, _) => KnowsMadeBinding(digest, p, s);
      case DropBinding(_, _, _, _) => KnowsDroppedBinding(digest, p, s);
      case DropIdentity(_, _) =>
      case DropAccount(_, _) =>
    }
  }

  lemma KnowsBound(s: State, s': State, t: Task, slot: Slot, b: Binding)
    requires KnowsTask(s, t) && GrantsTo(b, t.account)
    requires s' == s.(bindings := s.bindings[slot := s.At(slot) + [b]], next := s.next + 1)
    ensures Knows(s', WithBinding(t, slot))
  {
    hide LabelsMatch, TrimSpace, WithBinding;
    GrantsSnoc(s.At(slot), b, Some(t.account));
    forall other | other in t.bound
      ensures GrantsOf(s'.At(other), Some(t.account)) != []
    {
      if other != slot {
        assert s'.At(other) == s.At(other);
      }
    }
    KnowsAfterBinding(s', t, slot);
  }

  lemma KnowsRestAfter(s: State, slot: Slot, account: string, b: Binding, rest: seq<Binding>)
    requires KnowsRest(s, slot, account, rest)
    ensures KnowsRest(s.(bindings := s.bindings[slot := Without(s.At(slot), b.id)]), slot, account, rest)
  {
    hide Managed, Issued;
    var s' := s.(bindings := s.bindings[slot := Without(s.At(slot), b.id)]);
    WithoutFacts(s.At(slot), b.id);
    forall c | c in rest
      ensures KnowsOne(s', slot, account, c)
    {
      assert KnowsOne(s, slot, account, c);
    }
  }

  lemma StepKnows(digest: Digest, p: Position, s: State, o: Outcome)
    requires !Terminal(p) && Sound(s) && Knows(s, p)
    ensures var (p', s') := Step(digest, p, s, o); Knows(s', p')
  {
    hide LabelsMatch, OwnershipLabels, TrimSpace, Sound, Knows, Advance, Perform;
    if IsWrite(Request(p)) {
      KnowsAfterWrite(digest, p, s, o);
    } else {
      StoreAfterStep(digest, p, s, o);
      if p.FindProvider? || p.FindAccount? || p.FindIdentity? || p.LookUp? || p.Search? || p.CheckBinding? {
        KnowsAfterReadEnsure(digest, p, s, o);
      } else {
        KnowsAfterReadDelete(digest, p, s, o);
      }
    }
  }
}
