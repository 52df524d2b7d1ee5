/** The guarantees of the protocol over all interleaved, faulty runs. */
module Guarantees {
  import opened Strings
  import opened Subject
  import opened Store
  import opened Protocol
  import opened Ownership
  import opened Safety
  import opened Attempts
  import opened World
  import Allowlist

  function AtMostOneMore(n: nat): nat {
    if n == 0 then 1 else n
  }

  /** No owner's resources and no account's bindings in a slot grow past one. */
  ghost predicate NoDuplicates(s: State, s': State) {
    && (forall k, ns, n ::
         |Select(s'.accounts, OwnershipLabels(k, ns, n))|
           <= AtMostOneMore(|Select(s.accounts, OwnershipLabels(k, ns, n))|))
    && (forall k, ns, n ::
         |Select(s'.identities, OwnershipLabels(k, ns, n))|
           <= AtMostOneMore(|Select(s.identities, OwnershipLabels(k, ns, n))|))
    && (forall slot, a :: |GrantsOf(s'.At(slot), Some(a))| <= AtMostOneMore(|GrantsOf(s.At(slot), Some(a))|))
  }

  lemma NoDuplicatesTransitive(s0: State, s1: State, s2: State)
    requires NoDuplicates(s0, s1) && NoDuplicates(s1, s2)
    ensures NoDuplicates(s0, s2)
  {
    hide Select, GrantsOf, OwnershipLabels;
    forall k, ns, n
      ensures |Select(s2.accounts, OwnershipLabels(k, ns, n))|
                <= AtMostOneMore(|Select(s0.accounts, OwnershipLabels(k, ns, n))|)
      ensures |Select(s2.identities, OwnershipLabels(k, ns, n))|
                <= AtMostOneMore(|Select(s0.identities, OwnershipLabels(k, ns, n))|)
    {
      assert |Select(s1.accounts, OwnershipLabels(k, ns, n))|
               <= AtMostOneMore(|Select(s0.accounts, OwnershipLabels(k, ns, n))|);
      assert |Select(s1.identities, OwnershipLabels(k, ns, n))|
               <= AtMostOneMore(|Select(s0.identities, OwnershipLabels(k, ns, n))|);
    }
    forall slot, a
      ensures |GrantsOf(s2.At(slot), Some(a))| <= AtMostOneMore(|GrantsOf(s0.At(slot), Some(a))|)
    {
      assert |GrantsOf(s1.At(slot), Some(a))| <= AtMostOneMore(|GrantsOf(s0.At(slot), Some(a))|);
    }
  }

  lemma OwnAfterFix(s: State, p: Position)
    requires p.FixIdentity? && DistinctIds(s.identities) && Has(s.identities, p.identity, LabelsOf(p))
    ensures |Select(After(s, p).identities, LabelsOf(p))| == |Select(s.identities, LabelsOf(p))|
    ensures After(s, p).accounts == s.accounts
  {
    hide LabelsMatch, OwnershipLabels, FederatedIdentityName, Description, Has, Lookup, Select, DistinctIds, Replace;
    var own := LabelsOf(p);
    OwnershipMatch(own, KeyOf(p), OwnerOf(p).namespace, OwnerOf(p).name);
    LookupOwned(s.identities, p.identity, own);
    OwnedById(s.identities, p.identity, own);
    SelectReplace(s.identities, Updated(Lookup(s.identities, p.identity).value, Request(p)), own);
  }

  lemma OwnAfterCreation(s: State, p: Position)
    requires (p.MakeAccount? || p.MakeIdentity? || p.MakeBinding?) && Knows(s, p)
    ensures |Select(After(s, p).accounts, LabelsOf(p))| <= AtMostOneMore(|Select(s.accounts, LabelsOf(p))|)
    ensures |Select(After(s, p).identities, LabelsOf(p))| <= AtMostOneMore(|Select(s.identities, LabelsOf(p))|)
  {
    hide LabelsMatch, OwnershipLabels, FreshId, ServiceAccountName, FederatedIdentityName, BindingName, Description,
      KnowsTask, Has, Select;
    match p
    case MakeAccount(_) => SelectSnoc(s.accounts, After(s, p).accounts[|s.accounts|], LabelsOf(p));
    case MakeIdentity(_, _) => SelectSnoc(s.identities, After(s, p).identities[|s.identities|], LabelsOf(p));
    case MakeBinding(_, _) =>
  }

  lemma OwnAfterRemoval(s: State, p: Position)
    requires p.DropIdentity? || p.DropBinding? || p.DropAccount?
    ensures |Select(After(s, p).accounts, LabelsOf(p))| <= |Select(s.accounts, LabelsOf(p))|
    ensures |Select(After(s, p).identities, LabelsOf(p))| <= |Select(s.identities, LabelsOf(p))|
  {
    hide LabelsMatch, OwnershipLabels, Select, Without;
    var own := LabelsOf(p);
    match p
    case DropIdentity(_, id) =>
      SelectWithout(s.identities, id, own);
      SelectWithout(Select(s.identities, own), id, own);
    case DropBinding(_, _, _, _) =>
    case DropAccount(_, account) =>
      SelectWithout(s.accounts, account, own);
      SelectWithout(Select(s.accounts, own), account, own);
  }

  /** What the owner's own selection becomes under each write. */
  lemma OwnAfterWrite(s: State, p: Position)
    requires !Terminal(p) && IsWrite(Request(p)) && Sound(s) && Knows(s, p)
    ensures |Select(After(s, p).accounts, LabelsOf(p))| <= AtMostOneMore(|Select(s.accounts, LabelsOf(p))|)
    ensures |Select(After(s, p).identities, LabelsOf(p))| <= AtMostOneMore(|Select(s.identities, LabelsOf(p))|)
  {
    hide LabelsMatch, OwnershipLabels, Managed, TrimSpace, Sound, ServiceAccountName, FederatedIdentityName,
      BindingName, Description, KnowsRest, KnowsTask, Has, Select, After;
    match p
    case MakeAccount(_) => OwnAfterCreation(s, p);
    case MakeIdentity(_, _) => OwnAfterCreation(s, p);
    case FixIdentity(_, _, _) =>
      SoundIdentities(s);
      OwnAfterFix(s, p);
    case MakeBinding(_, _) => OwnAfterCreation(s, p);
    case DropIdentity(_, _) => OwnAfterRemoval(s, p);
    case DropBinding(_, _, _, _) => OwnAfterRemoval(s, p);
    case DropAccount(_, _) => OwnAfterRemoval(s, p);
  }

  lemma SoundIdentities(s: State)
    requires Sound(s)
    ensures DistinctIds(s.identities) && DistinctIds(s.accounts)
  {}

  lemma GrantsAfterBinding(s: State, p: Position, slot: Slot, a: string)
    requires (p.MakeBinding? || p.DropBinding?) && Knows(s, p)
    ensures |GrantsOf(After(s, p).At(slot), Some(a))| <= AtMostOneMore(|GrantsOf(s.At(slot), Some(a))|)
  {
    hide LabelsMatch, OwnershipLabels, Managed, FreshId, BindingName, KnowsRest, KnowsTask, Has, GrantsOf, Without;
    if p.MakeBinding? {
      GrantsSnoc(s.At(p.slot), After(s, p).At(p.slot)[|s.At(p.slot)|], Some(a));
    } else {
      GrantsWithout(s.At(p.slot), p.rest[0].id, Some(a));
    }
  }

  lemma GrantsAfterWrite(s: State, p: Position, slot: Slot, a: string)
    requires !Terminal(p) && IsWrite(Request(p)) && Knows(s, p)
    ensures |GrantsOf(After(s, p).At(slot), Some(a))| <= AtMostOneMore(|GrantsOf(s.At(slot), Some(a))|)
  {
    hide LabelsMatch, OwnershipLabels, TrimSpace, FreshId, ServiceAccountName, FederatedIdentityName, BindingName,
      Description, Knows, Lookup, Replace, GrantsOf, Without;
    if p.MakeBinding? || p.DropBinding? {
      GrantsAfterBinding(s, p, slot, a);
    } else {
      assert After(s, p).At(slot) == s.At(slot);
    }
  }

  lemma StepNoDuplicates(digest: Digest, p: Position, s: State, o: Outcome)
    requires !Terminal(p) && Sound(s) && Knows(s, p)
    ensures NoDuplicates(s, Step(digest, p, s, o).1)
  {
    hide LabelsMatch, OwnershipLabels, Sound, Knows, Request, Advance, Perform, Select, GrantsOf, Step, Terminal;
    StoreAfterStep(digest, p, s, o);
    var s' := Step(digest, p, s, o).1;
    if IsWrite(Request(p)) && s' != s {
      StepSafe(digest, p, s, o);
      OwnAfterWrite(s, p);
      forall k, ns, n
        ensures |Select(s'.accounts, OwnershipLabels(k, ns, n))|
                  <= AtMostOneMore(|Select(s.accounts, OwnershipLabels(k, ns, n))|)
        ensures |Select(s'.identities, OwnershipLabels(k, ns, n))|
                  <= AtMostOneMore(|Select(s.identities, OwnershipLabels(k, ns, n))|)
      {
        if k != KeyOf(p) || Owner(ns, n) != OwnerOf(p) {
          SelectStays(s.accounts, s'.accounts, KeyOf(p), OwnerOf(p), k, Owner(ns, n));
          SelectStays(s.identities, s'.identities, KeyOf(p), OwnerOf(p), k, Owner(ns, n));
        }
      }
      forall slot, a
        ensures |GrantsOf(s'.At(slot), Some(a))| <= AtMostOneMore(|GrantsOf(s.At(slot), Some(a))|)
      {
        GrantsAfterWrite(s, p, slot, a);
      }
    }
  }

  lemma NextNoDuplicates(digest: Digest, w: World, e: Event)
    requires Consistent(w)
    ensures NoDuplicates(w.state, Next(digest, w, e).state)
  {
    hide LabelsMatch, OwnershipLabels, Sound, Knows, Select, GrantsOf, Step, StartEnsure, StartDelete, Terminal,
      OwnerOf;
    if e.OneCall? && e.owner in w.attempts && !Terminal(w.attempts[e.owner]) {
      assert Knowing(w.state, e.owner, w.attempts[e.owner]);
      StepNoDuplicates(digest, w.attempts[e.owner], w.state, e.outcome);
    } else {
      assert forall slot :: Next(digest, w, e).state.At(slot) == w.state.At(slot);
    }
  }

  /** Exactly-once creation: however attempts interleave, fail, lose answers or are abandoned, no owner ends up with
      a second service account or federated identity, and no account with a second binding in a slot. */
  lemma {:induction false} ExactlyOnce(digest: Digest, w: World, es: seq<Event>)
    requires Consistent(w)
    ensures Consistent(Run(digest, w, es))
    ensures NoDuplicates(w.state, Run(digest, w, es).state)
    decreases |es|
  {
    hide Consistent, NoDuplicates, Next;
    if es == [] {
      NoDuplicatesReflexive(w.state);
    } else {
      NextConsistent(digest, w, es[0]);
      NextNoDuplicates(digest, w, es[0]);
      ExactlyOnce(digest, Next(digest, w, es[0]), es[1..]);
      NoDuplicatesTransitive(w.state, Next(digest, w, es[0]).state, Run(digest, w, es).state);
    }
  }

  lemma NoDuplicatesReflexive(s: State)
    ensures NoDuplicates(s, s)
  {}

  // ---- referential integrity

  /** At most one service account and one federated identity per owner. */
  ghost predicate Exclusive(s: State) {
    && (forall k, ns, n :: |Select(s.accounts, OwnershipLabels(k, ns, n))| <= 1)
    && (forall k, ns, n :: |Select(s.identities, OwnershipLabels(k, ns, n))| <= 1)
  }

  /** Every owner-labelled federated identity points to a service account with the same labels. */
  ghost predicate Linked(s: State) {
    forall x, k, ns, n | x in s.identities && LabelsMatch(x.labels, OwnershipLabels(k, ns, n)) ::
      Has(s.accounts, x.info.account, OwnershipLabels(k, ns, n))
  }

  predicate PastIdentity(p: Position) {
    p.DropFindAccount? || p.DropLookUp? || p.DropSearch? || p.DropListBindings? || p.DropBinding? || p.DropAccount?
    || p.Dropped?
  }

  /** What a deletion has achieved so far. */
  ghost predicate Cleared(s: State, p: Position) {
    && (PastIdentity(p) ==> Select(s.identities, LabelsOf(p)) == [])
    && (p.Dropped? ==> Select(s.accounts, LabelsOf(p)) == [])
  }

  lemma ExclusiveStays(s: State, s': State)
    requires Exclusive(s) && NoDuplicates(s, s')
    ensures Exclusive(s')
  {
    hide Select, OwnershipLabels;
    forall k, ns, n
      ensures |Select(s'.accounts, OwnershipLabels(k, ns, n))| <= 1
              && |Select(s'.identities, OwnershipLabels(k, ns, n))| <= 1
    {
      assert |Select(s.accounts, OwnershipLabels(k, ns, n))| <= 1
             && |Select(s.identities, OwnershipLabels(k, ns, n))| <= 1;
    }
  }

  lemma LastOneRemoved<T>(xs: seq<Resource<T>>, id: string, own: Labels)
    requires |Select(xs, own)| <= 1 && Has(xs, id, own)
    ensures Select(Without(xs, id), own) == []
  {
    hide LabelsMatch;
    HasBySelect(xs, id, own);
    SelectWithout(xs, id, own);
    var one := Select(xs, own);
    assert one == [one[0]] && one[0].id == id;
    assert Without(one[1..], id) == [];
  }

  lemma ClearedAfterRest(s: State, c: Cleanup, account: string, slot: Slot, rest: seq<Binding>)
    requires Select(s.identities, c.Labels()) == []
    ensures Cleared(s, DropRest(c, account, slot, rest))
  {
    hide TrimSpace, LabelsMatch, OwnershipLabels, Select;
  }

  lemma EnsureStaysEnsure(digest: Digest, p: Position, r: Response)
    requires !Terminal(p) && !Deleting(p)
    ensures !Deleting(Advance(digest, p, r))
  {
    hide LabelsMatch, OwnershipLabels, TrimSpace, Find, Pick, NeedsUpdate, SelectProvider, BuildSubject, AnyGrantsTo,
      Allowlist.Permitted, ResourceKey, NormalizeIssuer;
  }

  lemma ClearedByDropFind(digest: Digest, p: Position, s: State)
    requires (p.DropFindIdentity? || p.DropFindAccount?) && Cleared(s, p)
    ensures Cleared(s, Step(digest, p, s, Ok).0)
  {
    hide LabelsMatch, OwnershipLabels, TrimSpace, Find, Select;
    if p.DropFindIdentity? {
      FoundIsHeld(s.identities, p.goal.Labels());
    } else {
      FoundIsHeld(s.accounts, p.goal.Labels());
    }
  }

  lemma ClearedByDropLookUp(digest: Digest, p: Position, s: State)
    requires (p.DropLookUp? || p.DropSearch? || p.DropListBindings?) && Cleared(s, p)
    ensures Cleared(s, Step(digest, p, s, Ok).0)
  {
    hide LabelsMatch, OwnershipLabels, TrimSpace, Pick, Removable, Select, DropRest;
    if p.DropListBindings? {
      ClearedAfterRest(s, p.goal, p.account, p.slot, Removable(s.At(p.slot), p.account));
    }
  }

  lemma ClearedByDropRead(digest: Digest, p: Position, s: State)
    requires p.DropFindIdentity? || p.DropFindAccount? || p.DropLookUp? || p.DropSearch? || p.DropListBindings?
    requires Cleared(s, p)
    ensures var (p', s') := Step(digest, p, s, Ok); Cleared(s', p')
  {
    hide Cleared, Advance, Find, TrimSpace, LabelsMatch, OwnershipLabels;
    if p.DropFindIdentity? || p.DropFindAccount? {
      ClearedByDropFind(digest, p, s);
    } else {
      ClearedByDropLookUp(digest, p, s);
    }
  }

  lemma ClearedByDropBinding(digest: Digest, p: Position, s: State)
    requires p.DropBinding? && Cleared(s, p) && Knows(s, p)
    ensures var (p', s') := Step(digest, p, s, Ok); Cleared(s', p')
  {
    hide OwnershipLabels, Select, Has, KnowsRest, DropRest, Without;
    ClearedAfterRest(After(s, p), p.goal, p.account, p.slot, p.rest[1..]);
  }

  lemma ClearedByDropResource(digest: Digest, p: Position, s: State)
    requires p.DropIdentity? || p.DropAccount?
    requires Cleared(s, p) && Knows(s, p) && Exclusive(s)
    ensures var (p', s') := Step(digest, p, s, Ok); Cleared(s', p')
  {
    hide LabelsMatch, OwnershipLabels, TrimSpace, Select, Has, Without;
    match p
    case DropIdentity(c, id) =>
      assert |Select(s.identities, c.Labels())| <= 1;
      LastOneRemoved(s.identities, id, c.Labels());
    case DropAccount(c, account) =>
      assert |Select(s.accounts, c.Labels())| <= 1;
      LastOneRemoved(s.accounts, account, c.Labels());
  }

  /** With a failed answer a deletion stops, or passes over a reference. */
  lemma ClearedByFailure(digest: Digest, p: Position, s: State)
    requires !Terminal(p) && Deleting(p) && Cleared(s, p)
    ensures Cleared(s, Advance(digest, p, Failed))
    ensures IsWrite(Request(p)) ==> Advance(digest, p, Failed).Stopped?
  {
    hide LabelsMatch, OwnershipLabels, TrimSpace, Select;
  }

  lemma StepCleared(digest: Digest, p: Position, s: State, o: Outcome)
    requires !Terminal(p) && Cleared(s, p) && Knows(s, p) && Exclusive(s)
    ensures var (p', s') := Step(digest, p, s, o); Cleared(s', p')
  {
    hide LabelsMatch, OwnershipLabels, Advance, Request, Cleared, Knows, Serve;
    var (p', s') := Step(digest, p, s, o);
    if !Deleting(p) {
      EnsureStaysEnsure(digest, p, Perform(s, Request(p), o).1);
      NotDeletingIsCleared(s', p');
    } else if o == Ok {
      StoreAfterStep(digest, p, s, o);
      if p.DropIdentity? || p.DropAccount? {
        ClearedByDropResource(digest, p, s);
      } else if p.DropBinding? {
        ClearedByDropBinding(digest, p, s);
      } else {
        ClearedByDropRead(digest, p, s);
      }
    } else {
      ClearedByFailure(digest, p, s);
      StoreAfterStep(digest, p, s, o);
      StoppedIsCleared(s', p');
    }
  }

  lemma NotDeletingIsCleared(s: State, p: Position)
    requires !Deleting(p)
    ensures Cleared(s, p)
  {}

  lemma StoppedIsCleared(s: State, p: Position)
    ensures p.Stopped? ==> Cleared(s, p)
  {}

  lemma LinkedByLess(s: State, s': State)
    requires Linked(s) && s'.accounts == s.accounts && forall x | x in s'.identities :: x in s.identities
    ensures Linked(s')
  {
    hide LabelsMatch, OwnershipLabels, Has;
  }

  lemma LinkedAfterMakeAccount(s: State, p: Position)
    requires p.MakeAccount? && Linked(s)
    ensures Linked(After(s, p))
  {
    hide LabelsMatch, OwnershipLabels, Has, FreshId, ServiceAccountName;
    var s' := After(s, p);
    forall x, k, ns, n | x in s'.identities && LabelsMatch(x.labels, OwnershipLabels(k, ns, n))
      ensures Has(s'.accounts, x.info.account, OwnershipLabels(k, ns, n))
    {
      HasMore(s.accounts, s'.accounts[|s.accounts|], x.info.account, OwnershipLabels(k, ns, n));
    }
  }

  lemma LinkedAfterMakeIdentity(s: State, p: Position)
    requires p.MakeIdentity? && Linked(s) && Knows(s, p)
    ensures Linked(After(s, p))
  {
    hide LabelsMatch, OwnershipLabels, Has, FreshId, FederatedIdentityName, Description, Select;
    var s', own := After(s, p), LabelsOf(p);
    OwnershipMatch(own, KeyOf(p), OwnerOf(p).namespace, OwnerOf(p).name);
    forall x, k, ns, n | x in s'.identities && LabelsMatch(x.labels, OwnershipLabels(k, ns, n))
      ensures Has(s'.accounts, x.info.account, OwnershipLabels(k, ns, n))
    {
      if x !in s.identities {
        OwnersAreSeparate(x.labels, k, ns, n, KeyOf(p), OwnerOf(p).namespace, OwnerOf(p).name);
      }
    }
  }

  lemma LinkedAfterFixIdentity(s: State, p: Position)
    requires p.FixIdentity? && Linked(s) && Knows(s, p) && DistinctIds(s.identities)
    ensures Linked(After(s, p))
  {
    hide LabelsMatch, OwnershipLabels, Has, FederatedIdentityName, Description;
    var s', own := After(s, p), LabelsOf(p);
    OwnershipMatch(own, KeyOf(p), OwnerOf(p).namespace, OwnerOf(p).name);
    LookupOwned(s.identities, p.identity, own);
    OwnedById(s.identities, p.identity, own);
    var old' := Lookup(s.identities, p.identity).value;
    var y := Updated(old', Request(p));
    forall x, k, ns, n | x in s'.identities && LabelsMatch(x.labels, OwnershipLabels(k, ns, n))
      ensures Has(s'.accounts, x.info.account, OwnershipLabels(k, ns, n))
    {
      var i :| 0 <= i < |s'.identities| && s'.identities[i] == x;
      if x == y {
        assert LabelsMatch(old'.labels, own);
        OwnersAreSeparate(x.labels, k, ns, n, KeyOf(p), OwnerOf(p).namespace, OwnerOf(p).name);
      } else {
        assert x == s.identities[i];
      }
    }
  }

  lemma LinkedAfterDropAccount(s: State, p: Position)
    requires p.DropAccount? && Linked(s) && Knows(s, p) && Cleared(s, p) && DistinctIds(s.accounts)
    ensures Linked(After(s, p))
  {
    hide LabelsMatch, OwnershipLabels;
    var s', own := After(s, p), LabelsOf(p);
    OwnedById(s.accounts, p.account, own);
    SelectFacts(s.identities, own);
    forall x, k, ns, n | x in s'.identities && LabelsMatch(x.labels, OwnershipLabels(k, ns, n))
      ensures Has(s'.accounts, x.info.account, OwnershipLabels(k, ns, n))
    {
      assert Has(s.accounts, x.info.account, OwnershipLabels(k, ns, n));
      var h :| h in s.accounts && h.id == x.info.account && LabelsMatch(h.labels, OwnershipLabels(k, ns, n));
      assert x !in Select(s.identities, own);
      if h.id == p.account {
        OwnersAreSeparate(h.labels, k, ns, n, KeyOf(p), OwnerOf(p).namespace, OwnerOf(p).name);
      }
      WithoutMember(s.accounts, p.account, h);
    }
  }

  lemma LinkedAfterBindings(s: State, p: Position)
    requires (p.MakeBinding? || p.DropBinding?) && Linked(s)
    ensures Linked(After(s, p))
  {
    hide LabelsMatch, OwnershipLabels, Has;
    assert After(s, p).accounts == s.accounts && After(s, p).identities == s.identities;
  }

  lemma StepLinked(digest: Digest, p: Position, s: State, o: Outcome)
    requires !Terminal(p) && Sound(s) && Knows(s, p) && Cleared(s, p) && Linked(s)
    ensures Linked(Step(digest, p, s, o).1)
  {
    hide LabelsMatch, OwnershipLabels, Linked, Cleared, Knows, Sound, Advance, Step, After;
    StoreAfterStep(digest, p, s, o);
    SoundIdentities(s);
    match p
    case MakeAccount(_) => LinkedAfterMakeAccount(s, p);
    case MakeIdentity(_, _) => LinkedAfterMakeIdentity(s, p);
    case FixIdentity(_, _, _) => LinkedAfterFixIdentity(s, p);
    case MakeBinding(_, _) => LinkedAfterBindings(s, p);
    case DropIdentity(_, id) => LinkedAfterDropIdentity(s, p);
    case DropBinding(_, _, _, _) => LinkedAfterBindings(s, p);
    case DropAccount(_, _) => LinkedAfterDropAccount(s, p);
    case _ =>
  }

  lemma LinkedAfterDropIdentity(s: State, p: Position)
    requires p.DropIdentity? && Linked(s)
    ensures Linked(After(s, p))
  {
    hide LabelsMatch, OwnershipLabels, Linked;
    forall x | x in After(s, p).identities
      ensures x in s.identities
    {
      WithoutMember(s.identities, p.identity, x);
    }
    LinkedByLess(s, After(s, p));
  }

  // ---- all of it over runs

  /** Everything the protocol keeps, once the store starts without duplicates and without dangling identities. */
  ghost predicate Orderly(w: World) {
    && Consistent(w) && Exclusive(w.state) && Linked(w.state)
    && forall o | o in w.attempts :: Cleared(w.state, w.attempts[o])
  }

  lemma ClearedStays(s: State, s': State, p: Position)
    requires Cleared(s, p) && Undisturbed(s, s', LabelsOf(p))
    ensures Cleared(s', p)
  {
    hide Select, LabelsMatch, OwnershipLabels, GrantsOf, Has, Issued;
  }

  lemma CallKeepsOthersCleared(digest: Digest, w: World, owner: Owner, o: Outcome, other: Owner)
    requires Orderly(w) && owner in w.attempts && other in w.attempts && other != owner
    ensures Cleared(Step(digest, w.attempts[owner], w.state, o).1, w.attempts[other])
  {
    hide LabelsMatch, OwnershipLabels, Sound, Knows, Isolated, Undisturbed, Step, Terminal, Cleared, Exclusive,
      Linked;
    var p, q := w.attempts[owner], w.attempts[other];
    assert Knowing(w.state, owner, p) && Knowing(w.state, other, q);
    StepSafe(digest, p, w.state, o);
    var s' := Step(digest, p, w.state, o).1;
    IsolatedIsUndisturbed(w.state, s', p, KeyOf(q), OwnerOf(q));
    ClearedStays(w.state, s', q);
  }

  lemma StartCleared(digest: Digest, s: State, want: EnsureInput)
    ensures Cleared(s, StartEnsure(want))
  {
    hide TrimSpace, Select;
  }

  lemma StartDeleteCleared(digest: Digest, s: State, ns: string, n: string, issuer: string, roleRef: string,
                           policyRef: string)
    ensures Cleared(s, StartDelete(digest, ns, n, issuer, roleRef, policyRef))
  {
    hide BuildSubject, ResourceKey, Select;
  }

  lemma NextOrderly(digest: Digest, w: World, e: Event)
    requires Orderly(w)
    ensures Orderly(Next(digest, w, e))
  {
    hide LabelsMatch, OwnershipLabels, Sound, Knows, Step, StartEnsure, StartDelete, Terminal, OwnerOf, Cleared,
      Exclusive, NoDuplicates;
    NextConsistent(digest, w, e);
    NextNoDuplicates(digest, w, e);
    ExclusiveStays(w.state, Next(digest, w, e).state);
    match e
    case BeginEnsure(want) => StartCleared(digest, w.state, want);
    case BeginDelete(ns, n, issuer, roleRef, policyRef) =>
      StartDeleteCleared(digest, w.state, ns, n, issuer, roleRef, policyRef);
    case OneCall(owner, o) =>
      if owner in w.attempts && !Terminal(w.attempts[owner]) {
        var p := w.attempts[owner];
        assert Knowing(w.state, owner, p);
        StepCleared(digest, p, w.state, o);
        StepLinked(digest, p, w.state, o);
        forall other | other in w.attempts && other != owner
          ensures Cleared(Step(digest, p, w.state, o).1, w.attempts[other])
        {
          CallKeepsOthersCleared(digest, w, owner, o, other);
        }
      }
    case Abandon(_) =>
    case Reconfigure(_, _) =>
      forall o | o in w.attempts
        ensures Cleared(Next(digest, w, e).state, w.attempts[o])
      {
        SameResourcesCleared(w.state, Next(digest, w, e).state, w.attempts[o]);
      }
  }

  lemma SameResourcesCleared(s: State, s': State, p: Position)
    requires Cleared(s, p) && s'.accounts == s.accounts && s'.identities == s.identities
    ensures Cleared(s', p)
  {}

  /** Referential integrity at every call boundary of every run. */
  lemma {:induction false} ReferentialIntegrity(digest: Digest, w: World, es: seq<Event>)
    requires Orderly(w)
    ensures Orderly(Run(digest, w, es))
    decreases |es|
  {
    hide Orderly, Next;
    if es != [] {
      NextOrderly(digest, w, es[0]);
      ReferentialIntegrity(digest, Next(digest, w, es[0]), es[1..]);
    }
  }
}
