/** The bindings a deletion removes, and those it leaves. */
module Clearing {
  import opened Strings
  import opened Subject
  import opened Store
  import opened Protocol
  import opened Ownership
  import opened Safety
  import opened Resolution
  import opened Undo

  /** The slots whose bindings a deletion goes through. */
  function Visited(digest: Digest, p: Position, s: State, script: Script): set<Slot>
    decreases Stage(p), Left(p)
  {
    if Terminal(p) then {}
    else
      StageDrops(digest, p, s, Head(script));
      var (p', s') := Step(digest, p, s, Head(script));
      (if p.DropListBindings? then {p.slot} else {}) + Visited(digest, p', s', Tail(script))
  }

  lemma VisitedStep(digest: Digest, p: Position, s: State, script: Script)
    requires !Terminal(p)
    ensures var (p', s') := Step(digest, p, s, Head(script));
            Visited(digest, p, s, script)
            == (if p.DropListBindings? then {p.slot} else {}) + Visited(digest, p', s', Tail(script))
  {
    hide Step;
  }

  /** The account whose bindings a deletion removes, once it is known. */
  function Holder(p: Position): Option<string> {
    match p
    case DropLookUp(_, account, _) => Some(account)
    case DropSearch(_, account, _) => Some(account)
    case DropListBindings(_, account, _) => Some(account)
    case DropBinding(_, account, _, _) => Some(account)
    case DropAccount(_, account) => Some(account)
    case _ => None
  }

  /** No binding of the account that the controller labelled is left in the slot. */
  predicate Clear(s: State, slot: Slot, account: string) {
    Removable(s.At(slot), account) == []
  }

  /** Where bindings are being deleted, all that are to go are among those still to come. */
  ghost predicate InHand(s: State, p: Position) {
    p.DropBinding? ==> forall b | b in Removable(s.At(p.slot), p.account) :: b in p.rest
  }

  lemma {:induction false} RemovableWithout(bs: seq<Binding>, id: string, account: string)
    ensures Removable(Without(bs, id), account) == Without(Removable(bs, account), id)
  {
    hide Managed;
    if bs != [] {
      RemovableWithout(bs[1..], id, account);
    }
  }

  /** A call of a deletion that has its account keeps the account, and touches only the slot in hand. */
  lemma HolderStep(digest: Digest, p: Position, s: State, o: Outcome)
    requires !Terminal(p) && Holder(p).Some?
    ensures var (p', s') := Step(digest, p, s, o);
            && (p'.Stopped? || p'.Dropped? || Holder(p') == Holder(p))
            && (p.DropBinding? && p.rest != [] && !p'.Stopped? ==>
                 p' == DropRest(p.goal, p.account, p.slot, p.rest[1..]))
            && (p.DropListBindings? && !p'.Stopped? ==>
                  p' == DropRest(p.goal, p.account, p.slot, Removable(s.At(p.slot), p.account)))
            && (!p.DropListBindings? && !p.DropBinding? ==> !p'.DropBinding?)
            && (forall slot | !p.DropBinding? || slot != p.slot :: s'.At(slot) == s.At(slot))
  {
    hide TrimSpace, Pick, Managed, Without, Removable;
  }

  lemma BindingGoes(digest: Digest, p: Position, s: State, o: Outcome)
    requires p.DropBinding? && p.rest != []
    ensures var (p', s') := Step(digest, p, s, o);
            && (s'.At(p.slot) == s.At(p.slot) || s'.At(p.slot) == Without(s.At(p.slot), p.rest[0].id))
            && (!p'.Stopped? ==> s'.At(p.slot) == Without(s.At(p.slot), p.rest[0].id))
  {
    hide TrimSpace, Pick, Managed, Without, Removable;
  }

  lemma WithoutNone<T>(id: string)
    ensures Without<T>([], id) == []
  {}

  lemma ClearStays(digest: Digest, p: Position, s: State, o: Outcome, slot: Slot)
    requires !Terminal(p) && Holder(p).Some? && (p.DropBinding? ==> p.rest != []) && Clear(s, slot, Holder(p).value)
    ensures Clear(Step(digest, p, s, o).1, slot, Holder(p).value)
  {
    hide Step, Removable, Without;
    HolderStep(digest, p, s, o);
    if p.DropBinding? && slot == p.slot {
      BindingGoes(digest, p, s, o);
      RemovableWithout(s.At(slot), p.rest[0].id, p.account);
      WithoutNone<BindingInfo>(p.rest[0].id);
    }
  }

  lemma OneLess(xs: seq<Binding>, rest: seq<Binding>, b: Binding)
    requires rest != [] && b in Without(xs, rest[0].id) && forall x | x in xs :: x in rest
    ensures b in rest[1..]
  {
    WithoutFacts(xs, rest[0].id);
    assert rest == [rest[0]] + rest[1..];
  }

  /** What is in hand stays so; once there is nothing more in hand, the slot is clear. */
  lemma InHandStays(digest: Digest, p: Position, s: State, o: Outcome)
    requires (p.DropBinding? || p.DropListBindings?) && InHand(s, p) && (p.DropBinding? ==> p.rest != [])
    ensures var (p', s') := Step(digest, p, s, o);
            !p'.Stopped? ==>
              && InHand(s', p') && (p'.DropBinding? ==> p'.rest != [] && p'.slot == p.slot)
              && (!p'.DropBinding? ==> Clear(s', p.slot, p.account))
  {
    hide Step, Removable, Without, TrimSpace;
    HolderStep(digest, p, s, o);
    var (p', s') := Step(digest, p, s, o);
    if p.DropBinding? && !p'.Stopped? {
      BindingGoes(digest, p, s, o);
      RemovableWithout(s.At(p.slot), p.rest[0].id, p.account);
      var left := Removable(s'.At(p.slot), p.account);
      forall b | b in left
        ensures b in p.rest[1..]
      {
        OneLess(Removable(s.At(p.slot), p.account), p.rest, b);
      }
      assert |left| > 0 ==> left[0] in left;
    }
  }

  /** What is clear stays clear, and the slot in hand and every slot still visited end up clear, if the deletion ends
      well. */
  lemma {:induction false} HolderClears(digest: Digest, p: Position, s: State, script: Script, slot: Slot)
    requires Holder(p).Some? && InHand(s, p) && (p.DropBinding? ==> p.rest != [])
    requires Exec(digest, p, s, script).0.Dropped?
    requires slot in Visited(digest, p, s, script) || Clear(s, slot, Holder(p).value)
             || (p.DropBinding? && slot == p.slot)
    ensures Clear(Exec(digest, p, s, script).1, slot, Holder(p).value)
    decreases Stage(p), Left(p)
  {
    hide Exec, Visited, Clear, InHand, Step, DropRest;
    var o := Head(script);
    var (p', s') := Step(digest, p, s, o);
    StageDrops(digest, p, s, o);
    ExecStep(digest, p, s, script);
    VisitedStep(digest, p, s, script);
    HolderStep(digest, p, s, o);
    if Clear(s, slot, Holder(p).value) { ClearStays(digest, p, s, o, slot); }
    if p.DropBinding? || p.DropListBindings? { InHandStays(digest, p, s, o); } else { NotInHand(s', p'); }
    if Terminal(p') {
      ExecEnd(digest, p', s', Tail(script));
      NoVisits(digest, p', s', Tail(script));
    } else {
      HolderClears(digest, p', s', Tail(script), slot);
    }
  }

  lemma NotInHand(s: State, p: Position)
    ensures !p.DropBinding? ==> InHand(s, p)
  {}

  lemma NoVisits(digest: Digest, p: Position, s: State, script: Script)
    requires Terminal(p)
    ensures Visited(digest, p, s, script) == {}
  {}

  // ---- from the start

  /** Up to the account no binding and no account changes, and the account is the owner's first. */
  lemma StartingStep(digest: Digest, p: Position, s: State, o: Outcome)
    requires Starting(p)
    ensures var (p', s') := Step(digest, p, s, o);
            && s'.bindings == s.bindings && s'.accounts == s.accounts && s'.directory == s.directory
            && (p'.Stopped? || (p'.Dropped? && Find(s.accounts, p.goal.Labels()).None?)
                || (Starting(p') && p'.goal == p.goal)
                || (Find(s.accounts, p.goal.Labels()).Some?
                    && p' == DropFromPolicy(p.goal, Find(s.accounts, p.goal.Labels()).value.id)))
            && (o == Ok ==> !p'.Stopped?)
  {
    hide LabelsMatch, OwnershipLabels, Find, Without, DropFromPolicy;
    FromPolicyHolds(p.goal, FirstAccount(s, p.goal));
  }

  function FirstAccount(s: State, c: Cleanup): string {
    var found := Find(s.accounts, c.Labels());
    if found.Some? then found.value.id else ""
  }

  lemma FromPolicyHolds(c: Cleanup, account: string)
    ensures var p := DropFromPolicy(c, account);
            Holder(p) == Some(account) && !p.DropBinding? && !p.DropListBindings? && !Terminal(p)
  {
    hide TrimSpace;
  }

  lemma {:induction false} StartClears(digest: Digest, p: Position, s: State, script: Script, slot: Slot)
    requires Starting(p) && Exec(digest, p, s, script).0.Dropped? && slot in Visited(digest, p, s, script)
    ensures var found := Find(s.accounts, p.goal.Labels());
            found.Some? && Clear(Exec(digest, p, s, script).1, slot, found.value.id)
    decreases Stage(p), Left(p)
  {
    hide Exec, Visited, Clear, Step, OwnershipLabels, Find, DropFromPolicy;
    var o := Head(script);
    var (p', s') := Step(digest, p, s, o);
    StageDrops(digest, p, s, o);
    ExecStep(digest, p, s, script);
    VisitedStep(digest, p, s, script);
    StartingStep(digest, p, s, o);
    FromPolicyHolds(p.goal, FirstAccount(s, p.goal));
    if Terminal(p') {
      ExecEnd(digest, p', s', Tail(script));
      NoVisits(digest, p', s', Tail(script));
    } else if Starting(p') {
      StartClears(digest, p', s', Tail(script), slot);
    } else {
      HolderClears(digest, p', s', Tail(script), slot);
    }
  }

  /** A deletion that reports success, through whatever faults, leaves in no slot it went through a binding of the
      owner's account that the controller labelled. */
  lemma DeletionClears(digest: Digest, ns: string, n: string, issuer: string, roleRef: string, policyRef: string,
                       s: State, script: Script, slot: Slot)
    requires Exec(digest, StartDelete(digest, ns, n, issuer, roleRef, policyRef), s, script).0.Dropped?
    requires slot in Visited(digest, StartDelete(digest, ns, n, issuer, roleRef, policyRef), s, script)
    ensures var p := StartDelete(digest, ns, n, issuer, roleRef, policyRef);
            var found := Find(s.accounts, LabelsOf(p));
            found.Some? && Clear(Exec(digest, p, s, script).1, slot, found.value.id)
  {
    hide Exec, Visited, BuildSubject, ResourceKey, OwnershipLabels, Find, Clear;
    var p := StartDelete(digest, ns, n, issuer, roleRef, policyRef);
    ExecEndIfStopped(digest, p, s, script);
    StartClears(digest, p, s, script, slot);
  }

  lemma ExecEndIfStopped(digest: Digest, p: Position, s: State, script: Script)
    ensures p.Stopped? ==> Exec(digest, p, s, script).0 == p
  {}

  // ---- which slots

  lemma SearchVisits(digest: Digest, c: Cleanup, account: string, kind: Kind, s: State, script: Script)
    ensures var r := if Head(script) != Ok then None else Pick(kind, s.directory.Listed(kind), c.Ref(kind));
            Visited(digest, DropSearch(c, account, kind), s, script)
            == match r
               case None => Visited(digest, DropAfter(c, account, kind), s, Tail(script))
               case Some(t) => Visited(digest, DropListBindings(c, account, Slot(kind, t.id)), s, Tail(script))
  {
    hide TrimSpace, Pick, DropAfter, Visited;
    VisitedStep(digest, DropSearch(c, account, kind), s, script);
  }

  lemma LookUpVisits(digest: Digest, c: Cleanup, account: string, kind: Kind, s: State, script: Script)
    ensures var d, direct := s.directory, Slot(kind, c.Ref(kind));
            Visited(digest, DropLookUp(c, account, kind), s, script)
            == if Head(script) == Ok && direct in d.direct && (kind == Role || !Blank(d.direct[direct].id)) then
                 Visited(digest, DropListBindings(c, account, Slot(kind, d.direct[direct].id)), s, Tail(script))
               else
                 Visited(digest, DropSearch(c, account, kind), s, Tail(script))
  {
    hide TrimSpace, Visited;
    VisitedStep(digest, DropLookUp(c, account, kind), s, script);
  }

  /** A reference whose resolution is answered is gone through; one that does not resolve is passed over. */
  lemma VisitsAnswered(digest: Digest, c: Cleanup, account: string, kind: Kind, s: State, script: Script)
    ensures var (r, rest) := Answered(s.directory, kind, c.Ref(kind), script);
            Visited(digest, DropLookUp(c, account, kind), s, script) ==
              match r
              case Failure(_) => Visited(digest, DropAfter(c, account, kind), s, rest)
              case Success(t) =>
                {Slot(kind, t.id)} + Visited(digest, DropListBindings(c, account, Slot(kind, t.id)), s, rest)
  {
    hide TrimSpace, Pick, DropAfter, Visited, Step;
    LookUpVisits(digest, c, account, kind, s, script);
    SearchVisits(digest, c, account, kind, s, Tail(script));
    var (r, rest) := Answered(s.directory, kind, c.Ref(kind), script);
    if r.Success? {
      VisitedStep(digest, DropListBindings(c, account, Slot(kind, r.value.id)), s, rest);
    }
  }

  lemma {:induction false} RestVisits(digest: Digest, c: Cleanup, account: string, slot: Slot, rest: seq<Binding>,
                                      s: State)
    returns (s': State)
    ensures s'.directory == s.directory
    ensures Visited(digest, DropRest(c, account, slot, rest), s, [])
              == Visited(digest, DropAfter(c, account, slot.kind), s', [])
    decreases |rest|
  {
    hide Visited, DropAfter, Without;
    if rest == [] {
      s' := s;
    } else {
      VisitedStep(digest, DropBinding(c, account, slot, rest), s, []);
      s' := RestVisits(digest, c, account, slot, rest[1..], After(s, DropBinding(c, account, slot, rest)));
    }
  }

  lemma KindVisits(digest: Digest, c: Cleanup, account: string, kind: Kind, s: State) returns (s': State)
    ensures s'.directory == s.directory
    ensures var r := Resolve(s.directory, kind, c.Ref(kind));
            Visited(digest, DropLookUp(c, account, kind), s, [])
            == (if r.Some? then {Slot(kind, r.value.id)} else {}) + Visited(digest, DropAfter(c, account, kind), s', [])
  {
    hide Visited, TrimSpace, Pick, DropAfter, Removable;
    VisitsAnswered(digest, c, account, kind, s, []);
    AnsweredInFull(s.directory, kind, c.Ref(kind));
    var r := Resolve(s.directory, kind, c.Ref(kind));
    s' := s;
    if r.Some? {
      var slot := Slot(kind, r.value.id);
      VisitedStep(digest, DropListBindings(c, account, slot), s, []);
      s' := RestVisits(digest, c, account, slot, Removable(s.At(slot), account), s);
    }
  }

  lemma AccountVisits(digest: Digest, c: Cleanup, account: string, s: State)
    ensures Visited(digest, DropAccount(c, account), s, []) == {}
  {
    hide Visited, Without;
    VisitedStep(digest, DropAccount(c, account), s, []);
    NoVisits(digest, Dropped(c), After(s, DropAccount(c, account)), []);
  }

  lemma RoleVisits(digest: Digest, c: Cleanup, account: string, s: State, slot: Slot)
    ensures slot in Visited(digest, DropFromRole(c, account), s, []) <==>
            slot.kind == Role && c.Ref(Role) != "" && ResolvesTo(s.directory, Role, c.Ref(Role), slot.id)
  {
    hide Visited, TrimSpace, Resolve;
    if c.Ref(Role) == "" {
      AccountVisits(digest, c, account, s);
    } else {
      var s' := KindVisits(digest, c, account, Role, s);
      AccountVisits(digest, c, account, s');
    }
  }

  /** Without faults, a deletion with an account goes through exactly the slots its references resolve to. */
  lemma CleanVisits(digest: Digest, c: Cleanup, account: string, s: State, slot: Slot)
    ensures slot in Visited(digest, DropFromPolicy(c, account), s, []) <==>
            c.Ref(slot.kind) != "" && ResolvesTo(s.directory, slot.kind, c.Ref(slot.kind), slot.id)
  {
    hide Visited, TrimSpace, Resolve, DropFromRole;
    if c.Ref(Policy) == "" {
      RoleVisits(digest, c, account, s, slot);
    } else {
      var s' := KindVisits(digest, c, account, Policy, s);
      RoleVisits(digest, c, account, s', slot);
    }
  }

  /** Without faults, a deletion goes through exactly the slots its references resolve to, once it has an account. */
  lemma {:induction false} StartVisitsIff(digest: Digest, p: Position, s: State, slot: Slot)
    requires Starting(p)
    ensures slot in Visited(digest, p, s, []) <==>
            && Find(s.accounts, p.goal.Labels()).Some?
            && p.goal.Ref(slot.kind) != "" && ResolvesTo(s.directory, slot.kind, p.goal.Ref(slot.kind), slot.id)
    decreases Stage(p), Left(p)
  {
    hide Visited, Step, TrimSpace, Resolve, DropFromPolicy, Find, OwnershipLabels;
    var (p', s') := Step(digest, p, s, Ok);
    StageDrops(digest, p, s, Ok);
    VisitedStep(digest, p, s, []);
    StartingStep(digest, p, s, Ok);
    FromPolicyHolds(p.goal, FirstAccount(s, p.goal));
    if Terminal(p') {
      NoVisits(digest, p', s', []);
    } else if Starting(p') {
      StartVisitsIff(digest, p', s', slot);
    } else {
      CleanVisits(digest, p.goal, Find(s.accounts, p.goal.Labels()).value.id, s', slot);
    }
  }

  // ---- what stays

  /** A slot that a deletion does not visit keeps its bindings. */
  lemma {:induction false} UnvisitedStays(digest: Digest, p: Position, s: State, script: Script, slot: Slot)
    requires Holder(p).Some? && (p.DropBinding? ==> p.rest != [] && slot != p.slot)
    requires slot !in Visited(digest, p, s, script)
    ensures Exec(digest, p, s, script).1.At(slot) == s.At(slot)
    decreases Stage(p), Left(p)
  {
    hide Exec, Visited, Step;
    var o := Head(script);
    var (p', s') := Step(digest, p, s, o);
    StageDrops(digest, p, s, o);
    ExecStep(digest, p, s, script);
    VisitedStep(digest, p, s, script);
    HolderStep(digest, p, s, o);
    if Terminal(p') {
      ExecEnd(digest, p', s', Tail(script));
    } else {
      UnvisitedStays(digest, p', s', Tail(script), slot);
    }
  }

  lemma {:induction false} UnvisitedStaysFromStart(digest: Digest, p: Position, s: State, script: Script, slot: Slot)
    requires Starting(p) && slot !in Visited(digest, p, s, script)
    ensures Exec(digest, p, s, script).1.At(slot) == s.At(slot)
    decreases Stage(p), Left(p)
  {
    hide Exec, Visited, Step, OwnershipLabels, Find, DropFromPolicy;
    var o := Head(script);
    var (p', s') := Step(digest, p, s, o);
    StageDrops(digest, p, s, o);
    ExecStep(digest, p, s, script);
    VisitedStep(digest, p, s, script);
    StartingStep(digest, p, s, o);
    if Terminal(p') {
      ExecEnd(digest, p', s', Tail(script));
    } else if Starting(p') {
      UnvisitedStaysFromStart(digest, p', s', Tail(script), slot);
    } else {
      FromPolicyHolds(p.goal, Find(s.accounts, p.goal.Labels()).value.id);
      UnvisitedStays(digest, p', s', Tail(script), slot);
    }
  }

  /** A fault-free ensure from a store with nothing of the owner adds one binding to the slot of its policy, and reports
      it. */
  lemma PolicySlotGrows(digest: Digest, want: EnsureInput, s: State)
    requires Sound(s) && Exec(digest, StartEnsure(want), s, []).0.Ensured? && want.Ref(Policy) != ""
    requires var own := JobOf(digest, want, s).Labels();
             Select(s.accounts, own) == [] && Select(s.identities, own) == []
    ensures var (p, s1, _) := Exec(digest, StartEnsure(want), s, []);
            var slot := Slot(Policy, ResultOf(p.task).policy);
            && ResolvesTo(s.directory, Policy, want.Ref(Policy), slot.id)
            && |s1.At(slot)| == |s.At(slot)| + 1 && s1.directory == s.directory
  {
    hide Resolve, LabelsMatch, OwnershipLabels, Sound, Issued, GrantsOf, Managed, FreshId, Select, TrimSpace,
      BuildSubject, ResourceKey, FromPolicy, FromRole, SelectProvider, NormalizeIssuer, GrantsInKind, After,
      AccountMade, IdentityMade, Exec, BindingName, RestoresRole;
    var j := JobOf(digest, want, s);
    var x, s1 := AccountMade(s, j), After(s, MakeAccount(j));
    var y, s2 := IdentityMade(s1, j, x.id), After(s1, MakeIdentity(j, x.id));
    var t := Task(j, x.id, y.id, []);
    StartIsFound(digest, want, s);
    FreshStage(digest, j, s);
    MadeFacts(s, j);
    FromPolicyLooksUp(t);
    var slot := GrantStage(digest, t, Policy, s2);
    var t1, s3 := t.(bound := [slot]), After(s2, MakeBinding(t, slot));
    assert t.bound + [slot] == [slot];
    assert WithBinding(t, slot) == FromRole(t1);
    BindingMade(s2, t, slot);
    GrantsElsewhere(s2, s3, slot, t.account);
    UndoRole(digest, t1, s3, Cleanup(want.namespace, want.name, j.key, want.roleRef, want.policyRef));
    assert s2.At(slot) == s.At(slot);
    assert [slot][0] == slot;
  }

  lemma FromPolicyLooksUp(t: Task)
    ensures t.job.want.Ref(Policy) != "" ==> FromPolicy(t) == LookUp(t, Policy)
  {}

  /** Where the bound policy's identity does not resolve to itself, a deletion passes its binding over. */
  lemma PolicyBindingStays(digest: Digest, want: EnsureInput, s: State)
    requires Sound(s)
    requires Exec(digest, StartEnsure(want), s, []).0.Ensured?
    requires var own := JobOf(digest, want, s).Labels();
             Select(s.accounts, own) == [] && Select(s.identities, own) == []
    requires want.Ref(Policy) != "" && !ReResolves(s.directory, want.Ref(Policy))
    ensures var (p, s1, _) := Exec(digest, StartEnsure(want), s, []);
            var r := ResultOf(p.task);
            var (_, s2, _) :=
              Exec(digest, StartDelete(digest, want.namespace, want.name, r.issuer, want.roleRef, r.policy), s1, []);
            var slot := Slot(Policy, r.policy);
            && ResolvesTo(s.directory, Policy, want.Ref(Policy), slot.id)
            && s2.At(slot) == s1.At(slot) && |s1.At(slot)| == |s.At(slot)| + 1
  {
    hide Exec, StartEnsure, TrimSpace, Resolve, JobOf, Select, Sound, Visited, BuildSubject, ResourceKey, BoundPolicy;
    PolicySlotGrows(digest, want, s);
    var (p, s1, _) := Exec(digest, StartEnsure(want), s, []);
    var r := ResultOf(p.task);
    var start := StartDelete(digest, want.namespace, want.name, r.issuer, want.roleRef, r.policy);
    var slot := Slot(Policy, r.policy);
    if slot in Visited(digest, start, s1, []) {
      StartOrStopped(digest, want, r, s1, slot);
      StartVisitsIff(digest, start, s1, slot);
      assert false;
    } else {
      StopOrUnvisited(digest, start, s1, slot);
    }
  }

  /** Delete undoes ensure exactly when the bound policy's identity resolves to itself; otherwise its binding stays. */
  lemma DeleteUndoesEnsureIff(digest: Digest, want: EnsureInput, s: State)
    requires Sound(s)
    requires Exec(digest, StartEnsure(want), s, []).0.Ensured?
    requires var own := JobOf(digest, want, s).Labels();
             Select(s.accounts, own) == [] && Select(s.identities, own) == []
    ensures var (p, s1, _) := Exec(digest, StartEnsure(want), s, []);
            var r := ResultOf(p.task);
            var (q, s2, _) :=
              Exec(digest, StartDelete(digest, want.namespace, want.name, r.issuer, want.roleRef, r.policy), s1, []);
            q.Dropped? && SameResources(s, s2) <==>
              (want.Ref(Policy) != "" ==> ReResolves(s.directory, want.Ref(Policy)))
  {
    hide Exec, StartEnsure, StartDelete, TrimSpace, JobOf, Select, Sound, SameResources, ResultOf, ReResolves;
    if want.Ref(Policy) == "" || ReResolves(s.directory, want.Ref(Policy)) {
      DeleteUndoesEnsure(digest, want, s);
    } else {
      PolicyBindingStays(digest, want, s);
      var (p, s1, _) := Exec(digest, StartEnsure(want), s, []);
      var r := ResultOf(p.task);
      var start := StartDelete(digest, want.namespace, want.name, r.issuer, want.roleRef, r.policy);
      NotRestored(s, Exec(digest, start, s1, []).1, Slot(Policy, r.policy));
    }
  }

  lemma StartOrStopped(digest: Digest, want: EnsureInput, r: EnsureResult, s: State, slot: Slot)
    requires slot in Visited(digest, StartDelete(digest, want.namespace, want.name, r.issuer, want.roleRef, r.policy),
                             s, [])
    ensures var p := StartDelete(digest, want.namespace, want.name, r.issuer, want.roleRef, r.policy);
            p.DropFindIdentity? && p.goal.Ref(Policy) == TrimSpace(r.policy)
  {
    hide BuildSubject, ResourceKey, TrimSpace, Visited;
    var p := StartDelete(digest, want.namespace, want.name, r.issuer, want.roleRef, r.policy);
    if p.Stopped? { NoVisits(digest, p, s, []); }
  }

  lemma StopOrUnvisited(digest: Digest, p: Position, s: State, slot: Slot)
    requires p.Stopped? || Starting(p)
    requires slot !in Visited(digest, p, s, [])
    ensures Exec(digest, p, s, []).1.At(slot) == s.At(slot)
  {
    hide Exec, Visited;
    if p.Stopped? { ExecEnd(digest, p, s, []); } else { UnvisitedStaysFromStart(digest, p, s, [], slot); }
  }

  lemma NotRestored(s: State, s': State, slot: Slot)
    requires |s'.At(slot)| != |s.At(slot)|
    ensures !SameResources(s, s')
  {}
}
