/** The invariant quiescence rests on: an owner's federated identity has the owner's subject. An update never sends the
    subject, so only creation can set it, and creation always does. */
module Subjects {
  import opened Strings
  import opened Subject
  import opened Store
  import opened Protocol
  import opened Ownership
  import opened Safety
  import opened Attempts
  import opened World
  import opened Quiescence
  import Allowlist
  import Guarantees
  import Stability

  ghost predicate RightSubjects(s: State) {
    forall x, k, ns, n | x in s.identities && LabelsMatch(x.labels, OwnershipLabels(k, ns, n)) ::
      BuildSubject(ns, n) == Some(x.info.subject)
  }

  predicate FormedJob(j: Job) {
    BuildSubject(j.want.namespace, j.want.name) == Some(j.subject)
  }

  /** The job at a position carries its owner's subject. */
  predicate Formed(p: Position) {
    match p
    case FindAccount(j) => FormedJob(j)
    case MakeAccount(j) => FormedJob(j)
    case FindIdentity(j, _) => FormedJob(j)
    case MakeIdentity(j, _) => FormedJob(j)
    case FixIdentity(j, _, _) => FormedJob(j)
    case LookUp(t, _) => FormedJob(t.job)
    case Search(t, _) => FormedJob(t.job)
    case CheckBinding(t, _) => FormedJob(t.job)
    case MakeBinding(t, _) => FormedJob(t.job)
    case Ensured(t) => FormedJob(t.job)
    case _ => true
  }

  lemma ReferringFormed(digest: Digest, p: Position, r: Response)
    requires Referring(p) && Formed(p)
    ensures Formed(Advance(digest, p, r))
  {
    hide LabelsMatch, OwnershipLabels, TrimSpace, Pick, AnyGrantsTo, Allowlist.Permitted, FormedJob;
  }

  lemma FoundingFormed(digest: Digest, p: Position, r: Response)
    requires !Terminal(p) && !Deleting(p) && !Referring(p) && Formed(p)
    ensures Formed(Advance(digest, p, r))
  {
    hide LabelsMatch, OwnershipLabels, TrimSpace, Find, NeedsUpdate, SelectProvider, BuildSubject, ResourceKey,
      NormalizeIssuer;
  }

  lemma DeletingFormed(digest: Digest, p: Position, r: Response)
    requires !Terminal(p) && Deleting(p)
    ensures Formed(Advance(digest, p, r))
  {
    hide LabelsMatch, OwnershipLabels, TrimSpace, Find, Pick, Removable;
  }

  lemma StepFormed(digest: Digest, p: Position, r: Response)
    requires !Terminal(p) && Formed(p)
    ensures Formed(Advance(digest, p, r))
  {
    hide Advance, Formed;
    if Deleting(p) {
      DeletingFormed(digest, p, r);
    } else if Referring(p) {
      ReferringFormed(digest, p, r);
    } else {
      FoundingFormed(digest, p, r);
    }
  }

  lemma MadeRight(s: State, p: Position)
    requires p.MakeIdentity? && Formed(p) && RightSubjects(s)
    ensures RightSubjects(After(s, p))
  {
    hide LabelsMatch, OwnershipLabels, FreshId, FederatedIdentityName, Description, BuildSubject;
    var s', own := After(s, p), LabelsOf(p);
    OwnershipMatch(own, KeyOf(p), OwnerOf(p).namespace, OwnerOf(p).name);
    forall x, k, ns, n | x in s'.identities && LabelsMatch(x.labels, OwnershipLabels(k, ns, n))
      ensures BuildSubject(ns, n) == Some(x.info.subject)
    {
      if x !in s.identities { OwnersAreSeparate(x.labels, k, ns, n, KeyOf(p), OwnerOf(p).namespace, OwnerOf(p).name); }
    }
  }

  lemma FixedRight(s: State, p: Position)
    requires p.FixIdentity? && RightSubjects(s) && DistinctIds(s.identities) && Knows(s, p)
    ensures RightSubjects(After(s, p))
  {
    hide LabelsMatch, OwnershipLabels, FederatedIdentityName, Description, BuildSubject;
    var s', own := After(s, p), LabelsOf(p);
    OwnershipMatch(own, KeyOf(p), OwnerOf(p).namespace, OwnerOf(p).name);
    LookupOwned(s.identities, p.identity, own);
    var x := Lookup(s.identities, p.identity).value;
    var y := Updated(x, Request(p));
    forall i, k, ns, n | 0 <= i < |s'.identities| && LabelsMatch(s'.identities[i].labels, OwnershipLabels(k, ns, n))
      ensures BuildSubject(ns, n) == Some(s'.identities[i].info.subject)
    {
      if s'.identities[i] == y {
        OwnersAreSeparate(y.labels, k, ns, n, KeyOf(p), OwnerOf(p).namespace, OwnerOf(p).name);
      } else {
        assert s'.identities[i] == s.identities[i];
      }
    }
  }

  lemma FewerRight(s: State, s': State)
    requires RightSubjects(s) && forall x | x in s'.identities :: x in s.identities
    ensures RightSubjects(s')
  {
    hide LabelsMatch, OwnershipLabels, BuildSubject;
  }

  lemma FewerAfter(s: State, p: Position)
    requires !Terminal(p) && !p.MakeIdentity? && !p.FixIdentity?
    ensures forall x | x in After(s, p).identities :: x in s.identities
  {
    hide LabelsMatch, OwnershipLabels, FreshId, TrimSpace, ServiceAccountName, BindingName, Without;
    if p.DropIdentity? {
      forall x | x in After(s, p).identities
        ensures x in s.identities
      {
        WithoutMember(s.identities, p.identity, x);
      }
    }
  }

  lemma StepRight(digest: Digest, p: Position, s: State, o: Outcome)
    requires !Terminal(p) && Sound(s) && Knows(s, p) && Formed(p) && RightSubjects(s)
    ensures var (p', s') := Step(digest, p, s, o); Formed(p') && RightSubjects(s')
  {
    hide RightSubjects, Knows, Advance, Formed, LabelsMatch, OwnershipLabels, FederatedIdentityName, Description,
      FreshId, TrimSpace, ServiceAccountName, BindingName;
    StepFormed(digest, p, Perform(s, Request(p), o).1);
    StoreAfterStep(digest, p, s, o);
    if p.MakeIdentity? {
      MadeRight(s, p);
    } else if p.FixIdentity? {
      FixedRight(s, p);
    } else {
      FewerAfter(s, p);
      FewerRight(s, Step(digest, p, s, o).1);
    }
  }

  /** Every attempt in flight is well formed and the store has the right subjects. */
  ghost predicate Right(w: World) {
    RightSubjects(w.state) && forall o | o in w.attempts :: Formed(w.attempts[o])
  }

  lemma NextRight(digest: Digest, w: World, e: Event)
    requires Consistent(w) && Right(w)
    ensures Right(Next(digest, w, e))
  {
    hide RightSubjects, Sound, Knows, Step, StartEnsure, StartDelete, Terminal, OwnerOf, Formed;
    match e
    case BeginEnsure(want) => StartFormed(digest, want, "", "", "", "", "");
    case BeginDelete(ns, n, issuer, roleRef, policyRef) =>
      StartFormed(digest, EnsureInput("", "", "", "", "", [], [], "", [], []), ns, n, issuer, roleRef, policyRef);
    case OneCall(owner, o) =>
      if owner in w.attempts && !Terminal(w.attempts[owner]) {
        assert Knowing(w.state, owner, w.attempts[owner]);
        StepRight(digest, w.attempts[owner], w.state, o);
      }
    case Abandon(_) =>
    case Reconfigure(_, _) => FewerRight(w.state, Next(digest, w, e).state);
  }

  lemma StartFormed(digest: Digest, want: EnsureInput, ns: string, n: string, issuer: string, roleRef: string,
                    policyRef: string)
    ensures Formed(StartEnsure(want)) && Formed(StartDelete(digest, ns, n, issuer, roleRef, policyRef))
  {
    hide TrimSpace, BuildSubject, ResourceKey;
  }

  /** The invariant holds over every run of interleaved, faulty attempts. */
  lemma {:induction false} SubjectsStayRight(digest: Digest, w: World, es: seq<Event>)
    requires Consistent(w) && Right(w)
    ensures Right(Run(digest, w, es))
    decreases |es|
  {
    hide Consistent, Right, Next;
    if es != [] {
      NextConsistent(digest, w, es[0]);
      NextRight(digest, w, es[0]);
      SubjectsStayRight(digest, Next(digest, w, es[0]), es[1..]);
    }
  }

  /** So after any run, whatever order the service returns scopes and audiences in, an ensure that succeeds is repeated
      by one that writes nothing exactly if every slot bound is the one its reference leads to without faults; no
      outcomes make a later ensure write exactly if the account is granted everything its references may lead to; and
      both hold where a failed lookup makes no difference. */
  lemma QuietAfterRuns(digest: Digest, w: World, es: seq<Event>, want: EnsureInput, script: Script, s2: State)
    requires Consistent(w) && Right(w)
    requires var s := Run(digest, w, es).state;
             && Exec(digest, StartEnsure(want), s, script).0.Ensured?
             && Reordered(Exec(digest, StartEnsure(want), s, script).1, s2)
    ensures var end := Exec(digest, StartEnsure(want), Run(digest, w, es).state, script).0;
            Quiet(digest, StartEnsure(want), s2, []) && Exec(digest, StartEnsure(want), s2, []) == (end, s2, []) <==>
              AllLead(s2.directory, want, end.task.bound)
    ensures var end := Exec(digest, StartEnsure(want), Run(digest, w, es).state, script).0;
            Stability.NeverWrites(digest, want, s2) <==> Stability.Covered(s2, want, end.task.account)
    ensures Stability.Steadfast(s2.directory, want) ==>
              && Stability.NeverWrites(digest, want, s2)
              && Stability.Repeats(digest, want, Run(digest, w, es).state, script, s2)
  {
    hide Consistent, Right, Run, Exec, StartEnsure, Quiet, Reordered, AllLead, Stability.Covered,
      Stability.NeverWrites, Stability.Steadfast;
    SubjectsStayRight(digest, w, es);
    Guarantees.ExactlyOnce(digest, w, es);
    var s := Run(digest, w, es).state;
    SoundWorld(Run(digest, w, es));
    QuiescenceIff(digest, want, s, script, s2);
    FirstCall(digest, want, s, script);
    var end := Exec(digest, StartEnsure(want), s, script).0;
    JobAtEnd(digest, want, s, script);
    FoundRight(s, end.task.job);
    Stability.QuietWhateverFailsIff(digest, want, s, script, s2);
    if Stability.Steadfast(s2.directory, want) { Stability.SteadfastRepeats(digest, want, s, script, s2); }
  }

  lemma SoundWorld(w: World)
    requires Consistent(w)
    ensures Sound(w.state)
    ensures Right(w) ==> RightSubjects(w.state)
  {}

  lemma FoundRight(s: State, j: Job)
    requires RightSubjects(s) && FormedJob(j)
    ensures Find(s.identities, j.Labels()).Some? ==> Find(s.identities, j.Labels()).value.info.subject == j.subject
  {
    hide LabelsMatch, OwnershipLabels, BuildSubject;
    FindFacts(s.identities, j.Labels());
  }

  lemma {:induction false} ExecKeepsForm(digest: Digest, p: Position, s: State, script: Script)
    requires Formed(p)
    ensures Formed(Exec(digest, p, s, script).0)
    decreases Stage(p), Left(p)
  {
    hide Formed, Advance, Request, Perform;
    if !Terminal(p) {
      var r := Perform(s, Request(p), Head(script));
      StageDrops(digest, p, s, Head(script));
      StepFormed(digest, p, r.1);
      ExecKeepsForm(digest, Advance(digest, p, r.1), r.0, Tail(script));
    }
  }

  lemma JobAtEnd(digest: Digest, want: EnsureInput, s: State, script: Script)
    requires Exec(digest, StartEnsure(want), s, script).0.Ensured?
    ensures FormedJob(Exec(digest, StartEnsure(want), s, script).0.task.job)
  {
    hide Exec, FormedJob, TrimSpace;
    ExecKeepsForm(digest, StartEnsure(want), s, script);
  }
}
