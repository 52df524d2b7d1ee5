/** Resolving a policy or role reference, and what resolving again yields. */
module Resolution {
  import opened Strings
  import opened Subject
  import opened Store
  import opened Protocol
  import Allowlist

  predicate ByIdentity(t: Target, ref: string) {
    EqualFold(t.id, ref)
  }

  predicate BySlugOrName(t: Target, ref: string) {
    EqualFold(t.slug, ref) || EqualFold(t.name, ref)
  }

  lemma {:induction false} FirstByIdFacts(ts: seq<Target>, ref: string) returns (i: nat)
    ensures FirstById(ts, ref).None? <==> forall t | t in ts :: !ByIdentity(t, ref)
    ensures FirstById(ts, ref).Some? ==>
              i < |ts| && ts[i] == FirstById(ts, ref).value && ByIdentity(ts[i], ref)
              && forall k | 0 <= k < i :: !ByIdentity(ts[k], ref)
  {
    i := 0;
    if ts != [] {
      assert ts == [ts[0]] + ts[1..];
      var j := FirstByIdFacts(ts[1..], ref);
      if !ByIdentity(ts[0], ref) { i := j + 1; }
    }
  }

  lemma {:induction false} FirstBySlugOrNameFacts(ts: seq<Target>, ref: string) returns (i: nat)
    ensures FirstBySlugOrName(ts, ref).None? <==> forall t | t in ts :: !BySlugOrName(t, ref)
    ensures FirstBySlugOrName(ts, ref).Some? ==>
              i < |ts| && ts[i] == FirstBySlugOrName(ts, ref).value && BySlugOrName(ts[i], ref)
              && forall k | 0 <= k < i :: !BySlugOrName(ts[k], ref)
  {
    i := 0;
    if ts != [] {
      assert ts == [ts[0]] + ts[1..];
      var j := FirstBySlugOrNameFacts(ts[1..], ref);
      if !BySlugOrName(ts[0], ref) { i := j + 1; }
    }
  }

  /** A policy is found exactly when something in the list matches; an identity match anywhere wins over slugs and
      names, and within each class the first match wins. */
  lemma PolicyPick(ts: seq<Target>, ref: string) returns (i: nat)
    ensures var r := Pick(Policy, ts, ref);
            && (r.None? <==> forall t | t in ts :: !ByIdentity(t, ref) && !BySlugOrName(t, ref))
            && (r.Some? ==> i < |ts| && ts[i] == r.value)
            && (r.Some? && (exists t | t in ts :: ByIdentity(t, ref)) ==>
                  ByIdentity(ts[i], ref) && forall k | 0 <= k < i :: !ByIdentity(ts[k], ref))
            && (r.Some? && (forall t | t in ts :: !ByIdentity(t, ref)) ==>
                  BySlugOrName(ts[i], ref) && forall k | 0 <= k < i :: !BySlugOrName(ts[k], ref))
  {
    hide EqualFold;
    var a := FirstByIdFacts(ts, ref);
    var b := FirstBySlugOrNameFacts(ts, ref);
    i := if FirstById(ts, ref).Some? then a else b;
  }

  /** A role is the first in the list to match in any way. */
  lemma {:induction false} RolePick(ts: seq<Target>, ref: string) returns (i: nat)
    ensures var r := Pick(Role, ts, ref);
            && (r.None? <==> forall t | t in ts :: !ByIdentity(t, ref) && !BySlugOrName(t, ref))
            && (r.Some? ==> i < |ts| && ts[i] == r.value && (ByIdentity(ts[i], ref) || BySlugOrName(ts[i], ref)))
            && (r.Some? ==> forall k | 0 <= k < i :: !ByIdentity(ts[k], ref) && !BySlugOrName(ts[k], ref))
  {
    hide EqualFold;
    i := 0;
    if ts != [] {
      assert ts == [ts[0]] + ts[1..];
      var j := RolePick(ts[1..], ref);
      if !ByIdentity(ts[0], ref) && !BySlugOrName(ts[0], ref) { i := j + 1; }
    }
  }

  /** No slug or name match stands before the first identity match. */
  predicate IdentityFirst(ts: seq<Target>, ref: string) {
    forall i, j | 0 <= i < j < |ts| && BySlugOrName(ts[i], ref) && ByIdentity(ts[j], ref) ::
      exists k | 0 <= k <= i :: ByIdentity(ts[k], ref)
  }

  /** On every list the two rules pick the same, or both nothing, exactly when no slug or name match stands before the
      first identity match: a role's identity has no preference. */
  lemma RolesLackIdentityPreference(ts: seq<Target>, ref: string)
    ensures Pick(Role, ts, ref) == Pick(Policy, ts, ref) <==> IdentityFirst(ts, ref)
  {
    hide EqualFold, Pick;
    var r := RolePick(ts, ref);
    var p := PolicyPick(ts, ref);
    if IdentityFirst(ts, ref) {
      if Pick(Role, ts, ref).Some? {
        assert Pick(Policy, ts, ref).Some? by { assert ts[r] in ts; }
        assert ts[p] in ts;
        SamePlace(ts, ref, r, p);
      }
    } else {
      var i, j :| 0 <= i < j < |ts| && BySlugOrName(ts[i], ref) && ByIdentity(ts[j], ref)
        && !(exists k | 0 <= k <= i :: ByIdentity(ts[k], ref));
      assert ts[j] in ts && r <= i;
      assert !ByIdentity(ts[r], ref) && ByIdentity(ts[p], ref);
    }
  }

  lemma SamePlace(ts: seq<Target>, ref: string, r: nat, p: nat)
    requires r < |ts| && p < |ts| && (ByIdentity(ts[r], ref) || BySlugOrName(ts[r], ref))
    requires ByIdentity(ts[p], ref) || BySlugOrName(ts[p], ref)
    requires forall k | 0 <= k < r :: !ByIdentity(ts[k], ref) && !BySlugOrName(ts[k], ref)
    requires ByIdentity(ts[p], ref) ==> forall k | 0 <= k < p :: !ByIdentity(ts[k], ref)
    requires !ByIdentity(ts[p], ref) ==>
               (forall t | t in ts :: !ByIdentity(t, ref)) && forall k | 0 <= k < p :: !BySlugOrName(ts[k], ref)
    requires IdentityFirst(ts, ref)
    ensures r == p
  {
    hide ByIdentity, BySlugOrName;
    assert r <= p;
    if !ByIdentity(ts[p], ref) { assert ts[r] in ts; }
  }

  // ---- a whole resolution

  /** What a resolution answers and how far it uses up the script. */
  function Answered(d: Directory, kind: Kind, ref: string, script: Script): (Result<Target>, Script) {
    var direct := Slot(kind, ref);
    if Head(script) == Ok && direct in d.direct && (kind == Role || !Blank(d.direct[direct].id)) then
      (Success(d.direct[direct]), Tail(script))
    else
      var rest := Tail(script);
      if Head(rest) != Ok then (Failure(CallFailed), Tail(rest))
      else
        match Pick(kind, d.Listed(kind), ref)
        case None => (Failure(NotFound(kind)), Tail(rest))
        case Some(t) => (Success(t), Tail(rest))
  }

  /** The same without faults. */
  function Resolve(d: Directory, kind: Kind, ref: string): Option<Target> {
    match Answered(d, kind, ref, []).0
    case Success(t) => Some(t)
    case Failure(_) => None
  }

  lemma AnsweredInFull(d: Directory, kind: Kind, ref: string)
    ensures Answered(d, kind, ref, []).1 == []
  {}

  /** Without faults, the reference resolves to this identity. */
  predicate ResolvesTo(d: Directory, kind: Kind, ref: string, id: string) {
    var r := Resolve(d, kind, ref);
    r.Some? && r.value.id == id
  }

  /** Without faults, the reference resolves to something the allowlist permits. */
  predicate Grantable(d: Directory, want: EnsureInput, kind: Kind) {
    var r := Resolve(d, kind, want.Ref(kind));
    r.Some? && Allowlist.Permitted(want.Allowed(kind), want.Ref(kind), [r.value.id, r.value.slug, r.value.name])
  }

  /** Where a resolution leads to. */
  function AfterResolution(t: Task, kind: Kind, r: Result<Target>): Position {
    match r
    case Success(target) => WithTarget(t, kind, target)
    case Failure(e) => Stopped(e)
  }

  lemma ResolutionFollows(digest: Digest, t: Task, kind: Kind, s: State, script: Script)
    ensures var (r, rest) := Answered(s.directory, kind, t.job.want.Ref(kind), script);
            Exec(digest, LookUp(t, kind), s, script) == Exec(digest, AfterResolution(t, kind, r), s, rest)
  {
    hide TrimSpace, Pick, WithTarget, Exec;
    ExecStep(digest, LookUp(t, kind), s, script);
    if !Resolves(kind, Perform(s, Request(LookUp(t, kind)), Head(script)).1) {
      ExecStep(digest, Search(t, kind), s, Tail(script));
    }
  }

  ghost predicate UniqueIdentities(ts: seq<Target>) {
    forall i, j | 0 <= i < j < |ts| :: !EqualFold(ts[i].id, ts[j].id)
  }

  /** Direct lookup is by identity. */
  ghost predicate DirectById(d: Directory) {
    forall slot | slot in d.direct :: d.direct[slot].id == slot.id
  }

  lemma PickByIdentity(ts: seq<Target>, t: Target)
    requires UniqueIdentities(ts) && t in ts
    ensures Pick(Policy, ts, t.id) == Some(t)
  {
    hide EqualFold;
    EqualFoldReflexive(t.id);
    var i := FirstByIdFacts(ts, t.id);
    assert ByIdentity(t, t.id);
    var j :| 0 <= j < |ts| && ts[j] == t;
    assert ByIdentity(ts[i], t.id);
    assert i == j;
  }

  lemma EqualFoldReflexive(s: string)
    ensures EqualFold(s, s)
  {}

  /** The identity a policy resolves to resolves to a policy with that identity. */
  lemma ResolveAgain(d: Directory, ref: string, t: Target)
    requires DirectById(d) && UniqueIdentities(d.policies)
    requires Resolve(d, Policy, ref) == Some(t) && !Blank(t.id)
    ensures Resolve(d, Policy, t.id).Some? && Resolve(d, Policy, t.id).value.id == t.id
  {
    hide EqualFold, TrimSpace;
    if Slot(Policy, t.id) !in d.direct {
      assert Pick(Policy, d.policies, ref) == Some(t);
      var i := PolicyPick(d.policies, ref);
      PickByIdentity(d.policies, t);
    }
  }
}
