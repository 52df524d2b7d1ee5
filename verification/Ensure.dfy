/** The controller's procedures over the IAM client, in their imperative form (internal/wif/ensure.go),
    each proved to follow the protocol step for step. */
module Ensure {
  import opened Strings
  import opened Subject
  import opened Store
  import opened Protocol
  import opened Resolution
  import Allowlist

  /** The client holds the service's state and the outcomes awaiting its next calls. */
  class IamClient {
    const digest: Digest
    var state: State
    var script: Script

    constructor (digest: Digest, state: State, script: Script)
      ensures this.digest == digest && this.state == state && this.script == script
    {
      this.digest := digest;
      this.state := state;
      this.script := script;
    }

    method Invoke(c: Call) returns (r: Response)
      modifies this
      ensures (state, r) == Perform(old(state), c, Head(old(script)))
      ensures script == Tail(old(script))
    {
      var (s, answer) := Perform(state, c, Head(script));
      state, r, script := s, answer, Tail(script);
    }
  }

  // ---- loops over answers

  method FindProviderAmong(providers: seq<Provider>, cluster: string) returns (choice: Choice)
    ensures choice == SelectProvider(providers, cluster)
  {
    hide LabelsMatch;
    var found: Option<Provider>, n := None, 0;
    for i := 0 to |providers|
      invariant n == |ForCluster(providers[..i], cluster)|
      invariant if n == 0 then found == None else found == Some(ForCluster(providers[..i], cluster)[n - 1])
    {
      assert providers[..i + 1][..i] == providers[..i];
      var p := providers[i];
      if LabelsMatch(p.labels, map[CLUSTER_ID := TrimSpace(cluster)]) {
        n := n + 1;
        found := Some(p);
      }
    }
    assert providers[..|providers|] == providers;
    if n == 0 {
      return NoProvider;
    }
    if n > 1 {
      return SeveralProviders;
    }
    return OneProvider(found.value);
  }

  method FindByLabels<T>(list: seq<Resource<T>>, want: Labels) returns (r: Option<Resource<T>>)
    ensures r == Find(list, want)
  {
    hide LabelsMatch;
    for i := 0 to |list|
      invariant Find(list, want) == Find(list[i..], want)
    {
      assert list[i..][1..] == list[i + 1..];
      if LabelsMatch(list[i].labels, want) {
        return Some(list[i]);
      }
    }
    return None;
  }

  method HasBindingFor(bindings: seq<Binding>, account: string) returns (ok: bool)
    ensures ok == AnyGrantsTo(bindings, account)
  {
    for i := 0 to |bindings|
      invariant forall k | 0 <= k < i :: !GrantsTo(bindings[k], account)
    {
      if bindings[i].info.account.Some? && bindings[i].info.account.value == account {
        assert GrantsTo(bindings[i], account);
        return true;
      }
    }
    return false;
  }

  /** One pass over the policies: an identity match returns at once, the first slug or name match is kept for the
      end. */
  method PickPolicy(policies: seq<Target>, ref: string) returns (r: Option<Target>)
    ensures r == Pick(Policy, policies, ref)
  {
    hide EqualFold;
    var bySlugOrName: Option<Target> := None;
    for i := 0 to |policies|
      invariant FirstById(policies, ref) == FirstById(policies[i..], ref)
      invariant FirstBySlugOrName(policies, ref) ==
        if bySlugOrName.Some? then bySlugOrName else FirstBySlugOrName(policies[i..], ref)
    {
      assert policies[i..][1..] == policies[i + 1..];
      var p := policies[i];
      if EqualFold(p.id, ref) {
        return Some(p);
      }
      if bySlugOrName.None? && (EqualFold(p.slug, ref) || EqualFold(p.name, ref)) {
        bySlugOrName := Some(p);
      }
    }
    return bySlugOrName;
  }

  method PickRole(roles: seq<Target>, ref: string) returns (r: Option<Target>)
    ensures r == Pick(Role, roles, ref)
  {
    hide EqualFold;
    for i := 0 to |roles|
      invariant FirstByAny(roles, ref) == FirstByAny(roles[i..], ref)
    {
      assert roles[i..][1..] == roles[i + 1..];
      var x := roles[i];
      if EqualFold(x.id, ref) || EqualFold(x.slug, ref) || EqualFold(x.name, ref) {
        return Some(x);
      }
    }
    return None;
  }

  // ---- procedures

  method ResolveReference(c: IamClient, kind: Kind, ref: string) returns (r: Result<Target>)
    modifies c
    ensures c.state == old(c.state)
    ensures (r, c.script) == Answered(c.state.directory, kind, TrimSpace(ref), old(c.script))
  {
    hide TrimSpace, Pick;
    var wanted := TrimSpace(ref);
    var answer := c.Invoke(GetTarget(kind, wanted));
    if Resolves(kind, answer) {
      return Success(answer.target);
    }
    answer := c.Invoke(ListTargets(kind));
    if !answer.Targets? {
      return Failure(CallFailed);
    }
    var found: Option<Target>;
    if kind == Policy {
      found := PickPolicy(answer.targets, wanted);
    } else {
      found := PickRole(answer.targets, wanted);
    }
    if found.None? {
      return Failure(NotFound(kind));
    }
    return Success(found.value);
  }

  lemma DropSearchFollows(digest: Digest, g: Cleanup, account: string, kind: Kind, s: State, script: Script)
    ensures var r := if Head(script) != Ok then None else Pick(kind, s.directory.Listed(kind), g.Ref(kind));
            Exec(digest, DropSearch(g, account, kind), s, script)
              == Exec(digest, if r.None? then DropAfter(g, account, kind)
                              else DropListBindings(g, account, Slot(kind, r.value.id)), s, Tail(script))
  {
    hide TrimSpace, Pick, DropAfter, Exec;
    ExecStep(digest, DropSearch(g, account, kind), s, script);
  }

  lemma DropLookUpFollows(digest: Digest, g: Cleanup, account: string, kind: Kind, s: State, script: Script)
    ensures var d, direct := s.directory, Slot(kind, g.Ref(kind));
            Exec(digest, DropLookUp(g, account, kind), s, script)
              == Exec(digest,
                      if Head(script) == Ok && direct in d.direct && (kind == Role || !Blank(d.direct[direct].id))
                      then DropListBindings(g, account, Slot(kind, d.direct[direct].id))
                      else DropSearch(g, account, kind), s, Tail(script))
  {
    hide TrimSpace, Exec;
    ExecStep(digest, DropLookUp(g, account, kind), s, script);
  }

  lemma DropResolutionFollows(digest: Digest, g: Cleanup, account: string, kind: Kind, s: State, script: Script)
    ensures var (r, rest) := Answered(s.directory, kind, g.Ref(kind), script);
            Exec(digest, DropLookUp(g, account, kind), s, script)
              == Exec(digest, AfterDropResolution(g, account, kind, r), s, rest)
  {
    hide TrimSpace, Pick, DropAfter, Exec;
    DropLookUpFollows(digest, g, account, kind, s, script);
    DropSearchFollows(digest, g, account, kind, s, Tail(script));
  }

  function AfterDropResolution(g: Cleanup, account: string, kind: Kind, r: Result<Target>): Position {
    match r
    case Success(target) => DropListBindings(g, account, Slot(kind, target.id))
    case Failure(_) => DropAfter(g, account, kind)
  }

  function AfterAccount(job: Job, r: Result<string>): Position {
    match r
    case Success(account) => FindIdentity(job, account)
    case Failure(e) => Stopped(e)
  }

  /** Find the owner's service account or create it. */
  method EnsureServiceAccount(c: IamClient, job: Job) returns (r: Result<string>)
    modifies c
    ensures Exec(c.digest, FindAccount(job), old(c.state), old(c.script))
              == Exec(c.digest, AfterAccount(job, r), c.state, c.script)
  {
    hide LabelsMatch, OwnershipLabels, ServiceAccountName, FreshId, Find;
    var answer := c.Invoke(Request(FindAccount(job)));
    if !answer.Accounts? {
      return Failure(CallFailed);
    }
    var existing := FindByLabels(answer.accounts, job.Labels());
    if existing.Some? {
      return Success(existing.value.id);
    }
    assert Exec(c.digest, FindAccount(job), old(c.state), old(c.script))
             == Exec(c.digest, MakeAccount(job), c.state, c.script);
    answer := c.Invoke(Request(MakeAccount(job)));
    if !answer.OneAccount? {
      return Failure(CallFailed);
    }
    return Success(answer.account.id);
  }

  function AfterIdentity(job: Job, account: string, r: Result<string>): Position {
    match r
    case Success(identity) => FromPolicy(Task(job, account, identity, []))
    case Failure(e) => Stopped(e)
  }

  /** Find the owner's federated identity; create it, or update it where it differs. */
  method EnsureFederatedIdentity(c: IamClient, job: Job, account: string) returns (r: Result<string>)
    modifies c
    ensures Exec(c.digest, FindIdentity(job, account), old(c.state), old(c.script))
         == Exec(c.digest, AfterIdentity(job, account, r), c.state, c.script)
  {
    hide LabelsMatch, OwnershipLabels, FederatedIdentityName, Description, FreshId, Find, NeedsUpdate, FromPolicy,
      Lookup, Replace;
    var answer := c.Invoke(Request(FindIdentity(job, account)));
    if !answer.Identities? {
      return Failure(CallFailed);
    }
    var existing := FindByLabels(answer.identities, job.Labels());
    if existing.None? {
      assert Exec(c.digest, FindIdentity(job, account), old(c.state), old(c.script))
          == Exec(c.digest, MakeIdentity(job, account), c.state, c.script);
      answer := c.Invoke(Request(MakeIdentity(job, account)));
    } else if !NeedsUpdate(existing.value, job) {
      return Success(existing.value.id);
    } else {
      assert Exec(c.digest, FindIdentity(job, account), old(c.state), old(c.script))
          == Exec(c.digest, FixIdentity(job, account, existing.value.id), c.state, c.script);
      answer := c.Invoke(Request(FixIdentity(job, account, existing.value.id)));
    }
    if !answer.OneIdentity? {
      return Failure(CallFailed);
    }
    return Success(answer.identity.id);
  }

  function AfterBinding(t: Task, slot: Slot, r: Result<()>): Position {
    match r
    case Success(_) => WithBinding(t, slot)
    case Failure(e) => Stopped(e)
  }

  /** Create the binding unless the slot already grants to the account. */
  method EnsureBinding(c: IamClient, t: Task, slot: Slot) returns (r: Result<()>)
    modifies c
    ensures Exec(c.digest, CheckBinding(t, slot), old(c.state), old(c.script))
              == Exec(c.digest, AfterBinding(t, slot, r), c.state, c.script)
  {
    hide LabelsMatch, OwnershipLabels, BindingName, FreshId, AnyGrantsTo, WithBinding;
    var answer := c.Invoke(ListBindings(slot));
    if !answer.Bindings? {
      return Failure(CallFailed);
    }
    var ok := HasBindingFor(answer.bindings, t.account);
    if ok {
      return Success(());
    }
    assert Exec(c.digest, CheckBinding(t, slot), old(c.state), old(c.script))
             == Exec(c.digest, MakeBinding(t, slot), c.state, c.script);
    answer := c.Invoke(Request(MakeBinding(t, slot)));
    if !answer.Done? {
      return Failure(CallFailed);
    }
    return Success(());
  }

  function AfterReference(t: Task, r: Result<Task>, kind: Kind): Position {
    match r
    case Success(t') => if kind == Policy then FromRole(t') else Ensured(t')
    case Failure(e) => Stopped(e)
  }

  /** One reference of the input: resolve, check the allowlist, bind. */
  method EnsureReference(c: IamClient, t: Task, kind: Kind) returns (r: Result<Task>)
    requires t.job.want.Ref(kind) != ""
    modifies c
    ensures Exec(c.digest, LookUp(t, kind), old(c.state), old(c.script))
              == Exec(c.digest, AfterReference(t, r, kind), c.state, c.script)
  {
    hide TrimSpace, FromRole, Allowlist.Permitted, Answered, Exec;
    ResolutionFollows(c.digest, t, kind, c.state, c.script);
    TrimTwice(if kind == Policy then t.job.want.policyRef else t.job.want.roleRef);
    var ref := t.job.want.Ref(kind);
    var found := ResolveReference(c, kind, ref);
    if found.Failure? {
      return Failure(found.error);
    }
    var target := found.value;
    var permitted := Allowlist.CheckRefAllowlist(ref, t.job.want.Allowed(kind), [target.id, target.slug, target.name]);
    if !permitted {
      return Failure(NotAllowed(kind));
    }
    var slot := Slot(kind, target.id);
    var done := EnsureBinding(c, t, slot);
    if done.Failure? {
      return Failure(done.error);
    }
    return Success(t.(bound := t.bound + [slot]));
  }

  function AnswerAt(p: Position): Result<EnsureResult> {
    match p
    case Ensured(t) => Success(ResultOf(t))
    case Stopped(e) => Failure(e)
    case _ => Failure(Invalid)
  }

  function Finish(r: Result<Task>): Position {
    match r
    case Success(t) => Ensured(t)
    case Failure(e) => Stopped(e)
  }

  /** The policy reference, then the role reference, where the input has them. */
  method EnsureReferences(c: IamClient, t: Task) returns (r: Result<Task>)
    modifies c
    ensures Exec(c.digest, FromPolicy(t), old(c.state), old(c.script)) == Exec(c.digest, Finish(r), c.state, c.script)
  {
    hide TrimSpace, Exec;
    var t' := t;
    if t.job.want.Ref(Policy) != "" {
      r := EnsureReference(c, t, Policy);
      if r.Failure? {
        return r;
      }
      t' := r.value;
    }
    assert Exec(c.digest, FromPolicy(t), old(c.state), old(c.script))
             == Exec(c.digest, FromRole(t'), c.state, c.script);
    if t'.job.want.Ref(Role) == "" {
      return Success(t');
    }
    r := EnsureReference(c, t', Role);
  }

  /** The service account, the federated identity and the bindings of a job. */
  method EnsureResources(c: IamClient, job: Job) returns (r: Result<Task>)
    modifies c
    ensures Exec(c.digest, FindAccount(job), old(c.state), old(c.script))
              == Exec(c.digest, Finish(r), c.state, c.script)
  {
    hide Exec, FromPolicy;
    var account := EnsureServiceAccount(c, job);
    if account.Failure? {
      return Failure(account.error);
    }
    var identity := EnsureFederatedIdentity(c, job, account.value);
    if identity.Failure? {
      return Failure(identity.error);
    }
    r := EnsureReferences(c, Task(job, account.value, identity.value, []));
  }

  /** Find the one provider of the cluster and derive the owner's subject and key from it. */
  method PlanJob(c: IamClient, want: EnsureInput) returns (r: Result<Job>)
    requires want.Valid()
    modifies c
    ensures Exec(c.digest, StartEnsure(want), old(c.state), old(c.script))
              == Exec(c.digest, AfterPlan(r), c.state, c.script)
  {
    hide TrimSpace, SelectProvider, BuildSubject, NormalizeIssuer, ResourceKey, Exec;
    FirstStep(c.digest, want, c.state, c.script);
    var answer := c.Invoke(ListProviders);
    if !answer.Providers? {
      return Failure(CallFailed);
    }
    var choice := FindProviderAmong(answer.providers, want.cluster);
    if choice.NoProvider? {
      return Failure(ProviderNotReady);
    }
    if choice.SeveralProviders? {
      return Failure(ManyProviders);
    }
    var issuer := NormalizeIssuer(choice.provider.issuer);
    if issuer == "" {
      return Failure(EmptyIssuer);
    }
    var subject := BuildSubject(want.namespace, want.name);
    if subject.None? {
      return Failure(Invalid);
    }
    var key := ResourceKey(c.digest, want.namespace, want.name, subject.value, issuer);
    return Success(Job(want, choice.provider, issuer, subject.value, key));
  }

  function AfterPlan(r: Result<Job>): Position {
    match r
    case Success(job) => FindAccount(job)
    case Failure(e) => Stopped(e)
  }

  /** The whole chain: provider, service account, federated identity, policy binding, role binding. */
  method EnsureWorkloadIdentity(c: IamClient, want: EnsureInput) returns (r: Result<EnsureResult>)
    modifies c
    ensures var (p, s, rest) := Exec(c.digest, StartEnsure(want), old(c.state), old(c.script));
            c.state == s && c.script == rest && r == AnswerAt(p) && (p.Ensured? || p.Stopped?)
  {
    hide EnsureInput.Valid, ResultOf, Exec;
    if !want.Valid() {
      ExecEnd(c.digest, Stopped(Invalid), c.state, c.script);
      return Failure(Invalid);
    }
    var job := PlanJob(c, want);
    if job.Failure? {
      ExecEnd(c.digest, Stopped(job.error), c.state, c.script);
      return Failure(job.error);
    }
    var t := EnsureResources(c, job.value);
    ExecEnd(c.digest, Finish(t), c.state, c.script);
    if t.Failure? {
      return Failure(t.error);
    }
    return Success(ResultOf(t.value));
  }

  lemma FirstStep(digest: Digest, want: EnsureInput, s: State, script: Script)
    ensures Exec(digest, FindProvider(want), s, script)
         == Exec(digest,
                 if Head(script) == Ok then WithProvider(digest, want, SelectProvider(s.providers, want.cluster))
                 else Stopped(CallFailed), s, Tail(script))
  {
    hide SelectProvider, BuildSubject, NormalizeIssuer, ResourceKey;
  }

  function AfterDrop(p: Position, r: Result<()>): Position {
    match r
    case Success(_) => p
    case Failure(e) => Stopped(e)
  }

  /** Delete the controller's bindings of the account from one slot, going through the list as it was answered. */
  method DeleteBindingsFor(c: IamClient, g: Cleanup, account: string, slot: Slot) returns (r: Result<()>)
    modifies c
    ensures Exec(c.digest, DropListBindings(g, account, slot), old(c.state), old(c.script))
         == Exec(c.digest, AfterDrop(DropAfter(g, account, slot.kind), r), c.state, c.script)
  {
    hide LabelsMatch, OwnershipLabels, Managed, DropAfter, Without, Exec;
    ExecStep(c.digest, DropListBindings(g, account, slot), c.state, c.script);
    var answer := c.Invoke(ListBindings(slot));
    if !answer.Bindings? {
      return Failure(CallFailed);
    }
    var bindings := answer.bindings;
    assert bindings[0..] == bindings;
    for i := 0 to |bindings|
      invariant Exec(c.digest, DropListBindings(g, account, slot), old(c.state), old(c.script))
             == Exec(c.digest, DropRest(g, account, slot, Removable(bindings[i..], account)), c.state, c.script)
    {
      var b := bindings[i];
      assert bindings[i..][1..] == bindings[i + 1..];
      if b.info.account.Some? && b.info.account.value == account {
        if Managed(b.labels) {
          var left := Removable(bindings[i + 1..], account);
          assert Removable(bindings[i..], account) == [b] + left;
          assert ([b] + left)[1..] == left;
          ExecStep(c.digest, DropBinding(g, account, slot, [b] + left), c.state, c.script);
          answer := c.Invoke(DeleteBinding(slot, b.id));
          if !answer.Done? {
            return Failure(CallFailed);
          }
        }
      }
    }
    return Success(());
  }

  method DropReference(c: IamClient, g: Cleanup, account: string, kind: Kind) returns (r: Result<()>)
    modifies c
    ensures Exec(c.digest, if g.Ref(kind) != "" then DropLookUp(g, account, kind) else DropAfter(g, account, kind),
                 old(c.state), old(c.script))
         == Exec(c.digest, AfterDrop(DropAfter(g, account, kind), r), c.state, c.script)
  {
    hide TrimSpace, DropAfter, Answered, Exec;
    var ref := if kind == Policy then g.policyRef else g.roleRef;
    if TrimSpace(ref) == "" {
      return Success(());
    }
    DropResolutionFollows(c.digest, g, account, kind, c.state, c.script);
    var found := ResolveReference(c, kind, ref);
    if found.Failure? {
      return Success(());
    }
    r := DeleteBindingsFor(c, g, account, Slot(kind, found.value.id));
  }

  /** The reverse chain: federated identity, bindings, service account. */
  method DeleteWorkloadIdentity(c: IamClient, namespace: string, name: string, issuer: string, roleRef: string,
                                policyRef: string)
    returns (r: Result<()>)
    modifies c
    ensures var (p, s, rest) := Exec(c.digest, StartDelete(c.digest, namespace, name, issuer, roleRef, policyRef),
                                     old(c.state), old(c.script));
            c.state == s && c.script == rest && r == DropAnswerAt(p) && (p.Dropped? || p.Stopped?)
  {
    hide TrimSpace, BuildSubject, ResourceKey, Exec, OwnershipLabels, Find, DropFromPolicy;
    var subject := BuildSubject(namespace, name);
    if subject.None? {
      ExecEnd(c.digest, Stopped(Invalid), c.state, c.script);
      return Failure(Invalid);
    }
    var g := Cleanup(namespace, name, ResourceKey(c.digest, namespace, name, subject.value, issuer), roleRef,
                     policyRef);
    r := DropFederatedIdentity(c, g);
    if r.Failure? {
      ExecEnd(c.digest, Stopped(r.error), c.state, c.script);
      return r;
    }
    DropFindAccountStep(c.digest, g, c.state, c.script);
    var answer := c.Invoke(ListAccounts);
    if !answer.Accounts? {
      ExecEnd(c.digest, Stopped(CallFailed), c.state, c.script);
      return Failure(CallFailed);
    }
    var existing := FindByLabels(answer.accounts, g.Labels());
    if existing.None? {
      ExecEnd(c.digest, Dropped(g), c.state, c.script);
      return Success(());
    }
    r := DropAccountResources(c, g, existing.value.id);
    ExecEnd(c.digest, AfterDrop(Dropped(g), r), c.state, c.script);
    if r.Success? {
      return Success(());
    }
  }

  function DropAnswerAt(p: Position): Result<()> {
    match p
    case Stopped(e) => Failure(e)
    case _ => Success(())
  }

  /** The bindings of both references, then the service account itself. */
  method DropAccountResources(c: IamClient, g: Cleanup, account: string) returns (r: Result<()>)
    modifies c
    ensures Exec(c.digest, DropFromPolicy(g, account), old(c.state), old(c.script))
         == Exec(c.digest, AfterDrop(Dropped(g), r), c.state, c.script)
  {
    hide TrimSpace, Exec;
    r := DropReference(c, g, account, Policy);
    if r.Failure? {
      return r;
    }
    r := DropReference(c, g, account, Role);
    if r.Failure? {
      return r;
    }
    r := DropServiceAccount(c, g, account);
  }

  method DropFederatedIdentity(c: IamClient, g: Cleanup) returns (r: Result<()>)
    modifies c
    ensures Exec(c.digest, DropFindIdentity(g), old(c.state), old(c.script))
         == Exec(c.digest, AfterDrop(DropFindAccount(g), r), c.state, c.script)
  {
    hide LabelsMatch, OwnershipLabels, Find, Without;
    var answer := c.Invoke(ListIdentities);
    if !answer.Identities? {
      return Failure(CallFailed);
    }
    var existing := FindByLabels(answer.identities, g.Labels());
    if existing.Some? {
      assert Exec(c.digest, DropFindIdentity(g), old(c.state), old(c.script))
          == Exec(c.digest, DropIdentity(g, existing.value.id), c.state, c.script);
      answer := c.Invoke(DeleteIdentity(existing.value.id));
      if !answer.Done? {
        return Failure(CallFailed);
      }
    }
    return Success(());
  }

  method DropServiceAccount(c: IamClient, g: Cleanup, account: string) returns (r: Result<()>)
    modifies c
    ensures Exec(c.digest, DropAccount(g, account), old(c.state), old(c.script))
         == Exec(c.digest, AfterDrop(Dropped(g), r), c.state, c.script)
  {
    hide Without;
    var answer := c.Invoke(DeleteAccount(account));
    if !answer.Done? {
      return Failure(CallFailed);
    }
    return Success(());
  }

  lemma DropFindAccountStep(digest: Digest, g: Cleanup, s: State, script: Script)
    ensures Exec(digest, DropFindAccount(g), s, script)
         == Exec(digest,
                 if Head(script) != Ok then Stopped(CallFailed)
                 else match Find(s.accounts, g.Labels())
                      case None => Dropped(g)
                      case Some(x) => DropFromPolicy(g, x.id),
                 s, Tail(script))
  {
    hide OwnershipLabels, LabelsMatch, Find, TrimSpace;
  }
}
