/** The ensure and delete protocols of internal/wif/ensure.go, one IAM call per step.
    A position in the protocol knows the call it makes next and where each answer leads. */
module Protocol {
  import opened Strings
  import opened Subject
  import opened Sorting
  import opened Store
  import Allowlist

  datatype EnsureInput = EnsureInput(
    namespace: string, name: string, roleRef: string, policyRef: string, nameOverride: string,
    scopes: seq<string>, audiences: seq<string>, cluster: string,
    allowedPolicies: seq<string>, allowedRoles: seq<string>)
  {
    function Ref(kind: Kind): string {
      TrimSpace(if kind == Policy then policyRef else roleRef)
    }

    function Allowed(kind: Kind): seq<string> {
      if kind == Policy then allowedPolicies else allowedRoles
    }

    predicate Valid() {
      && !Blank(namespace) && !Blank(name)
      && (Ref(Role) != "" || Ref(Policy) != "")
      && Ref(Role) != "*" && Ref(Policy) != "*"
      && !Blank(cluster) && audiences != [] && scopes != []
    }
  }

  /** An input whose provider is known. */
  datatype Job = Job(want: EnsureInput, provider: Provider, issuer: string, subject: string, key: string) {
    function Labels(): Labels {
      OwnershipLabels(key, want.namespace, want.name)
    }
  }

  /** A job whose service account and federated identity are in place, with the slots bound so far. */
  datatype Task = Task(job: Job, account: string, identity: string, bound: seq<Slot>)

  datatype EnsureResult = EnsureResult(
    provider: string, account: string, identity: string, policy: string, issuer: string, subject: string, key: string)

  /** The identity of the bound policy, never its slug or name. */
  function BoundPolicy(bound: seq<Slot>): string {
    if bound != [] && bound[0].kind == Policy then bound[0].id else ""
  }

  function ResultOf(t: Task): EnsureResult {
    EnsureResult(t.job.provider.id, t.account, t.identity, BoundPolicy(t.bound), t.job.issuer, t.job.subject, t.job.key)
  }

  /** What a deletion is asked to remove. */
  datatype Cleanup = Cleanup(namespace: string, name: string, key: string, roleRef: string, policyRef: string) {
    function Labels(): Labels {
      OwnershipLabels(key, namespace, name)
    }

    function Ref(kind: Kind): string {
      TrimSpace(if kind == Policy then policyRef else roleRef)
    }
  }

  datatype Error =
    | Invalid
    | ProviderNotReady
    | ManyProviders
    | EmptyIssuer
    | CallFailed
    | NotFound(kind: Kind)
    | NotAllowed(kind: Kind)

  datatype Result<+T> = Success(value: T) | Failure(error: Error)

  datatype Position =
    // ensure
    | FindProvider(want: EnsureInput)
    | FindAccount(job: Job)
    | MakeAccount(job: Job)
    | FindIdentity(job: Job, account: string)
    | MakeIdentity(job: Job, account: string)
    | FixIdentity(job: Job, account: string, identity: string)
    | LookUp(task: Task, kind: Kind)
    | Search(task: Task, kind: Kind)
    | CheckBinding(task: Task, slot: Slot)
    | MakeBinding(task: Task, slot: Slot)
    | Ensured(task: Task)
    // delete
    | DropFindIdentity(goal: Cleanup)
    | DropIdentity(goal: Cleanup, identity: string)
    | DropFindAccount(goal: Cleanup)
    | DropLookUp(goal: Cleanup, account: string, kind: Kind)
    | DropSearch(goal: Cleanup, account: string, kind: Kind)
    | DropListBindings(goal: Cleanup, account: string, slot: Slot)
    | DropBinding(goal: Cleanup, account: string, slot: Slot, rest: seq<Binding>)
    | DropAccount(goal: Cleanup, account: string)
    | Dropped(goal: Cleanup)
    // either
    | Stopped(error: Error)

  predicate Terminal(p: Position) {
    p.Ensured? || p.Dropped? || p.Stopped?
  }

  /** A position of a deletion. */
  predicate Deleting(p: Position) {
    p.DropFindIdentity? || p.DropIdentity? || p.DropFindAccount? || p.DropLookUp? || p.DropSearch?
    || p.DropListBindings?
    || p.DropBinding? || p.DropAccount? || p.Dropped?
  }

  /** A position of a deletion that has not found its account yet. */
  predicate Starting(p: Position) {
    p.DropFindIdentity? || p.DropIdentity? || p.DropFindAccount?
  }

  /** A position of an ensure that deals with a reference. */
  predicate Referring(p: Position) {
    p.LookUp? || p.Search? || p.CheckBinding? || p.MakeBinding?
  }

  // ---- choices made from an answer

  datatype Choice = NoProvider | OneProvider(provider: Provider) | SeveralProviders

  function ForCluster(providers: seq<Provider>, cluster: string): seq<Provider> {
    if providers == [] then []
    else
      var last := providers[|providers| - 1];
      ForCluster(providers[..|providers| - 1], cluster) +
        if LabelsMatch(last.labels, map[CLUSTER_ID := TrimSpace(cluster)]) then [last] else []
  }

  /** Exactly one provider must carry the cluster's label. */
  function SelectProvider(providers: seq<Provider>, cluster: string): Choice {
    var found := ForCluster(providers, cluster);
    if |found| == 0 then NoProvider else if |found| == 1 then OneProvider(found[0]) else SeveralProviders
  }

  function FirstById(ts: seq<Target>, ref: string): Option<Target> {
    if ts == [] then None else if EqualFold(ts[0].id, ref) then Some(ts[0]) else FirstById(ts[1..], ref)
  }

  function FirstBySlugOrName(ts: seq<Target>, ref: string): Option<Target> {
    if ts == [] then None
    else if EqualFold(ts[0].slug, ref) || EqualFold(ts[0].name, ref) then Some(ts[0])
    else FirstBySlugOrName(ts[1..], ref)
  }

  function FirstByAny(ts: seq<Target>, ref: string): Option<Target> {
    if ts == [] then None
    else if EqualFold(ts[0].id, ref) || EqualFold(ts[0].slug, ref) || EqualFold(ts[0].name, ref) then Some(ts[0])
    else FirstByAny(ts[1..], ref)
  }

  /** A policy is looked for by identity in the whole list before slug or name count; a role is not. */
  function Pick(kind: Kind, ts: seq<Target>, ref: string): Option<Target> {
    match kind
    case Role => FirstByAny(ts, ref)
    case Policy =>
      var byId := FirstById(ts, ref);
      if byId.Some? then byId else FirstBySlugOrName(ts, ref)
  }

  function Description(subject: string): string {
    "WIF binding for " + subject
  }

  function IdentityName(job: Job): string {
    FederatedIdentityName(job.key, job.want.nameOverride)
  }

  /** Whether a federated identity differs from what the job asks for. */
  predicate NeedsUpdate(x: FederatedIdentity, job: Job) {
    || !SameAfterSort(x.info.scopes, job.want.scopes)
    || !SameAfterSort(x.info.audiences, job.want.audiences)
    || (x.info.matchMode != "" && x.info.matchMode != MATCH_ANY)
    || x.name != IdentityName(job)
    || x.info.description != Description(job.subject)
    || !LabelsMatch(x.labels, job.Labels())
    || x.info.annotatedSubject != job.subject
    || x.info.subject != job.subject
  }

  predicate GrantsTo(b: Binding, account: string) {
    b.info.account == Some(account)
  }

  predicate AnyGrantsTo(bs: seq<Binding>, account: string) {
    exists b | b in bs :: GrantsTo(b, account)
  }

  /** The bindings a deletion removes from one slot. */
  function Removable(bs: seq<Binding>, account: string): seq<Binding> {
    if bs == [] then []
    else if GrantsTo(bs[0], account) && Managed(bs[0].labels) then [bs[0]] + Removable(bs[1..], account)
    else Removable(bs[1..], account)
  }

  // ---- where the protocol starts and goes

  function StartEnsure(want: EnsureInput): Position {
    if want.Valid() then FindProvider(want) else Stopped(Invalid)
  }

  function StartDelete(digest: Digest, namespace: string, name: string, issuer: string,
                       roleRef: string, policyRef: string): Position {
    match BuildSubject(namespace, name)
    case None => Stopped(Invalid)
    case Some(subject) =>
      DropFindIdentity(Cleanup(namespace, name, ResourceKey(digest, namespace, name, subject, issuer), roleRef,
                               policyRef))
  }

  function WithProvider(digest: Digest, want: EnsureInput, choice: Choice): Position {
    match choice
    case NoProvider => Stopped(ProviderNotReady)
    case SeveralProviders => Stopped(ManyProviders)
    case OneProvider(provider) =>
      var issuer := NormalizeIssuer(provider.issuer);
      if issuer == "" then Stopped(EmptyIssuer)
      else
        match BuildSubject(want.namespace, want.name)
        case None => Stopped(Invalid)
        case Some(subject) =>
          FindAccount(Job(want, provider, issuer, subject,
                          ResourceKey(digest, want.namespace, want.name, subject, issuer)))
  }

  function FromRole(t: Task): Position {
    if t.job.want.Ref(Role) != "" then LookUp(t, Role) else Ensured(t)
  }

  function FromPolicy(t: Task): Position {
    if t.job.want.Ref(Policy) != "" then LookUp(t, Policy) else FromRole(t)
  }

  /** A slot is bound: on to the role after a policy, done after a role. */
  function WithBinding(t: Task, slot: Slot): Position {
    var t' := t.(bound := t.bound + [slot]);
    if slot.kind == Policy then FromRole(t') else Ensured(t')
  }

  function WithTarget(t: Task, kind: Kind, target: Target): Position {
    if Allowlist.Permitted(t.job.want.Allowed(kind), t.job.want.Ref(kind), [target.id, target.slug, target.name])
    then CheckBinding(t, Slot(kind, target.id))
    else Stopped(NotAllowed(kind))
  }

  function DropFromRole(c: Cleanup, account: string): Position {
    if c.Ref(Role) != "" then DropLookUp(c, account, Role) else DropAccount(c, account)
  }

  function DropFromPolicy(c: Cleanup, account: string): Position {
    if c.Ref(Policy) != "" then DropLookUp(c, account, Policy) else DropFromRole(c, account)
  }

  function DropAfter(c: Cleanup, account: string, kind: Kind): Position {
    if kind == Policy then DropFromRole(c, account) else DropAccount(c, account)
  }

  /** A direct lookup counts unless it fails or, for a policy, answers with a blank identity. */
  predicate Resolves(kind: Kind, r: Response) {
    r.OneTarget? && (kind == Role || !Blank(r.target.id))
  }

  /** The call made at a position. */
  function Request(p: Position): Call
    requires !Terminal(p)
  {
    match p
    case FindProvider(_) => ListProviders
    case FindAccount(_) => ListAccounts
    case MakeAccount(job) =>
      CreateAccount(ServiceAccountName(job.key, job.want.nameOverride), job.Labels(),
                    AccountInfo(map["thalassa.cloud/wif.repository" := job.want.namespace + "/" + job.want.name,
                                    "thalassa.cloud/wif.provider-subject" := job.subject]))
    case FindIdentity(_, _) => ListIdentities
    case MakeIdentity(job, account) =>
      CreateIdentity(IdentityName(job), job.Labels(),
                     IdentityInfo(Description(job.subject), job.subject, job.subject, account, job.provider.id,
                                  job.want.audiences, MATCH_ANY, job.want.scopes))
    case FixIdentity(job, _, id) =>
      UpdateIdentity(id, IdentityName(job), job.Labels(), Description(job.subject), job.subject,
                     job.want.audiences, job.want.scopes)
    case LookUp(t, kind) => GetTarget(kind, t.job.want.Ref(kind))
    case Search(_, kind) => ListTargets(kind)
    case CheckBinding(_, slot) => ListBindings(slot)
    case MakeBinding(t, slot) => CreateBinding(slot, BindingName(t.job.key), t.job.Labels(), t.account)
    case DropFindIdentity(_) => ListIdentities
    case DropIdentity(_, id) => DeleteIdentity(id)
    case DropFindAccount(_) => ListAccounts
    case DropLookUp(c, _, kind) => GetTarget(kind, c.Ref(kind))
    case DropSearch(_, _, kind) => ListTargets(kind)
    case DropListBindings(_, _, slot) => ListBindings(slot)
    case DropBinding(_, _, slot, rest) => DeleteBinding(slot, if rest == [] then "" else rest[0].id)
    case DropAccount(_, account) => DeleteAccount(account)
  }

  /** The position an answer leads to. */
  function Advance(digest: Digest, p: Position, r: Response): Position
    requires !Terminal(p)
  {
    match p
    case FindProvider(want) =>
      if r.Providers? then WithProvider(digest, want, SelectProvider(r.providers, want.cluster))
      else Stopped(CallFailed)
    case FindAccount(job) =>
      if !r.Accounts? then Stopped(CallFailed)
      else (match Find(r.accounts, job.Labels()) case None => MakeAccount(job) case Some(x) => FindIdentity(job, x.id))
    case MakeAccount(job) =>
      if r.OneAccount? then FindIdentity(job, r.account.id) else Stopped(CallFailed)
    case FindIdentity(job, account) =>
      if !r.Identities? then Stopped(CallFailed)
      else
        (match Find(r.identities, job.Labels())
         case None => MakeIdentity(job, account)
         case Some(x) =>
           if NeedsUpdate(x, job) then FixIdentity(job, account, x.id) else FromPolicy(Task(job, account, x.id, [])))
    case MakeIdentity(job, account) =>
      if r.OneIdentity? then FromPolicy(Task(job, account, r.identity.id, [])) else Stopped(CallFailed)
    case FixIdentity(job, account, _) =>
      if r.OneIdentity? then FromPolicy(Task(job, account, r.identity.id, [])) else Stopped(CallFailed)
    case LookUp(t, kind) =>
      if Resolves(kind, r) then WithTarget(t, kind, r.target) else Search(t, kind)
    case Search(t, kind) =>
      if !r.Targets? then Stopped(CallFailed)
      else
        (match Pick(kind, r.targets, t.job.want.Ref(kind))
         case None => Stopped(NotFound(kind))
         case Some(target) => WithTarget(t, kind, target))
    case CheckBinding(t, slot) =>
      if !r.Bindings? then Stopped(CallFailed)
      else if AnyGrantsTo(r.bindings, t.account) then WithBinding(t, slot)
      else MakeBinding(t, slot)
    case MakeBinding(t, slot) =>
      if r.Done? then WithBinding(t, slot) else Stopped(CallFailed)
    case DropFindIdentity(c) =>
      if !r.Identities? then Stopped(CallFailed)
      else (match Find(r.identities, c.Labels()) case None => DropFindAccount(c) case Some(x) => DropIdentity(c, x.id))
    case DropIdentity(c, _) =>
      if r.Done? then DropFindAccount(c) else Stopped(CallFailed)
    case DropFindAccount(c) =>
      if !r.Accounts? then Stopped(CallFailed)
      else (match Find(r.accounts, c.Labels()) case None => Dropped(c) case Some(x) => DropFromPolicy(c, x.id))
    case DropLookUp(c, account, kind) =>
      if Resolves(kind, r) then DropListBindings(c, account, Slot(kind, r.target.id)) else DropSearch(c, account, kind)
    case DropSearch(c, account, kind) =>
      // a reference that does not resolve is passed over
      if !r.Targets? then DropAfter(c, account, kind)
      else
        (match Pick(kind, r.targets, c.Ref(kind))
         case None => DropAfter(c, account, kind)
         case Some(target) => DropListBindings(c, account, Slot(kind, target.id)))
    case DropListBindings(c, account, slot) =>
      if !r.Bindings? then Stopped(CallFailed) else DropRest(c, account, slot, Removable(r.bindings, account))
    case DropBinding(c, account, slot, rest) =>
      if r.Done? && rest != [] then DropRest(c, account, slot, rest[1..]) else Stopped(CallFailed)
    case DropAccount(c, _) =>
      if r.Done? then Dropped(c) else Stopped(CallFailed)
  }

  function DropRest(c: Cleanup, account: string, slot: Slot, rest: seq<Binding>): Position {
    if rest == [] then DropAfter(c, account, slot.kind) else DropBinding(c, account, slot, rest)
  }

  /** One call: its effect on the store under an outcome, and the position it leads to. */
  function Step(digest: Digest, p: Position, s: State, o: Outcome): (Position, State)
    requires !Terminal(p)
  {
    var (s', r) := Perform(s, Request(p), o);
    (Advance(digest, p, r), s')
  }

  /** How many stages are left. */
  function Stage(p: Position): nat {
    match p
    case FindProvider(_) => 30
    case FindAccount(_) => 29
    case MakeAccount(_) => 28
    case FindIdentity(_, _) => 27
    case MakeIdentity(_, _) => 26
    case FixIdentity(_, _, _) => 26
    case LookUp(_, kind) => if kind == Policy then 20 else 10
    case Search(_, kind) => if kind == Policy then 19 else 9
    case CheckBinding(_, slot) => if slot.kind == Policy then 18 else 8
    case MakeBinding(_, slot) => if slot.kind == Policy then 17 else 7
    case DropFindIdentity(_) => 30
    case DropIdentity(_, _) => 29
    case DropFindAccount(_) => 28
    case DropLookUp(_, _, kind) => if kind == Policy then 20 else 10
    case DropSearch(_, _, kind) => if kind == Policy then 19 else 9
    case DropListBindings(_, _, slot) => if slot.kind == Policy then 18 else 8
    case DropBinding(_, _, slot, _) => if slot.kind == Policy then 17 else 7
    case DropAccount(_, _) => 1
    case Ensured(_) => 0
    case Dropped(_) => 0
    case Stopped(_) => 0
  }

  function Left(p: Position): nat {
    if p.DropBinding? then |p.rest| else 0
  }

  predicate Later(p: Position, p': Position) {
    Stage(p') < Stage(p) || (Stage(p') == Stage(p) && Left(p') < Left(p))
  }

  lemma EnsuringGoesOn(digest: Digest, p: Position, r: Response)
    requires !Terminal(p) && !Deleting(p)
    ensures Later(p, Advance(digest, p, r))
  {
    hide LabelsMatch, NeedsUpdate, Find, Pick, SelectProvider, TrimSpace, BuildSubject, AnyGrantsTo,
      Allowlist.Permitted, OwnershipLabels, ResourceKey, NormalizeIssuer;
  }

  lemma DeletingGoesOn(digest: Digest, p: Position, r: Response)
    requires !Terminal(p) && Deleting(p)
    ensures Later(p, Advance(digest, p, r))
  {
    hide LabelsMatch, Find, Pick, Removable, TrimSpace, OwnershipLabels;
  }

  lemma StageDrops(digest: Digest, p: Position, s: State, o: Outcome)
    requires !Terminal(p)
    ensures Later(p, Step(digest, p, s, o).0)
  {
    hide Advance, Perform, Request, Later;
    var r := Perform(s, Request(p), o).1;
    if Deleting(p) { DeletingGoesOn(digest, p, r); } else { EnsuringGoesOn(digest, p, r); }
  }

  /** An attempt run to its end against a script of outcomes: last position, store, unused script. */
  function Exec(digest: Digest, p: Position, s: State, script: Script): (Position, State, Script)
    decreases Stage(p), Left(p)
  {
    if Terminal(p) then (p, s, script)
    else
      StageDrops(digest, p, s, Head(script));
      var (p', s') := Step(digest, p, s, Head(script));
      Exec(digest, p', s', Tail(script))
  }

  lemma ExecStep(digest: Digest, p: Position, s: State, script: Script)
    requires !Terminal(p)
    ensures var (p', s') := Step(digest, p, s, Head(script));
            Exec(digest, p, s, script) == Exec(digest, p', s', Tail(script))
  {
    hide Step;
    StageDrops(digest, p, s, Head(script));
  }

  lemma ExecEnd(digest: Digest, p: Position, s: State, script: Script)
    requires Terminal(p)
    ensures Exec(digest, p, s, script) == (p, s, script)
  {}
}
