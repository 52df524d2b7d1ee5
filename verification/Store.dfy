/** The IAM service as the controller sees it: lists of resources and one answer per call. */
module Store {
  import opened Strings
  import opened Subject

  /** What service accounts, federated identities and bindings have in common. */
  datatype Resource<T> = Resource(id: string, name: string, labels: Labels, info: T)

  datatype AccountInfo = AccountInfo(annotations: map<string, string>)
  type ServiceAccount = Resource<AccountInfo>

  datatype IdentityInfo = IdentityInfo(
    description: string, annotatedSubject: string, subject: string, account: string, provider: string,
    audiences: seq<string>, matchMode: string, scopes: seq<string>)
  type FederatedIdentity = Resource<IdentityInfo>

  /** A binding names the service account it grants to, if any. */
  datatype BindingInfo = BindingInfo(account: Option<string>)
  type Binding = Resource<BindingInfo>

  datatype Provider = Provider(id: string, issuer: string, labels: Labels)

  datatype Kind = Policy | Role
  datatype Target = Target(id: string, slug: string, name: string)
  datatype Slot = Slot(kind: Kind, id: string)

  /** The policies and roles: as listed, and as answered to a direct lookup by reference. */
  datatype Directory = Directory(policies: seq<Target>, roles: seq<Target>, direct: map<Slot, Target>) {
    function Listed(kind: Kind): seq<Target> {
      match kind
      case Policy => policies
      case Role => roles
    }
  }

  datatype State = State(
    providers: seq<Provider>, directory: Directory, accounts: seq<ServiceAccount>,
    identities: seq<FederatedIdentity>, bindings: map<Slot, seq<Binding>>, next: nat)
  {
    function At(slot: Slot): seq<Binding> {
      if slot in bindings then bindings[slot] else []
    }
  }

  const MATCH_ANY := "any"

  function FreshId(n: nat): string {
    "id-" + seq(n, _ => 'i')
  }

  // ---- lists of resources

  function Find<T>(xs: seq<Resource<T>>, want: Labels): Option<Resource<T>> {
    if xs == [] then None
    else if LabelsMatch(xs[0].labels, want) then Some(xs[0])
    else Find(xs[1..], want)
  }

  function Without<T>(xs: seq<Resource<T>>, id: string): seq<Resource<T>> {
    if xs == [] then []
    else if xs[0].id == id then Without(xs[1..], id) else [xs[0]] + Without(xs[1..], id)
  }

  function Lookup<T>(xs: seq<Resource<T>>, id: string): Option<Resource<T>> {
    if xs == [] then None
    else if xs[0].id == id then Some(xs[0])
    else Lookup(xs[1..], id)
  }

  function Replace<T>(xs: seq<Resource<T>>, y: Resource<T>): (r: seq<Resource<T>>)
    ensures |r| == |xs|
    ensures forall i | 0 <= i < |xs| :: r[i] == if xs[i].id == y.id then y else xs[i]
  {
    if xs == [] then []
    else [if xs[0].id == y.id then y else xs[0]] + Replace(xs[1..], y)
  }

  // ---- calls and answers

  datatype Call =
    | ListProviders
    | ListAccounts
    | CreateAccount(name: string, labels: Labels, accountInfo: AccountInfo)
    | DeleteAccount(id: string)
    | ListIdentities
    | CreateIdentity(name: string, labels: Labels, identityInfo: IdentityInfo)
    | UpdateIdentity(id: string, name: string, labels: Labels, description: string, annotatedSubject: string,
                     audiences: seq<string>, scopes: seq<string>)
    | DeleteIdentity(id: string)
    | GetTarget(kind: Kind, ref: string)
    | ListTargets(kind: Kind)
    | ListBindings(slot: Slot)
    | CreateBinding(slot: Slot, name: string, labels: Labels, account: string)
    | DeleteBinding(slot: Slot, id: string)

  predicate IsWrite(c: Call) {
    c.CreateAccount? || c.DeleteAccount? || c.CreateIdentity? || c.UpdateIdentity? || c.DeleteIdentity?
    || c.CreateBinding? || c.DeleteBinding?
  }

  datatype Response =
    | Failed
    | Done
    | Providers(providers: seq<Provider>)
    | Accounts(accounts: seq<ServiceAccount>)
    | OneAccount(account: ServiceAccount)
    | Identities(identities: seq<FederatedIdentity>)
    | OneIdentity(identity: FederatedIdentity)
    | OneTarget(target: Target)
    | Targets(targets: seq<Target>)
    | Bindings(bindings: seq<Binding>)

  /** An update sends neither the subject nor the service account nor the provider: those stay. */
  function Updated(x: FederatedIdentity, c: Call): FederatedIdentity
    requires c.UpdateIdentity?
  {
    Resource(x.id, c.name, c.labels,
             x.info.(description := c.description, annotatedSubject := c.annotatedSubject,
                     audiences := c.audiences, matchMode := MATCH_ANY, scopes := c.scopes))
  }

  /** The effect and the answer of a call that reaches the service and comes back. */
  function Serve(s: State, c: Call): (State, Response) {
    match c
    case ListProviders => (s, Providers(s.providers))
    case ListAccounts => (s, Accounts(s.accounts))
    case CreateAccount(name, labels, info) =>
      var x := Resource(FreshId(s.next), name, labels, info);
      (s.(accounts := s.accounts + [x], next := s.next + 1), OneAccount(x))
    case DeleteAccount(id) => (s.(accounts := Without(s.accounts, id)), Done)
    case ListIdentities => (s, Identities(s.identities))
    case CreateIdentity(name, labels, info) =>
      var x := Resource(FreshId(s.next), name, labels, info);
      (s.(identities := s.identities + [x], next := s.next + 1), OneIdentity(x))
    case UpdateIdentity(id, _, _, _, _, _, _) =>
      (match Lookup(s.identities, id)
       case None => (s, Failed)
       case Some(x) => (s.(identities := Replace(s.identities, Updated(x, c))), OneIdentity(Updated(x, c))))
    case DeleteIdentity(id) => (s.(identities := Without(s.identities, id)), Done)
    case GetTarget(kind, ref) =>
      (s, if Slot(kind, ref) in s.directory.direct then OneTarget(s.directory.direct[Slot(kind, ref)]) else Failed)
    case ListTargets(kind) => (s, Targets(s.directory.Listed(kind)))
    case ListBindings(slot) => (s, Bindings(s.At(slot)))
    case CreateBinding(slot, name, labels, account) =>
      var x := Resource(FreshId(s.next), name, labels, BindingInfo(Some(account)));
      (s.(bindings := s.bindings[slot := s.At(slot) + [x]], next := s.next + 1), Done)
    case DeleteBinding(slot, id) =>
      (s.(bindings := s.bindings[slot := Without(s.At(slot), id)]), Done)
  }

  /** What can happen to a call: it works, it fails before it has an effect, or its answer is lost. */
  datatype Outcome = Ok | FailBefore | LostResponse

  /** The outcomes of the calls to come, in order. */
  type Script = seq<Outcome>

  function Perform(s: State, c: Call, o: Outcome): (State, Response) {
    match o
    case Ok => Serve(s, c)
    case FailBefore => (s, Failed)
    case LostResponse => (Serve(s, c).0, Failed)
  }

  /** The next outcome of a script; calls beyond its end work. */
  function Head(script: Script): Outcome {
    if script == [] then Ok else script[0]
  }

  function Tail(script: Script): Script {
    if script == [] then [] else script[1..]
  }

  // ---- facts about the lists

  lemma {:induction false} FindFacts<T>(xs: seq<Resource<T>>, want: Labels)
    ensures var r := Find(xs, want);
            && (r.Some? ==> r.value in xs && LabelsMatch(r.value.labels, want))
            && (r.None? <==> forall x | x in xs :: !LabelsMatch(x.labels, want))
  {
    hide LabelsMatch;
    if xs != [] {
      FindFacts(xs[1..], want);
      assert xs == [xs[0]] + xs[1..];
    }
  }

  /** What is found is the first that matches. */
  lemma {:induction false} FindIff<T>(xs: seq<Resource<T>>, want: Labels, x: Resource<T>)
    ensures Find(xs, want) == Some(x) <==>
            exists i | 0 <= i < |xs| ::
              xs[i] == x && LabelsMatch(xs[i].labels, want) && forall j | 0 <= j < i :: !LabelsMatch(xs[j].labels, want)
  {
    hide LabelsMatch;
    if xs != [] {
      FindIff(xs[1..], want, x);
      if i :| 0 <= i < |xs| && xs[i] == x && LabelsMatch(xs[i].labels, want)
              && forall j | 0 <= j < i :: !LabelsMatch(xs[j].labels, want)
      {
        if i > 0 {
          assert !LabelsMatch(xs[0].labels, want) && xs[1..][i - 1] == x;
          assert forall j | 0 <= j < i - 1 :: xs[1..][j] == xs[j + 1] && !LabelsMatch(xs[j + 1].labels, want);
        }
      }
      if i :| 0 <= i < |xs[1..]| && xs[1..][i] == x && LabelsMatch(xs[1..][i].labels, want)
              && (forall j | 0 <= j < i :: !LabelsMatch(xs[1..][j].labels, want)) && !LabelsMatch(xs[0].labels, want)
      {
        assert xs[i + 1] == x;
        assert forall j | 0 < j < i + 1 :: xs[j] == xs[1..][j - 1];
      }
    }
  }

  lemma {:induction false} WithoutFacts<T>(xs: seq<Resource<T>>, id: string)
    ensures forall x :: x in Without(xs, id) <==> x in xs && x.id != id
  {
    if xs != [] {
      WithoutFacts(xs[1..], id);
      assert xs == [xs[0]] + xs[1..];
    }
  }

  lemma WithoutMember<T>(xs: seq<Resource<T>>, id: string, x: Resource<T>)
    ensures x in Without(xs, id) <==> x in xs && x.id != id
  {
    WithoutFacts(xs, id);
  }

  lemma {:induction false} LookupFacts<T>(xs: seq<Resource<T>>, id: string)
    ensures var r := Lookup(xs, id);
            && (r.Some? ==> r.value in xs && r.value.id == id)
            && (r.None? <==> forall x | x in xs :: x.id != id)
  {
    if xs != [] {
      LookupFacts(xs[1..], id);
      assert xs == [xs[0]] + xs[1..];
    }
  }

  lemma FreshIdInjective(m: nat, n: nat)
    requires FreshId(m) == FreshId(n)
    ensures m == n
  {
    assert |FreshId(m)| == m + 3 && |FreshId(n)| == n + 3;
  }
}
