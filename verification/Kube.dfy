/** The Kubernetes objects the controller reads and writes, next to the IAM service, and the effect of one write. */
module Kube {
  import opened Strings
  import opened Subject
  import opened Store
  import opened Conditions

  datatype Ref = Ref(namespace: string, name: string)
  type Annotations = map<string, string>

  const FINALIZER := "thalassa.cloud/wif-finalizer"
  const ACCOUNT_ID := "thalassa.cloud/wif.service-account-id"
  const IDENTITY_ID := "thalassa.cloud/wif.federated-identity-id"
  const PROVIDER_ID := "thalassa.cloud/wif.provider-id"
  const POLICY_ID := "thalassa.cloud/wif.policy-id"
  const ORGANISATION_ID := "thalassa.cloud/wif.organisation-id"
  const PROJECT_ID := "thalassa.cloud/wif.project-id"

  const PENDING := "Pending"
  const ERROR := "Error"

  datatype Spec = Spec(
    serviceAccount: string, policyRef: string, roleRef: string, scopes: seq<string>, nameOverride: string,
    deleteResources: bool, identityConfigMap: bool)

  datatype Status = Status(
    phase: string, account: string, identity: string, provider: string, policy: string, organisation: string,
    project: string, observedGeneration: int, lastReconcile: Option<Time>, conditions: seq<Condition>)

  const NO_STATUS := Status("", "", "", "", "", "", "", 0, None, [])

  /** A WorkloadIdentityBinding. */
  datatype Wib = Wib(spec: Spec, status: Status, generation: int, finalizers: seq<string>, deleting: bool)

  datatype OwnerRef = OwnerRef(kind: string, name: string)
  datatype ConfigMap = ConfigMap(labels: Labels, data: map<string, string>, controller: Option<OwnerRef>)

  datatype Cluster = Cluster(
    iam: State, objects: map<Ref, Wib>, accounts: map<Ref, Annotations>, configMaps: map<Ref, ConfigMap>)

  // ---- one call each: the cluster after it, whether it came back well, the script left

  datatype Answer = Answer(cluster: Cluster, ok: bool, rest: Script)

  function Write(c: Cluster, written: Cluster, script: Script): Answer {
    Answer(if Head(script) == FailBefore then c else written, Head(script) == Ok, Tail(script))
  }

  /** An object on its way out disappears with its last finalizer. */
  function Stored(objects: map<Ref, Wib>, ref: Ref, w: Wib): map<Ref, Wib> {
    if w.deleting && w.finalizers == [] then objects - {ref} else objects[ref := w]
  }

  function WriteObject(c: Cluster, ref: Ref, w: Wib, script: Script): Answer {
    Write(c, c.(objects := Stored(c.objects, ref, w)), script)
  }

  function WriteAccount(c: Cluster, at: Ref, a: Annotations, script: Script): Answer {
    Write(c, c.(accounts := c.accounts[at := a]), script)
  }

  function WriteConfigMap(c: Cluster, at: Ref, m: ConfigMap, script: Script): Answer {
    Write(c, c.(configMaps := c.configMaps[at := m]), script)
  }

  function DropString(xs: seq<string>, x: string): seq<string> {
    if xs == [] then [] else if xs[0] == x then DropString(xs[1..], x) else [xs[0]] + DropString(xs[1..], x)
  }

  lemma {:induction false} DropStringFacts(xs: seq<string>, x: string)
    ensures forall y :: y in DropString(xs, x) <==> y in xs && y != x
  {
    if xs != [] {
      assert xs == [xs[0]] + xs[1..];
      DropStringFacts(xs[1..], x);
    }
  }
}
