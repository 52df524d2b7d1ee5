/** The pod mutator (internal/webhook/podmutator/mutate.go): what it injects as functions, and the in-place form. */
module PodMutator {
  import opened Strings
  import opened Subject
  import opened Kube

  datatype EnvVar = EnvVar(name: string, value: string, valueFrom: Option<string>)
  datatype Mount = Mount(name: string, path: string, readOnly: bool)
  datatype Projection = Token(audience: string, path: string, expiration: Option<int>) | OtherSource(text: string)
  datatype Volume = Volume(name: string, projected: Option<seq<Projection>>)
  datatype Container = Container(name: string, env: seq<EnvVar>, mounts: seq<Mount>)
  datatype PodSpec = PodSpec(volumes: seq<Volume>, init: seq<Container>, main: seq<Container>)

  const ENV_ORGANISATION := "THALASSA_ORGANISATION_ID"
  const ENV_ACCOUNT := "THALASSA_SERVICE_ACCOUNT_ID"
  const ENV_PROJECT := "THALASSA_PROJECT_ID"
  const ENV_TOKEN_FILE := "THALASSA_SUBJECT_TOKEN_FILE"
  const VOLUME := "thalassa-wif"
  const MOUNT_PATH := "/var/run/secrets/thalassa"
  const TOKEN_PATH := "token"
  const TOKEN_FILE := "/var/run/secrets/thalassa/token"

  datatype Identity = Identity(organisation: string, account: string, project: string) {
    predicate Complete() {
      !Blank(organisation) && !Blank(account)
    }
  }

  function IdentityFrom(a: Annotations): Identity {
    Identity(TrimSpace(Get(a, ORGANISATION_ID)), TrimSpace(Get(a, ACCOUNT_ID)), TrimSpace(Get(a, PROJECT_ID)))
  }

  // ---- what is injected

  predicate HasEnv(env: seq<EnvVar>, name: string) {
    exists e | e in env :: e.name == name
  }

  function WithEnv(env: seq<EnvVar>, name: string, value: string): seq<EnvVar> {
    if HasEnv(env, name) then env else env + [EnvVar(name, value, None)]
  }

  function WithIdentityEnv(env: seq<EnvVar>, id: Identity): seq<EnvVar> {
    var named := WithEnv(WithEnv(env, ENV_ORGANISATION, id.organisation), ENV_ACCOUNT, id.account);
    WithEnv(if id.project != "" then WithEnv(named, ENV_PROJECT, id.project) else named, ENV_TOKEN_FILE, TOKEN_FILE)
  }

  predicate Mounted(ms: seq<Mount>) {
    exists m | m in ms :: m.name == VOLUME || m.path == MOUNT_PATH
  }

  function WithMount(ms: seq<Mount>): seq<Mount> {
    if Mounted(ms) then ms else ms + [Mount(VOLUME, MOUNT_PATH, true)]
  }

  predicate HasToken(v: Volume, audience: string) {
    v.projected.Some? && exists p | p in v.projected.value :: p.Token? && p.path == TOKEN_PATH && p.audience == audience
  }

  predicate Provided(vs: seq<Volume>, audience: string) {
    exists v | v in vs :: v.name == VOLUME || HasToken(v, audience)
  }

  function TokenVolume(audience: string): Volume {
    Volume(VOLUME, Some([Token(audience, TOKEN_PATH, Some(3600))]))
  }

  function WithVolume(vs: seq<Volume>, audience: string): seq<Volume> {
    if Provided(vs, audience) then vs else vs + [TokenVolume(audience)]
  }

  function Injected(c: Container, id: Identity): Container {
    c.(env := WithIdentityEnv(c.env, id), mounts := WithMount(c.mounts))
  }

  function AllInjected(cs: seq<Container>, id: Identity): (r: seq<Container>)
    ensures |r| == |cs| && forall i | 0 <= i < |cs| :: r[i] == Injected(cs[i], id)
  {
    seq(|cs|, i requires 0 <= i < |cs| => Injected(cs[i], id))
  }

  function Mutated(p: PodSpec, id: Identity, audience: string): PodSpec {
    if !id.Complete() || Blank(audience) then p
    else PodSpec(WithVolume(p.volumes, TrimSpace(audience)), AllInjected(p.init, id), AllInjected(p.main, id))
  }

  // ---- in place

  method EnsureEnv(cs: array<Container>, i: nat, name: string, value: string) returns (changed: bool)
    requires i < cs.Length
    modifies cs
    ensures cs[..] == old(cs[..])[i := old(cs[i]).(env := WithEnv(old(cs[i]).env, name, value))]
    ensures changed <==> |cs[i].env| != |old(cs[i]).env|
  {
    for j := 0 to |cs[i].env|
      invariant forall k | 0 <= k < j :: cs[i].env[k].name != name
      invariant cs[..] == old(cs[..])
    {
      if cs[i].env[j].name == name {
        return false;
      }
    }
    cs[i] := cs[i].(env := cs[i].env + [EnvVar(name, value, None)]);
    return true;
  }

  method EnsureVolumeMount(cs: array<Container>, i: nat) returns (changed: bool)
    requires i < cs.Length
    modifies cs
    ensures cs[..] == old(cs[..])[i := old(cs[i]).(mounts := WithMount(old(cs[i]).mounts))]
    ensures changed <==> |cs[i].mounts| != |old(cs[i]).mounts|
  {
    for j := 0 to |cs[i].mounts|
      invariant forall k | 0 <= k < j :: cs[i].mounts[k].name != VOLUME && cs[i].mounts[k].path != MOUNT_PATH
      invariant cs[..] == old(cs[..])
    {
      var m := cs[i].mounts[j];
      if m.name == VOLUME || m.path == MOUNT_PATH {
        return false;
      }
    }
    cs[i] := cs[i].(mounts := cs[i].mounts + [Mount(VOLUME, MOUNT_PATH, true)]);
    return true;
  }

  method InjectContainer(cs: array<Container>, i: nat, id: Identity) returns (changed: bool)
    requires i < cs.Length
    modifies cs
    ensures cs[..] == old(cs[..])[i := Injected(old(cs[i]), id)]
    ensures changed <==> cs[i] != old(cs[i])
  {
    hide HasEnv, Mounted;
    ghost var was := cs[i];
    changed := EnsureEnv(cs, i, ENV_ORGANISATION, id.organisation);
    var more := EnsureEnv(cs, i, ENV_ACCOUNT, id.account);
    changed := changed || more;
    if id.project != "" {
      more := EnsureEnv(cs, i, ENV_PROJECT, id.project);
      changed := changed || more;
    }
    more := EnsureEnv(cs, i, ENV_TOKEN_FILE, TOKEN_FILE);
    changed := changed || more;
    more := EnsureVolumeMount(cs, i);
    changed := changed || more;
    InjectedGrows(was, id);
  }

  method VolumeHasThalassaToken(v: Volume, audience: string) returns (has: bool)
    ensures has <==> HasToken(v, audience)
  {
    if v.projected.None? {
      return false;
    }
    var sources := v.projected.value;
    for j := 0 to |sources|
      invariant forall k | 0 <= k < j ::
                  !(sources[k].Token? && sources[k].path == TOKEN_PATH && sources[k].audience == audience)
    {
      if !sources[j].Token? {
        continue;
      }
      if sources[j].path == TOKEN_PATH && sources[j].audience == audience {
        return true;
      }
    }
    return false;
  }

  class Pod {
    var volumes: seq<Volume>
    const init: array<Container>
    const main: array<Container>

    constructor (volumes: seq<Volume>, init: array<Container>, main: array<Container>)
      ensures this.volumes == volumes && this.init == init && this.main == main
    {
      this.volumes := volumes;
      this.init := init;
      this.main := main;
    }

    ghost function Spec(): PodSpec
      reads this, init, main
    {
      PodSpec(volumes, init[..], main[..])
    }

    method EnsureProjectedTokenVolume(audience: string) returns (changed: bool)
      modifies this
      ensures volumes == WithVolume(old(volumes), audience)
      ensures changed <==> volumes != old(volumes)
    {
      for j := 0 to |volumes|
        invariant volumes == old(volumes)
        invariant forall k | 0 <= k < j :: volumes[k].name != VOLUME && !HasToken(volumes[k], audience)
      {
        if volumes[j].name == VOLUME {
          return false;
        }
        var has := VolumeHasThalassaToken(volumes[j], audience);
        if has {
          return false;
        }
      }
      volumes := volumes + [TokenVolume(audience)];
      return true;
    }
  }

  /** Every container of an array, one after the other. */
  method InjectAll(cs: array<Container>, id: Identity) returns (changed: bool)
    modifies cs
    ensures cs[..] == AllInjected(old(cs[..]), id)
    ensures changed <==> cs[..] != old(cs[..])
  {
    hide Injected;
    changed := false;
    for i := 0 to cs.Length
      invariant forall k | 0 <= k < i :: cs[k] == Injected(old(cs[k]), id)
      invariant forall k | i <= k < cs.Length :: cs[k] == old(cs[k])
      invariant changed <==> exists k | 0 <= k < i :: cs[k] != old(cs[k])
    {
      ghost var before := cs[..];
      var more := InjectContainer(cs, i, id);
      assert forall k | 0 <= k < cs.Length && k != i :: cs[..][k] == before[k];
      changed := changed || more;
    }
    assert changed ==> cs[..] != old(cs[..]) by {
      if changed {
        var k :| 0 <= k < cs.Length && cs[k] != old(cs[k]);
        assert cs[..][k] != old(cs[..])[k];
      }
    }
  }

  /** Returns whether the pod was modified, which is whether it differs. */
  method MutatePod(pod: Pod?, id: Identity, audience: string) returns (changed: bool)
    requires pod != null ==> pod.init != pod.main
    modifies if pod == null then {} else {pod, pod.init, pod.main}
    ensures pod == null ==> !changed
    ensures pod != null ==>
              pod.Spec() == Mutated(old(pod.Spec()), id, audience) && (changed <==> pod.Spec() != old(pod.Spec()))
  {
    hide AllInjected, WithVolume, Blank, TrimSpace;
    if pod == null || !id.Complete() {
      return false;
    }
    var wanted := TrimSpace(audience);
    if wanted == "" {
      BlankMeansEmpty(audience);
      return false;
    }
    BlankMeansEmpty(audience);
    changed := pod.EnsureProjectedTokenVolume(wanted);
    var more := InjectAll(pod.init, id);
    changed := changed || more;
    more := InjectAll(pod.main, id);
    changed := changed || more;
  }

  lemma BlankMeansEmpty(s: string)
    ensures Blank(s) <==> TrimSpace(s) == ""
  {}

  // ---- what injecting keeps and adds

  lemma EnvFacts(env: seq<EnvVar>, name: string, value: string)
    ensures HasEnv(WithEnv(env, name, value), name) && env <= WithEnv(env, name, value)
    ensures forall other :: HasEnv(WithEnv(env, name, value), other) <==> HasEnv(env, other) || other == name
  {
    var r := WithEnv(env, name, value);
    if !HasEnv(env, name) {
      assert r[|env|] == EnvVar(name, value, None) && r[|env|] in r;
    }
    forall other | HasEnv(env, other)
      ensures HasEnv(r, other)
    {
      var e :| e in env && e.name == other;
      assert e in r;
    }
  }

  lemma InjectedGrows(c: Container, id: Identity)
    ensures c.env <= Injected(c, id).env && c.mounts <= Injected(c, id).mounts && Injected(c, id).name == c.name
  {
    hide HasEnv, Mounted;
  }

  lemma EnvSettled(env: seq<EnvVar>, id: Identity)
    ensures WithIdentityEnv(WithIdentityEnv(env, id), id) == WithIdentityEnv(env, id)
    ensures var r := WithIdentityEnv(env, id);
            HasEnv(r, ENV_ORGANISATION) && HasEnv(r, ENV_ACCOUNT) && HasEnv(r, ENV_TOKEN_FILE)
            && (id.project != "" ==> HasEnv(r, ENV_PROJECT))
  {
    hide HasEnv;
    var e1 := WithEnv(env, ENV_ORGANISATION, id.organisation);
    var e2 := WithEnv(e1, ENV_ACCOUNT, id.account);
    var e3 := if id.project != "" then WithEnv(e2, ENV_PROJECT, id.project) else e2;
    EnvFacts(env, ENV_ORGANISATION, id.organisation);
    EnvFacts(e1, ENV_ACCOUNT, id.account);
    EnvFacts(e2, ENV_PROJECT, id.project);
    EnvFacts(e3, ENV_TOKEN_FILE, TOKEN_FILE);
  }

  lemma MountSettled(ms: seq<Mount>)
    ensures Mounted(WithMount(ms))
  {
    if !Mounted(ms) {
      assert WithMount(ms)[|ms|] in WithMount(ms);
    }
  }

  lemma VolumeSettled(vs: seq<Volume>, audience: string)
    ensures Provided(WithVolume(vs, audience), audience)
  {
    if !Provided(vs, audience) {
      assert WithVolume(vs, audience)[|vs|] in WithVolume(vs, audience);
    }
  }

  lemma InjectedTwice(c: Container, id: Identity)
    ensures Injected(Injected(c, id), id) == Injected(c, id)
  {
    hide WithIdentityEnv, Mounted;
    EnvSettled(c.env, id);
    MountSettled(c.mounts);
  }

  lemma AllInjectedTwice(cs: seq<Container>, id: Identity)
    ensures AllInjected(AllInjected(cs, id), id) == AllInjected(cs, id)
  {
    hide Injected;
    forall i | 0 <= i < |cs|
      ensures AllInjected(AllInjected(cs, id), id)[i] == AllInjected(cs, id)[i]
    {
      InjectedTwice(cs[i], id);
    }
  }

  /** Mutating again changes nothing, so the second call reports no change. */
  lemma MutatedTwice(p: PodSpec, id: Identity, audience: string)
    ensures Mutated(Mutated(p, id, audience), id, audience) == Mutated(p, id, audience)
  {
    hide AllInjected, Blank, TrimSpace, Provided;
    AllInjectedTwice(p.init, id);
    AllInjectedTwice(p.main, id);
    VolumeSettled(p.volumes, TrimSpace(audience));
  }

  // ---- prefixes

  predicate Extends(c: Container, d: Container) {
    d.name == c.name && c.env <= d.env && c.mounts <= d.mounts
  }

  predicate AllExtend(cs: seq<Container>, ds: seq<Container>) {
    |cs| == |ds| && forall i | 0 <= i < |cs| :: Extends(cs[i], ds[i])
  }

  /** Everything a pod lists stays, in place and in order, at the front. */
  lemma MutatedExtends(p: PodSpec, id: Identity, audience: string)
    ensures var q := Mutated(p, id, audience);
            p.volumes <= q.volumes && AllExtend(p.init, q.init) && AllExtend(p.main, q.main)
  {
    hide Injected, Blank, TrimSpace, Provided;
    forall c: Container
      ensures Extends(c, Injected(c, id))
    {
      InjectedGrows(c, id);
    }
  }

  /** The value a process sees for a name: the first entry's. */
  function FirstEnv(env: seq<EnvVar>, name: string): Option<EnvVar> {
    if env == [] then None else if env[0].name == name then Some(env[0]) else FirstEnv(env[1..], name)
  }

  lemma {:induction false} FirstEnvSplit(a: seq<EnvVar>, b: seq<EnvVar>, name: string)
    ensures FirstEnv(a + b, name) == if HasEnv(a, name) then FirstEnv(a, name) else FirstEnv(b, name)
    ensures HasEnv(a, name) <==> FirstEnv(a, name).Some?
  {
    if a == [] {
      assert a + b == b;
    } else {
      assert (a + b)[1..] == a[1..] + b && a == [a[0]] + a[1..];
      FirstEnvSplit(a[1..], b, name);
    }
  }

  lemma WithEnvValue(env: seq<EnvVar>, name: string, value: string, other: string)
    ensures FirstEnv(WithEnv(env, name, value), other)
         == if !HasEnv(env, other) && other == name then Some(EnvVar(name, value, None)) else FirstEnv(env, other)
  {
    FirstEnvSplit(env, [EnvVar(name, value, None)], other);
    assert env + [] == env;
  }

  /** The value the mutator offers for a name. */
  function Offered(id: Identity, name: string): Option<string> {
    if name == ENV_ORGANISATION then Some(id.organisation)
    else if name == ENV_ACCOUNT then Some(id.account)
    else if name == ENV_PROJECT && id.project != "" then Some(id.project)
    else if name == ENV_TOKEN_FILE then Some(TOKEN_FILE)
    else None
  }

  /** An entry the container has wins; otherwise it gets what is offered, and nothing else. */
  lemma FirstValueWins(c: Container, id: Identity, name: string)
    ensures FirstEnv(Injected(c, id).env, name) ==
              if HasEnv(c.env, name) then FirstEnv(c.env, name)
              else match Offered(id, name) case None => None case Some(v) => Some(EnvVar(name, v, None))
  {
    hide HasEnv, FirstEnv;
    var e1 := WithEnv(c.env, ENV_ORGANISATION, id.organisation);
    var e2 := WithEnv(e1, ENV_ACCOUNT, id.account);
    var e3 := if id.project != "" then WithEnv(e2, ENV_PROJECT, id.project) else e2;
    EnvFacts(c.env, ENV_ORGANISATION, id.organisation);
    EnvFacts(e1, ENV_ACCOUNT, id.account);
    EnvFacts(e2, ENV_PROJECT, id.project);
    WithEnvValue(c.env, ENV_ORGANISATION, id.organisation, name);
    WithEnvValue(e1, ENV_ACCOUNT, id.account, name);
    WithEnvValue(e2, ENV_PROJECT, id.project, name);
    WithEnvValue(e3, ENV_TOKEN_FILE, TOKEN_FILE, name);
    FirstEnvSplit(c.env, [], name);
  }

  // ---- uniqueness and closure

  predicate UniqueContainer(c: Container) {
    && (forall i, j | 0 <= i < j < |c.env| :: c.env[i].name != c.env[j].name)
    && (forall i, j | 0 <= i < j < |c.mounts| :: c.mounts[i].path != c.mounts[j].path)
  }

  predicate Unique(p: PodSpec) {
    && (forall i, j | 0 <= i < j < |p.volumes| :: p.volumes[i].name != p.volumes[j].name)
    && (forall c | c in p.init :: UniqueContainer(c)) && (forall c | c in p.main :: UniqueContainer(c))
  }

  lemma UniqueEnv(env: seq<EnvVar>, name: string, value: string)
    requires forall i, j | 0 <= i < j < |env| :: env[i].name != env[j].name
    ensures var r := WithEnv(env, name, value); forall i, j | 0 <= i < j < |r| :: r[i].name != r[j].name
  {
    if !HasEnv(env, name) {
      assert forall e | e in env :: e.name != name;
    }
  }

  lemma InjectedUnique(c: Container, id: Identity)
    requires UniqueContainer(c)
    ensures UniqueContainer(Injected(c, id))
  {
    hide HasEnv, WithEnv;
    var e1 := WithEnv(c.env, ENV_ORGANISATION, id.organisation);
    var e2 := WithEnv(e1, ENV_ACCOUNT, id.account);
    var e3 := if id.project != "" then WithEnv(e2, ENV_PROJECT, id.project) else e2;
    UniqueEnv(c.env, ENV_ORGANISATION, id.organisation);
    UniqueEnv(e1, ENV_ACCOUNT, id.account);
    UniqueEnv(e2, ENV_PROJECT, id.project);
    UniqueEnv(e3, ENV_TOKEN_FILE, TOKEN_FILE);
    assert !Mounted(c.mounts) ==> forall m | m in c.mounts :: m.path != MOUNT_PATH;
  }

  /** Names and paths that were unique stay so. */
  lemma MutatedUnique(p: PodSpec, id: Identity, audience: string)
    requires Unique(p)
    ensures Unique(Mutated(p, id, audience))
  {
    hide Injected, UniqueContainer, Blank, TrimSpace, HasToken;
    var q := Mutated(p, id, audience);
    assert !Provided(p.volumes, TrimSpace(audience)) ==> forall v | v in p.volumes :: v.name != VOLUME;
    forall c | c in q.init
      ensures UniqueContainer(c)
    {
      var i :| 0 <= i < |q.init| && q.init[i] == c;
      assert p.init[i] in p.init;
      InjectedUnique(p.init[i], id);
    }
    forall c | c in q.main
      ensures UniqueContainer(c)
    {
      var i :| 0 <= i < |q.main| && q.main[i] == c;
      assert p.main[i] in p.main;
      InjectedUnique(p.main[i], id);
    }
  }

  predicate HasVolume(vs: seq<Volume>, name: string) {
    exists v | v in vs :: v.name == name
  }

  predicate ClosedContainer(vs: seq<Volume>, c: Container) {
    forall m | m in c.mounts :: HasVolume(vs, m.name)
  }

  /** Every mount names a volume of the pod. */
  predicate Closed(p: PodSpec) {
    (forall c | c in p.init :: ClosedContainer(p.volumes, c))
    && (forall c | c in p.main :: ClosedContainer(p.volumes, c))
  }

  predicate AtTokenPath(c: Container) {
    exists m | m in c.mounts :: m.path == MOUNT_PATH
  }

  /** A token volume under another name stands in for the mutator's own. */
  predicate OtherVolumeServes(vs: seq<Volume>, audience: string) {
    !HasVolume(vs, VOLUME) && exists v | v in vs :: HasToken(v, audience)
  }

  lemma VolumesAfter(vs: seq<Volume>, audience: string, name: string)
    ensures HasVolume(WithVolume(vs, audience), name) <==>
            HasVolume(vs, name) || (name == VOLUME && !OtherVolumeServes(vs, audience))
  {
    hide HasToken;
    var r := WithVolume(vs, audience);
    if !Provided(vs, audience) {
      assert r[|vs|] in r && r[|vs|].name == VOLUME;
    }
    if HasVolume(vs, name) {
      var v :| v in vs && v.name == name;
      assert v in r;
    }
  }

  lemma ContainerClosedIff(vs: seq<Volume>, c: Container, id: Identity, audience: string)
    requires ClosedContainer(vs, c)
    ensures ClosedContainer(WithVolume(vs, audience), Injected(c, id)) <==>
              !OtherVolumeServes(vs, audience) || AtTokenPath(c)
  {
    hide WithIdentityEnv, WithVolume, HasVolume, OtherVolumeServes;
    var ms, vs' := WithMount(c.mounts), WithVolume(vs, audience);
    forall m | m in ms
      ensures HasVolume(vs', m.name) <==>
                HasVolume(vs, m.name) || (m.name == VOLUME && !OtherVolumeServes(vs, audience))
    {
      VolumesAfter(vs, audience, m.name);
    }
    ServesWithout(vs, audience);
    if !Mounted(c.mounts) {
      assert ms[|c.mounts|] in ms && ms[|c.mounts|].name == VOLUME;
    }
  }

  lemma ServesWithout(vs: seq<Volume>, audience: string)
    ensures OtherVolumeServes(vs, audience) ==> !HasVolume(vs, VOLUME)
  {}

  /** Mount closure, exactly: mutating a closed pod leaves it closed unless a token volume of another name stands in for
      the mutator's own and some container has nothing mounted at the token path. */
  lemma MountClosureIff(p: PodSpec, id: Identity, audience: string)
    requires id.Complete() && !Blank(audience) && Closed(p)
    ensures Closed(Mutated(p, id, audience)) <==>
            !OtherVolumeServes(p.volumes, TrimSpace(audience)) || (forall c | c in p.init + p.main :: AtTokenPath(c))
  {
    hide WithVolume, Blank, TrimSpace, OtherVolumeServes, Injected, ClosedContainer, AtTokenPath;
    var q, wanted := Mutated(p, id, audience), TrimSpace(audience);
    forall i | 0 <= i < |p.init|
      ensures ClosedContainer(q.volumes, q.init[i]) <==> !OtherVolumeServes(p.volumes, wanted) || AtTokenPath(p.init[i])
    {
      assert p.init[i] in p.init;
      ContainerClosedIff(p.volumes, p.init[i], id, wanted);
    }
    forall i | 0 <= i < |p.main|
      ensures ClosedContainer(q.volumes, q.main[i]) <==> !OtherVolumeServes(p.volumes, wanted) || AtTokenPath(p.main[i])
    {
      assert p.main[i] in p.main;
      ContainerClosedIff(p.volumes, p.main[i], id, wanted);
    }
    if Closed(q) && OtherVolumeServes(p.volumes, wanted) {
      forall c | c in p.init + p.main
        ensures AtTokenPath(c)
      {
        if c in p.init {
          var i :| 0 <= i < |p.init| && p.init[i] == c;
          assert q.init[i] in q.init;
        } else {
          var i :| 0 <= i < |p.main| && p.main[i] == c;
          assert q.main[i] in q.main;
        }
      }
    }
    if !OtherVolumeServes(p.volumes, wanted) || (forall c | c in p.init + p.main :: AtTokenPath(c)) {
      assert forall i | 0 <= i < |p.init| :: p.init[i] in p.init + p.main;
      assert forall i | 0 <= i < |p.main| :: p.main[i] in p.init + p.main;
    }
  }
}
