/** Where the token is and who it is for: what a mutated pod projects, mounts and tells its processes. */
module PodToken {
  import opened Strings
  import opened PodMutator

  /** The volume projects a service account token for the audience, as a file called token. */
  predicate Projects(v: Volume, audience: string) {
    v.projected.Some? && exists t | t in v.projected.value :: t.Token? && t.audience == audience && t.path == "token"
  }

  predicate Called(vs: seq<Volume>, name: string) {
    exists v | v in vs :: v.name == name
  }

  predicate Projected(vs: seq<Volume>, audience: string) {
    exists v | v in vs :: Projects(v, audience)
  }

  /** The identity tells an organisation and an account, and the audience is not blank. */
  predicate Usable(id: Identity, audience: string) {
    TrimSpace(id.organisation) != "" && TrimSpace(id.account) != "" && TrimSpace(audience) != ""
  }

  lemma ProvidedIff(vs: seq<Volume>, audience: string)
    ensures Provided(vs, audience) <==> Called(vs, "thalassa-wif") || Projected(vs, audience)
  {
    forall v | v in vs
      ensures HasToken(v, audience) <==> Projects(v, audience)
    {}
  }

  /** Without a usable identity and audience the pod stays as it is. Otherwise it gets one volume more, for a token of
      exactly the trimmed audience that expires within the hour, unless it has a volume of that name or one that
      projects such a token. */
  lemma VolumesAre(p: PodSpec, id: Identity, audience: string)
    ensures !Usable(id, audience) ==> Mutated(p, id, audience) == p
    ensures Usable(id, audience) ==>
              Mutated(p, id, audience).volumes ==
                if Called(p.volumes, "thalassa-wif") || Projected(p.volumes, TrimSpace(audience)) then p.volumes
                else p.volumes + [Volume("thalassa-wif", Some([Token(TrimSpace(audience), "token", Some(3600))]))]
  {
    hide TrimSpace, AllInjected, Called, Projected, Provided;
    ProvidedIff(p.volumes, TrimSpace(audience));
  }

  /** So a pod without a volume of that name projects a token for the audience, whoever brought the volume. */
  lemma TokenIsProjected(p: PodSpec, id: Identity, audience: string)
    requires Usable(id, audience) && !Called(p.volumes, "thalassa-wif")
    ensures Projected(Mutated(p, id, audience).volumes, TrimSpace(audience))
  {
    hide TrimSpace, Called, Mutated;
    VolumesAre(p, id, audience);
    var wanted := TrimSpace(audience);
    if !Projected(p.volumes, wanted) {
      var t := Token(wanted, "token", Some(3600));
      var v := Volume("thalassa-wif", Some([t]));
      assert t in v.projected.value && Projects(v, wanted);
      assert (p.volumes + [v])[|p.volumes|] == v;
    }
  }

  /** What the process is told under a name, if the container did not define it. */
  predicate Tells(c: Container, d: Container, name: string, value: string) {
    !HasEnv(c.env, name) ==> FirstEnv(d.env, name) == Some(EnvVar(name, value, None))
  }

  /** A container as the mutator leaves it: it tells the identity and where the token is, and has the token's volume
      mounted, read-only, unless it has a mount of that name or at that place. */
  predicate Serves(c: Container, d: Container, id: Identity) {
    && d.name == c.name
    && Tells(c, d, "THALASSA_ORGANISATION_ID", id.organisation)
    && Tells(c, d, "THALASSA_SERVICE_ACCOUNT_ID", id.account)
    && (id.project != "" ==> Tells(c, d, "THALASSA_PROJECT_ID", id.project))
    && (id.project == "" && !HasEnv(c.env, "THALASSA_PROJECT_ID") ==> !HasEnv(d.env, "THALASSA_PROJECT_ID"))
    && Tells(c, d, "THALASSA_SUBJECT_TOKEN_FILE", "/var/run/secrets/thalassa/token")
    && d.mounts == if exists m | m in c.mounts :: m.name == "thalassa-wif" || m.path == "/var/run/secrets/thalassa"
                   then c.mounts else c.mounts + [Mount("thalassa-wif", "/var/run/secrets/thalassa", true)]
  }

  lemma InjectedServes(c: Container, id: Identity)
    ensures Serves(c, Injected(c, id), id)
  {
    hide HasEnv, FirstEnv, WithIdentityEnv;
    FirstValueWins(c, id, "THALASSA_ORGANISATION_ID");
    FirstValueWins(c, id, "THALASSA_SERVICE_ACCOUNT_ID");
    FirstValueWins(c, id, "THALASSA_PROJECT_ID");
    FirstValueWins(c, id, "THALASSA_SUBJECT_TOKEN_FILE");
    FirstEnvSplit(Injected(c, id).env, [], "THALASSA_PROJECT_ID");
  }

  /** Every init and every main container of a mutated pod serves. */
  lemma ContainersServe(p: PodSpec, id: Identity, audience: string)
    requires Usable(id, audience)
    ensures var q := Mutated(p, id, audience);
            && |q.init| == |p.init| && (forall i | 0 <= i < |p.init| :: Serves(p.init[i], q.init[i], id))
            && |q.main| == |p.main| && (forall i | 0 <= i < |p.main| :: Serves(p.main[i], q.main[i], id))
  {
    hide TrimSpace, Serves, Injected, WithVolume;
    forall c: Container
      ensures Serves(c, Injected(c, id), id)
    {
      InjectedServes(c, id);
    }
  }

  /** The file that a process is told is the token: where the mutator added the volume and the mount, it is the path of
      the projection below the path of the mount, and the mount is read-only. */
  lemma TokenFileIsThere(p: PodSpec, id: Identity, audience: string, c: Container, d: Container)
    returns (m: Mount, v: Volume, t: Projection)
    requires Usable(id, audience) && Serves(c, d, id)
    requires !Called(p.volumes, "thalassa-wif") && !Projected(p.volumes, TrimSpace(audience))
    requires forall m | m in c.mounts :: m.name != "thalassa-wif" && m.path != "/var/run/secrets/thalassa"
    requires !HasEnv(c.env, "THALASSA_SUBJECT_TOKEN_FILE")
    ensures m in d.mounts && v in Mutated(p, id, audience).volumes && m.name == v.name && m.readOnly
    ensures v.projected.Some? && t in v.projected.value && t.Token? && t.audience == TrimSpace(audience)
    ensures var e := FirstEnv(d.env, "THALASSA_SUBJECT_TOKEN_FILE");
            e.Some? && e.value.value == m.path + "/" + t.path && e.value.valueFrom.None?
  {
    hide TrimSpace, Called, Projected, Mutated, HasEnv, FirstEnv;
    VolumesAre(p, id, audience);
    t := Token(TrimSpace(audience), "token", Some(3600));
    v := Volume("thalassa-wif", Some([t]));
    m := Mount("thalassa-wif", "/var/run/secrets/thalassa", true);
    assert (p.volumes + [v])[|p.volumes|] == v && d.mounts[|c.mounts|] == m;
  }
}
