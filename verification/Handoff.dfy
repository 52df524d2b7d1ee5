/** From the controller to the pods: what a ready reconcile leaves on the ServiceAccount is what the mutator injects. */
module Handoff {
  import opened Strings
  import opened Subject
  import opened Store
  import opened Protocol
  import opened Conditions
  import opened Kube
  import opened Reconcile
  import opened History
  import PodMutator
  import Scopes

  lemma ReadBack(a: Annotations, account: string, organisation: string, project: string)
    ensures PodMutator.IdentityFrom(WithIdentity(a, account, organisation, project))
         == PodMutator.Identity(TrimSpace(organisation), TrimSpace(account), TrimSpace(project))
  {
    hide TrimSpace;
    EmptyIsBlank();
  }

  lemma PublishedAnnotations(cfg: Config, c: Cluster, ref: Ref, spec: Spec, r: EnsureResult, script: Script)
    requires Publish(cfg, c, ref, spec, r, script).seen.value.ready
    ensures var t := Publish(cfg, c, ref, spec, r, script);
            var at := Ref(ref.namespace, spec.serviceAccount);
            && t.seen == Some(ReadyWith(cfg, r)) && at in c.accounts && at in t.cluster.accounts
            && t.cluster.accounts[at] == WithIdentity(c.accounts[at], r.account, cfg.Organisation(), cfg.Project())
  {
    hide SyncConfigMap, WithIdentity, Config.Organisation, Config.Project;
    SyncTouches(c, ref, spec.serviceAccount, r.account, cfg.Organisation(), cfg.Project(), script);
  }

  lemma ReadyAnnotations(digest: Digest, cfg: Config, c: Cluster, ref: Ref, w: Wib, script: Script)
    requires Healthy(c.iam)
    requires var t := ReconcileBinding(digest, cfg, c, ref, w, script); t.seen.Some? && t.seen.value.ready
    ensures var t := ReconcileBinding(digest, cfg, c, ref, w, script);
            var at := Ref(ref.namespace, w.spec.serviceAccount);
            && !Blank(t.seen.value.account) && at in c.accounts && at in t.cluster.accounts
            && t.cluster.accounts[at]
                 == WithIdentity(c.accounts[at], t.seen.value.account, cfg.Organisation(), cfg.Project())
  {
    hide Healthy, Exec, StartEnsure, Publish, Stored, ValidDesired, Config.Watches, Config.Organisation,
      Config.Project, Scopes.Canonical, Words, Release, WithIdentity, Blank;
    ReleaseQuiet(digest, cfg, c, ref, w, script);
    var scopes := Scopes.Canonical(cfg.known, Words(w.spec.scopes)).scopes;
    var want := InputOf(cfg, ref.namespace, w.spec, scopes);
    EnsureHealthy(digest, want, c.iam, Tail(script));
    var (p, s, rest) := Exec(digest, StartEnsure(want), c.iam, Tail(script));
    PublishedAnnotations(cfg, c.(iam := s), ref, w.spec, ResultOf(p.task), rest);
  }

  lemma ReleaseQuiet(digest: Digest, cfg: Config, c: Cluster, ref: Ref, w: Wib, script: Script)
    ensures var t := Release(digest, cfg, c, ref, w, script); t.seen.Some? ==> !t.seen.value.ready
  {
    hide ClearAnnotations, DeleteCloud, Stored, DropString;
  }

  /** The variables that tell an identity, and where the token is. */
  predicate Gives(id: PodMutator.Identity, name: string, value: string) {
    || (name == "THALASSA_ORGANISATION_ID" && value == id.organisation)
    || (name == "THALASSA_SERVICE_ACCOUNT_ID" && value == id.account)
    || (name == "THALASSA_PROJECT_ID" && value == id.project != "")
    || (name == "THALASSA_SUBJECT_TOKEN_FILE" && value == "/var/run/secrets/thalassa/token")
  }

  lemma GivesIff(id: PodMutator.Identity, name: string, value: string)
    ensures Gives(id, name, value) <==> PodMutator.Offered(id, name) == Some(value)
  {}

  /** The container shows a process the identity for every name it did not define itself, and is otherwise as it was. */
  ghost predicate Carries(c: PodMutator.Container, d: PodMutator.Container, id: PodMutator.Identity) {
    && (forall name, value | !PodMutator.HasEnv(c.env, name) && Gives(id, name, value) ::
          PodMutator.FirstEnv(d.env, name) == Some(PodMutator.EnvVar(name, value, None)))
    && (forall name | PodMutator.HasEnv(c.env, name) || forall value :: !Gives(id, name, value) ::
          PodMutator.FirstEnv(d.env, name) == PodMutator.FirstEnv(c.env, name))
    && c.env <= d.env && c.mounts <= d.mounts && d.name == c.name
  }

  lemma InjectedCarries(c: PodMutator.Container, id: PodMutator.Identity)
    ensures Carries(c, PodMutator.Injected(c, id), id)
  {
    hide PodMutator.HasEnv, PodMutator.FirstEnv, PodMutator.Injected, PodMutator.Offered, Gives;
    var d := PodMutator.Injected(c, id);
    PodMutator.InjectedGrows(c, id);
    forall name
      ensures forall value | !PodMutator.HasEnv(c.env, name) && Gives(id, name, value) ::
                PodMutator.FirstEnv(d.env, name) == Some(PodMutator.EnvVar(name, value, None))
      ensures (PodMutator.HasEnv(c.env, name) || forall value :: !Gives(id, name, value)) ==>
                PodMutator.FirstEnv(d.env, name) == PodMutator.FirstEnv(c.env, name)
    {
      PodMutator.FirstValueWins(c, id, name);
      forall value
        ensures Gives(id, name, value) <==> PodMutator.Offered(id, name) == Some(value)
      {
        GivesIff(id, name, value);
      }
      NoneFirst(c.env, name);
      if PodMutator.Offered(id, name).Some? { assert Gives(id, name, PodMutator.Offered(id, name).value); }
    }
  }

  lemma NoneFirst(env: seq<PodMutator.EnvVar>, name: string)
    ensures PodMutator.HasEnv(env, name) <==> PodMutator.FirstEnv(env, name).Some?
  {
    PodMutator.FirstEnvSplit(env, [], name);
  }

  /** The hand-off: after a reconcile that observed ready, through whatever faults, with an organisation configured, the
      webhook reads a complete identity off the ServiceAccount, the one in the observation, and every init and main
      container of a mutated pod carries it. */
  lemma ReadyReachesPods(digest: Digest, cfg: Config, c: Cluster, ref: Ref, now: Time, script: Script,
                         pod: PodMutator.PodSpec, audience: string)
    requires Healthy(c.iam) && ref in c.objects && !Blank(cfg.organisation) && !Blank(audience)
    requires var t := Reconcile.Reconcile(digest, cfg, c, ref, now, script); t.seen.Some? && t.seen.value.ready
    ensures var t := Reconcile.Reconcile(digest, cfg, c, ref, now, script);
            var at := Ref(ref.namespace, c.objects[ref].spec.serviceAccount);
            && at in t.cluster.accounts
            && var id := PodMutator.IdentityFrom(t.cluster.accounts[at]);
               && id.Complete()
               && id.organisation == t.seen.value.organisation == TrimSpace(cfg.organisation)
               && id.project == t.seen.value.project == TrimSpace(cfg.project)
               && (Tight(t.seen.value.account) ==> id.account == t.seen.value.account)
               && var q := PodMutator.Mutated(pod, id, audience);
                  && |q.init| == |pod.init| && (forall i | 0 <= i < |pod.init| :: Carries(pod.init[i], q.init[i], id))
                  && |q.main| == |pod.main| && (forall i | 0 <= i < |pod.main| :: Carries(pod.main[i], q.main[i], id))
  {
    hide Healthy, ReconcileBinding, Config.Watches, StatusWith, Carries, PodMutator.Injected, PodMutator.WithVolume,
      TrimSpace, PodMutator.IdentityFrom, Tight;
    var w := c.objects[ref];
    ReadyAnnotations(digest, cfg, c, ref, w, Tail(script));
    var account := ReconcileBinding(digest, cfg, c, ref, w, Tail(script)).seen.value.account;
    var at := Ref(ref.namespace, w.spec.serviceAccount);
    ReadyNames(digest, cfg, c, ref, w, Tail(script));
    ReadBack(c.accounts[at], account, cfg.Organisation(), cfg.Project());
    TrimTwice(cfg.organisation);
    TrimTwice(cfg.project);
    TrimTwice(account);
    if Tight(account) { TightIsFixed(account); }
    var id := PodMutator.Identity(cfg.Organisation(), TrimSpace(account), cfg.Project());
    forall d: PodMutator.Container
      ensures Carries(d, PodMutator.Injected(d, id), id)
    {
      InjectedCarries(d, id);
    }
  }

  lemma ReadyNames(digest: Digest, cfg: Config, c: Cluster, ref: Ref, w: Wib, script: Script)
    requires var t := ReconcileBinding(digest, cfg, c, ref, w, script); t.seen.Some? && t.seen.value.ready
    ensures var o := ReconcileBinding(digest, cfg, c, ref, w, script).seen.value;
            o.organisation == cfg.Organisation() && o.project == cfg.Project()
  {
    hide Exec, StartEnsure, Publish, Stored, ValidDesired, Config.Watches, Config.Organisation, Config.Project,
      Scopes.Canonical, Words, Release;
    ReleaseQuiet(digest, cfg, c, ref, w, script);
    var scopes := Scopes.Canonical(cfg.known, Words(w.spec.scopes)).scopes;
    var want := InputOf(cfg, ref.namespace, w.spec, scopes);
    var (p, s, rest) := Exec(digest, StartEnsure(want), c.iam, Tail(script));
    PublishTouches(cfg, c.(iam := s), ref, w.spec, ResultOf(p.task), rest);
  }
}
