/** What a reconcile takes from the configuration and from the binding: over whole runs, for what is granted, and at the
    end of one reconcile, for what is made. */
module Configured {
  import opened Strings
  import opened Subject
  import opened Store
  import opened Protocol
  import opened Conditions
  import opened Kube
  import opened Reconcile
  import Allowlist
  import Guard
  import Leaks
  import Scopes
  import Runs

  // ---- one attempt

  /** A binding that an attempt adds is vetted for the attempt's input and carries its owner. */
  lemma {:induction false} ExecAdds(digest: Digest, p: Position, s: State, script: Script, slot: Slot, b: Binding)
    requires Guard.Clean({s.directory}, p) && Runs.OnTrack(p)
    requires b in Exec(digest, p, s, script).1.At(slot) && b !in s.At(slot)
    ensures var want := Guard.InputOf(p);
            && want.Some? && want.value.Ref(slot.kind) != ""
            && Guard.Vetted({s.directory}, want.value, slot) && Guard.AddedFor(b, want.value)
    decreases Stage(p), Left(p)
  {
    hide Guard.Clean, Step, Guard.Vetted, Guard.AddedFor, OwnershipLabels, Runs.OnTrack, TrimSpace;
    var o := Head(script);
    var (p', s') := Step(digest, p, s, o);
    StageDrops(digest, p, s, o);
    Guard.StepClean(digest, {s.directory}, p, s, o);
    Guard.StepKeepsDirectory(digest, p, s, o);
    Guard.StepIsAdvance(digest, p, s, o);
    Guard.StepSameInput(digest, p, Perform(s, Request(p), o).1);
    Runs.StepOnTrack(digest, p, Perform(s, Request(p), o).1);
    if b in s'.At(slot) {
      Guard.NewBinding(digest, p, s, o, slot, b);
      MadeFor(p, {s.directory}, b);
    } else {
      ExecAdds(digest, p', s', Tail(script), slot, b);
    }
  }

  lemma MadeFor(p: Position, ds: set<Directory>, b: Binding)
    requires p.MakeBinding? && Guard.Clean(ds, p) && Runs.OnTrack(p) && b.labels == p.task.job.Labels()
             && b.name == BindingName(p.task.job.key)
    ensures Guard.Vetted(ds, p.task.job.want, p.slot) && Guard.AddedFor(b, p.task.job.want)
    ensures Guard.InputOf(p) == Some(p.task.job.want) && p.task.job.want.Ref(p.slot.kind) != ""
  {
    hide LabelsMatch, OwnershipLabels, Guard.Vetted, TrimSpace, BindingName;
    OwnershipMatch(p.task.job.Labels(), p.task.job.key, p.task.job.want.namespace, p.task.job.want.name);
  }

  lemma EnsureAdds(digest: Digest, want: EnsureInput, s: State, script: Script, slot: Slot, b: Binding)
    requires b in Exec(digest, StartEnsure(want), s, script).1.At(slot) && b !in s.At(slot)
    ensures Guard.Vetted({s.directory}, want, slot) && Guard.AddedFor(b, want) && want.Ref(slot.kind) != ""
  {
    hide TrimSpace, Exec, Guard.Vetted, Guard.AddedFor;
    if want.Valid() {
      ExecAdds(digest, FindProvider(want), s, script, slot, b);
    } else {
      ExecEnd(digest, Stopped(Invalid), s, script);
    }
  }

  lemma DeleteAdds(digest: Digest, ns: string, n: string, issuer: string, roleRef: string, policyRef: string,
                   s: State, script: Script, slot: Slot, b: Binding)
    ensures b in Exec(digest, StartDelete(digest, ns, n, issuer, roleRef, policyRef), s, script).1.At(slot) ==>
              b in s.At(slot)
  {
    hide BuildSubject, ResourceKey, Exec;
    var p := StartDelete(digest, ns, n, issuer, roleRef, policyRef);
    if b in Exec(digest, p, s, script).1.At(slot) && b !in s.At(slot) { ExecAdds(digest, p, s, script, slot, b); }
  }

  // ---- what may be granted

  /** The text of the reference of this kind. */
  function Asked(policyRef: string, roleRef: string, kind: Kind): string {
    match kind
    case Policy => TrimSpace(policyRef)
    case Role => TrimSpace(roleRef)
  }

  /** The list that restricts this kind. */
  function Restriction(cfg: Config, kind: Kind): seq<string> {
    match kind
    case Policy => cfg.allowedPolicies
    case Role => cfg.allowedRoles
  }

  /** The slot is a target that the directory answers for the reference of its kind and that the configuration lists,
      under the reference or under the target's identity, slug or name. */
  ghost predicate MayGrant(cfg: Config, d: Directory, policyRef: string, roleRef: string, slot: Slot) {
    var ref := Asked(policyRef, roleRef, slot.kind);
    ref != "" && exists target: Target ::
      && target.id == slot.id && Guard.Answers(d, slot.kind, ref, target)
      && Allowlist.OnList(Restriction(cfg, slot.kind), [ref, target.id, target.slug, target.name])
  }

  lemma VettedMayGrant(cfg: Config, d: Directory, want: EnsureInput, policyRef: string, roleRef: string, slot: Slot)
    requires want.Allowed(slot.kind) == Restriction(cfg, slot.kind)
    requires want.Ref(slot.kind) == Asked(policyRef, roleRef, slot.kind) != ""
    requires Guard.Vetted({d}, want, slot)
    ensures MayGrant(cfg, d, policyRef, roleRef, slot)
  {
    hide TrimSpace, Guard.Answers, Allowlist.OnList, Allowlist.Permitted;
    var target :| Guard.Vet(d, want, slot, target);
    var names := [target.id, target.slug, target.name];
    Allowlist.PermittedIff(want.Allowed(slot.kind), want.Ref(slot.kind), names);
    assert [want.Ref(slot.kind)] + names == [want.Ref(slot.kind), target.id, target.slug, target.name];
  }

  /** The binding is the controller's, names this Kubernetes account, and is called after its key. */
  predicate Marked(b: Binding, namespace: string, name: string) {
    && Get(b.labels, "thalassa.cloud/managed-by") == "workload-identity-controller"
    && Get(b.labels, "thalassa.cloud/k8s-namespace") == namespace
    && Get(b.labels, "thalassa.cloud/k8s-service-account") == name
    && Get(b.labels, "thalassa.cloud/wif-vcs") == "kubernetes"
    && var title := "wif-k8s-" + Get(b.labels, "thalassa.cloud/wif-key");
       b.name == if |title| > 63 then title[..63] else title
  }

  /** A grant on behalf of an object. */
  ghost predicate Due(cfg: Config, d: Directory, ref: Ref, spec: Spec, slot: Slot, b: Binding) {
    MayGrant(cfg, d, spec.policyRef, spec.roleRef, slot) && Marked(b, ref.namespace, spec.serviceAccount)
  }

  // ---- one reconcile

  lemma ProvisionAdds(digest: Digest, cfg: Config, c: Cluster, ref: Ref, spec: Spec, scopes: seq<string>,
                      script: Script, slot: Slot, b: Binding)
    requires b in Provision(digest, cfg, c, ref, spec, scopes, script).cluster.iam.At(slot) && b !in c.iam.At(slot)
    ensures Due(cfg, c.iam.directory, ref, spec, slot, b)
  {
    hide Exec, StartEnsure, Publish, Guard.Vetted, MayGrant;
    var want := InputOf(cfg, ref.namespace, spec, scopes);
    var (p, s, rest) := Exec(digest, StartEnsure(want), c.iam, script);
    if p.Ensured? { PublishTouches(cfg, c.(iam := s), ref, spec, ResultOf(p.task), rest); }
    EnsureAdds(digest, want, c.iam, script, slot, b);
    VettedMayGrant(cfg, c.iam.directory, want, spec.policyRef, spec.roleRef, slot);
  }

  lemma ReleaseAdds(digest: Digest, cfg: Config, c: Cluster, ref: Ref, w: Wib, script: Script, slot: Slot, b: Binding)
    ensures b in Release(digest, cfg, c, ref, w, script).cluster.iam.At(slot) ==> b in c.iam.At(slot)
  {
    hide ClearAnnotations, DeleteCloud, DropString, Stored;
    var at := Ref(ref.namespace, w.spec.serviceAccount);
    ClearTouches(c, at, script);
    var cleared := ClearAnnotations(c, at, script);
    CloudAdds(digest, cfg, cleared.cluster, ref.namespace, w.spec, w.status.policy, cleared.rest, slot, b);
  }

  lemma CloudAdds(digest: Digest, cfg: Config, c: Cluster, ns: string, spec: Spec, policy: string, script: Script,
                  slot: Slot, b: Binding)
    ensures b in DeleteCloud(digest, cfg, c, ns, spec, policy, script).cluster.iam.At(slot) ==> b in c.iam.At(slot)
  {
    hide Exec, StartDelete, SelectProvider, NormalizeIssuer, Blank, PolicyToDrop;
    var choice := SelectProvider(c.iam.providers, cfg.cluster);
    if choice.OneProvider? {
      DeleteAdds(digest, ns, spec.serviceAccount, NormalizeIssuer(choice.provider.issuer), spec.roleRef,
                 PolicyToDrop(spec, policy), c.iam, Tail(script), slot, b);
    }
  }

  /** The object is one that a reconcile provides for. */
  predicate InUse(cfg: Config, c: Cluster, ref: Ref) {
    && ref in c.objects && !c.objects[ref].deleting && FINALIZER in c.objects[ref].finalizers
    && (cfg.watch == [] || ref.namespace in cfg.watch)
    && Ref(ref.namespace, c.objects[ref].spec.serviceAccount) in c.accounts
  }

  lemma BindingAdds(digest: Digest, cfg: Config, c: Cluster, ref: Ref, script: Script, slot: Slot, b: Binding)
    requires ref in c.objects && cfg.Watches(ref.namespace) && b !in c.iam.At(slot)
    requires b in ReconcileBinding(digest, cfg, c, ref, c.objects[ref], script).cluster.iam.At(slot)
    ensures InUse(cfg, c, ref) && Due(cfg, c.iam.directory, ref, c.objects[ref].spec, slot, b)
  {
    hide Provision, Release, Stored, Due, ValidDesired, Scopes.Canonical, Words;
    var w := c.objects[ref];
    ReleaseAdds(digest, cfg, c, ref, w, script, slot, b);
    var r := Scopes.Canonical(cfg.known, Words(w.spec.scopes));
    if r.Parsed? && b in Provision(digest, cfg, c, ref, w.spec, r.scopes, Tail(script)).cluster.iam.At(slot) {
      ProvisionAdds(digest, cfg, c, ref, w.spec, r.scopes, Tail(script), slot, b);
    }
  }

  /** A binding that a reconcile adds is one the object asks for and the configuration lists. */
  lemma PassAdds(digest: Digest, cfg: Config, c: Cluster, ref: Ref, now: Time, script: Script, slot: Slot, b: Binding)
    requires b in Reconcile.Reconcile(digest, cfg, c, ref, now, script).cluster.iam.At(slot) && b !in c.iam.At(slot)
    ensures InUse(cfg, c, ref) && Due(cfg, c.iam.directory, ref, c.objects[ref].spec, slot, b)
  {
    hide ReconcileBinding, Due, InUse, StatusWith, Config.Watches;
    BindingAdds(digest, cfg, c, ref, Tail(script), slot, b);
  }

  // ---- over runs

  /** At this moment of the run a reconcile of an object in use may grant the slot. */
  ghost predicate GrantedAt(digest: Digest, cfg: Config, c: Cluster, es: seq<Leaks.Event>, n: nat, slot: Slot,
                            b: Binding)
    requires n < |es|
  {
    var moment := Leaks.Run(digest, cfg, c, es[..n]);
    && es[n].Pass? && InUse(cfg, moment, es[n].ref)
    && Due(cfg, moment.iam.directory, es[n].ref, moment.objects[es[n].ref].spec, slot, b)
  }

  lemma NextAdds(digest: Digest, cfg: Config, c: Cluster, e: Leaks.Event, slot: Slot, b: Binding)
    requires b in Leaks.Next(digest, cfg, c, e).iam.At(slot) && b !in c.iam.At(slot)
    ensures e.Pass? && InUse(cfg, c, e.ref) && Due(cfg, c.iam.directory, e.ref, c.objects[e.ref].spec, slot, b)
  {
    hide Reconcile.Reconcile, Due, InUse;
    if e.Pass? { PassAdds(digest, cfg, c, e.ref, e.now, e.script, slot, b); }
  }

  /** The configuration over whole runs, whatever users do and whichever calls fail: each policy or role binding that
      was not there at the start was added by a reconcile of an object in use, is marked with its account, and is for a
      target that the directory answered then for the object's own reference and that the list for its kind, if there
      is one, names. */
  lemma {:induction false} OnlyListedOverRuns(digest: Digest, cfg: Config, c: Cluster, es: seq<Leaks.Event>, slot: Slot,
                                              b: Binding)
    returns (n: nat)
    requires b in Leaks.Run(digest, cfg, c, es).iam.At(slot) && b !in c.iam.At(slot)
    ensures n < |es| && GrantedAt(digest, cfg, c, es, n, slot, b)
    decreases |es|
  {
    hide Leaks.Next, InUse, Due;
    var e := es[0];
    var c1 := Leaks.Next(digest, cfg, c, e);
    if b in c1.iam.At(slot) {
      assert es[..0] == [];
      NextAdds(digest, cfg, c, e, slot, b);
      n := 0;
    } else {
      n := OnlyListedOverRuns(digest, cfg, c1, es[1..], slot, b);
      assert es[..n + 1][1..] == es[1..][..n] && es[..n + 1][0] == e;
      n := n + 1;
    }
  }
}
