# Workload identity controller: a verified model

This project models, in Dafny, the controller that gives Kubernetes ServiceAccounts an identity in an IAM service, and
proves what its retried, non-atomic protocol guarantees. `dafny verify dfyconfig.toml` checks everything.

The controller keeps three kinds of IAM resources per Kubernetes ServiceAccount (the *owner*): a service account, a
federated identity pointing to it, and bindings of the account to a policy and a role. It has no transactions. It finds
its own resources by ownership labels, creates them in one order and deletes them in another, and is simply run again
after a failure.

## How the model is laid out

- `Store` is the IAM service: lists of resources, one answer per call, fresh identities. Every call has an outcome: it
  works, it fails before it has an effect, or its effect happens and the answer is lost.
- `Protocol` is the ensure and the delete protocol as a machine that makes one call per step. `Exec` runs one attempt
  against a script of outcomes; `World` interleaves the attempts of any number of owners call by call.
- `Ensure` has the same procedures in their imperative form (loops, early returns, a client object), each proved to
  follow the machine for every store and every script. So every theorem about the machine is one about the procedures.
- `Safety`, `Attempts`, `World`, `Guarantees`, `Runs`, `Guard`, `Resolution`, `Undo`, `Clearing`, `Quiescence`,
  `Stability` and `Subjects` hold the theorems about the protocol.
- `Kube` and `Reconcile` give one reconcile of a WorkloadIdentityBinding as a function of the cluster and the script;
  `BindingController` is its imperative form, proved equal. `Lifecycle`, `Leaks`, `History`, `Recovery` and `Removal` are
  about whole runs of reconciles mixed with users' edits, deletions and changes of the environment; `Truth` is about what
  a ready observation is worth, and `Restoration` follows one binding from creation to deletion.
- `Providers`, `Configured`, `Making`, `Requirements`, `Departure`, `Diligence`, `Patience` and `Ambiguity` say what the
  choices made on the way mean in the fields of the configuration, of the binding and of the store: which provider is the
  one, what may be granted, what is made, what success needs, what a last reconcile removes, and when a reconcile rests.
- `Witnesses` has inputs on which an expected property of the protocol, of a reconcile or of a mutated pod fails, one
  for each condition below; those about labels, keys and subjects are in `Subject`.
- `Legacy` and the modules named after it do the same for the controller of annotated ServiceAccounts.
- `PodMutator`, `PodToken` and `Handoff` are the pod webhook, what a mutated pod projects and mounts, and what reaches it
  from the controller.
- `Strings`, `Subject`, `Scopes`, `Sorting`, `Allowlist` and `Conditions` are the smaller parts.

## What is assumed

- Reads are fresh, and the attempts for one owner are serial: neither controller is set up with more than one worker
  (internal/controller/workloadidentitybinding_controller.go:111-115). The two controllers are modelled one at a time; run
  together for one owner they could both list before either creates.
- A reconcile is not interleaved with users' changes to the same object; between reconciles anything may change.
- The IAM service gives every new resource an identity it has never given before, and answers a list call with the list.
  Where the status or the annotations carry a service account's identity on, it is not blank (`History.Healthy`).
- The digest behind the resource key is an arbitrary function. Nothing depends on it being injective: isolation rests on
  the namespace and name labels next to the key.
- An update of a federated identity changes neither its subject nor its service account, because the request carries
  neither (internal/wif/ensure.go:306-314).
- For the theorems about leaks, users keep `deleteResources` set, keep `serviceAccountName`, and leave the controller's
  finalizer alone; whatever provider the cluster has names no issuer or always the same one. The provider may come and
  go: it is asked for only when a binding that is being deleted is reconciled, and then only if its owner still owns
  something that no other binding of the owner answers for (`Steady`, `MayLetGo`).

## Results worth knowing

- Deleting a binding while the cluster's provider is missing, or names no issuer, lets the finalizer go and leaves the
  resources behind: for every binding that can become ready (`Restoration.LeakAfterReady`), and from a store in which
  nothing is owned (`Witnesses.LeakExample`). A reconcile that lets a binding go leaks exactly when
  `Leaks.LettingGoIsSafeIff` says, and leaves exactly what `Leaks.ReleasedLeavesIff` says, for every key. The annotation
  controller never does this (`LegacyLeaks.NothingLeaks`, `LegacyLeaks.FailsClosed`), at the price of waiting.
- An ensure never moves an identity to another provider. If the provider was made anew under the same issuer, the old
  identity is found and kept, and success is reported with the new provider: the identity has the provider reported if
  and only if the one found had it, or none was found (`Quiescence.OriginIff`, `Witnesses.StaleProvider`). The same
  holds for the subject.
- After an ensure that succeeded the next one writes nothing and answers the same if and only if two things hold
  (`Quiescence.QuiescenceIff`). The federated identity found had the owner's subject: a wrong one is compared but never
  sent, so it is updated by every ensure for ever (`Witnesses.NeverQuiet`, `Witnesses.WrongSubject`); the controller's
  own steps never produce one (`Subjects.SubjectsStayRight`). And every slot bound is the one its reference leads to
  without faults: a direct lookup that fails for once is followed by a search of the list, which may find another role
  or policy, and the next ensure then binds a second one (`Witnesses.OtherRole`). After a fault-free ensure the subject
  alone decides.
- Which inputs are safe from this can be told from the directory and the input: those for which whatever a reference may
  lead to, permitted and with or without a failed lookup, is what it leads to without faults
  (`Stability.AlwaysRepeatedIff`). For them no outcomes make a later ensure write. For others a later failure may still
  make a quiet ensure write (`Witnesses.LateFailure`, `Stability.QuietWhateverFailsIff`).
- Two providers that carry the cluster's label stop both controllers: nothing in the IAM service changes and nothing that
  is to be deleted with its resources is let go (`Ambiguity.BindingWaitsForOne`, `Ambiguity.AccountWaitsForOne`).
- A pod mutated in the presence of an equivalent token volume under another name can be left with a mount that names no
  volume (`Witnesses.OpenMount`); `PodMutator.MountClosureIff` says exactly when.
- `LabelsMatch` documents containment. It is containment for the wanted labels if and only if there are any and none of
  their values is empty (`Subject.LabelsMatchIsContainment`): an empty value is matched by a missing label
  (`Subject.EmptyLabelMatchesAbsent`), and no wanted labels are matched by nothing. The ownership
  labels have neither fault.
- The key's hash input determines namespace, name and issuer unless a name and an issuer both hold a line break: over
  inputs in which names, issuers or neither may hold one it is injective, and where both may it is not
  (`Subject.KeyPreimageInjectiveIff`, `Subject.KeyPreimageNeedsOneLineNames`). No URL holds one.
- The subject alone determines its owner if and only if it can be cut into two proper names at one colon only
  (`Subject.SubjectDeterminesOwnerIff`). Namespaces without colons are enough (`Subject.SubjectInjective`); names with
  colons on both sides are not (`Subject.SubjectNotInjective`).
- Policy references prefer an identity match anywhere in the list; role references take the first match of any kind. The
  two rules agree on a list exactly when nothing that matches stands before the first identity match
  (`Resolution.PolicyPick`, `Resolution.RolePick`, `Resolution.RolesLackIdentityPreference`).
- A deletion after an ensure restores the store if and only if the identity of the bound policy resolves to itself;
  otherwise the policy's binding stays (`Clearing.DeleteUndoesEnsureIff`, `Clearing.PolicyBindingStays`,
  `Witnesses.LostPolicy`).

## Model

| member | source | states |
|---|---|---|
| Guarantees.ExactlyOnce | internal/wif/ensure.go:105-175 | over every run of interleaved, failing, answer-losing or abandoned attempts of any owners, no owner's service accounts or identities and no account's bindings in a slot grow beyond one (or beyond what there was) |
| Guarantees.ReferentialIntegrity | internal/wif/ensure.go:186-220 | over every such run and at every call boundary, each owner-labelled federated identity points to a service account with the same labels, and what a deletion has cleared stays cleared |
| Guarantees.StepNoDuplicates | internal/wif/ensure.go:248-315 | one call under any outcome adds no second resource of an owner and no second binding of an account in a slot |
| Guarantees.StepLinked | internal/wif/ensure.go:127-135 | one call keeps every owner-labelled identity linked to an account with the same labels |
| Guarantees.StepCleared | internal/wif/ensure.go:186-220 | one call keeps what the deletion has achieved: no identity once past it, no account at the end |
| Attempts.StepSafe | internal/wif/ensure.go:178-222 | one call keeps identities distinct and changes only resources with the owner's labels and bindings of the owner's account |
| Attempts.StepKnows | internal/wif/ensure.go:429-483 | what an attempt relies on at a position (account held, identity held, nothing granted yet) is true of the store after every call and outcome |
| World.NextConsistent | internal/wif/ensure.go:105-222 | a call of one owner, an abandoned attempt or a reconfiguration leaves what every other attempt in flight relies on |
| Runs.ExecIsolated | internal/wif/ensure.go:178-222 | a whole attempt leaves other owners' accounts and identities, other accounts' bindings and unlabelled bindings as they were, in order, for any digest |
| Runs.EnsureIsolated | internal/wif/ensure.go:105-175 | the same for an ensure, under the labels of the key it derives |
| Runs.DeleteIsolated | internal/wif/ensure.go:178-222 | the same for a deletion |
| Runs.EnsureSucceeds | internal/wif/ensure.go:137-175 | an ensure that reports success through any faults leaves exactly one account and one identity of the owner, linked, and a binding for each reference asked for |
| Runs.DeleteSucceeds | internal/wif/ensure.go:178-222 | a deletion that reports success through any faults leaves no account and no identity of the owner; for the bindings see `Clearing.DeletionClears` |
| Clearing.DeletionClears | internal/wif/ensure.go:196-215 | a deletion that reports success through any faults leaves, in every slot it went through, no binding of the owner's account that the controller labelled |
| Clearing.VisitsAnswered | internal/wif/ensure.go:200-215 | a deletion goes through the slot of each reference whose resolution is answered, through any faults, and passes over one that does not resolve |
| Clearing.CleanVisits | internal/wif/ensure.go:200-215 | without faults, a deletion that has its account goes through exactly the slots its references resolve to |
| Departure.DeletionWithdraws | internal/wif/ensure.go:178-222 | a fault-free deletion removes, of all bindings, exactly those that the controller labelled and gave the owner's account in the slots its two references name |
| Subject.OwnersAreSeparate | internal/wif/subject.go:44-65 | one resource cannot match the labels of two different owners or keys |
| Subject.OwnershipMatch | internal/wif/subject.go:44-65 | matching the ownership labels is having all five values; matching them implies being managed by the controller |
| Subject.LabelsMatchIsContainment | internal/wif/subject.go:54-65 | for wanted labels, matching is containing every key and value, for all labels there may be, if and only if something is wanted and no wanted value is empty |
| Subject.EmptyLabelMatchesAbsent | internal/wif/subject.go:54-65 | for every wanted label with an empty value: labels without its key match and do not contain what is wanted |
| Subject.KeyPreimageInjective | internal/wif/subject.go:32-41 | equal hash inputs mean equal trimmed namespace, trimmed name and normalised issuer, unless one side's name and the other side's issuer both hold a line break |
| Subject.KeyPreimageLines | internal/wif/subject.go:32-41 | the hash input has four lines: the kind, trimmed namespace and name with a slash between, the subject, the normalised issuer |
| Subject.IssuerIsOne | internal/wif/subject.go:25-30 | an issuer is the same with and without space around it and with and without one slash at its end |
| Subject.KeyOfIssuer | internal/wif/subject.go:25-41 | so its key is the same |
| Subject.KeyPreimageNeedsOneLineNames | internal/wif/subject.go:32-41 | for any proper names there is another name and an issuer that give the same hash input, both with line breaks |
| Subject.KeyPreimageInjectiveIff | internal/wif/subject.go:32-41 | over the inputs whose names, and whose issuers, may or may not hold line breaks, the hash input is injective if and only if not both may |
| Subject.SubjectNotInjective | internal/wif/subject.go:13-23 | moving a colon between namespace and name keeps the subject |
| Subject.SubjectDeterminesOwnerIff | internal/wif/subject.go:13-23 | a subject belongs to one trimmed namespace and name if and only if its text can be cut into two proper names at one colon only |
| Subject.SubjectInjective | internal/wif/subject.go:13-23 | equal subjects mean equal trimmed namespace and name where neither namespace holds a colon, and where one owner holds none at all |
| Sorting.SameAfterSortIff | internal/wif/ensure.go:519-537 | comparing sorted lists is comparing multisets |
| Sorting.SortedUnique | internal/wif/ensure.go:519-537 | sorted lists with the same elements are equal, whatever algorithm sorted them |
| Quiescence.QuiescenceIff | internal/wif/ensure.go:303-336 | after a successful ensure through any faults and any reordering of scopes and audiences by the service, a second ensure makes no write and answers the same if and only if the identity found had the right subject and each slot bound is the one its reference leads to without faults; with a wrong subject it writes; after a fault-free first ensure the subject alone decides |
| Stability.QuietWhateverFailsIff | internal/wif/ensure.go:146-172 | after a successful ensure through any faults, no outcomes at all make a later ensure write if and only if the identity found had the right subject and the account is granted everything its references may lead to |
| Stability.AlwaysRepeatedIff | internal/wif/ensure.go:382-427 | for a store on which an ensure can succeed: every one that does, with whatever outcomes, is repeated by the next without a write, if and only if the identity found has the right subject and a failed lookup makes no difference to where the references lead; then no outcomes make a later ensure write |
| Stability.MayBindIff | internal/wif/ensure.go:382-427 | where an ensure can succeed, some outcomes make it bind exactly given slots if and only if there is one for each reference in order, and each is a permitted answer of the direct lookup or of the search |
| Witnesses.OtherRole | internal/wif/ensure.go:382-398 | a lookup that fails once binds one role, and the next, fault-free ensure writes and binds another |
| Witnesses.LateFailure | internal/wif/ensure.go:382-398 | an ensure is repeated without a write, and some outcomes still make a later one write |
| Quiescence.NeedsUpdateIff | internal/wif/ensure.go:317-336 | no update is needed exactly when everything compared agrees, lists up to order |
| Quiescence.EnsureUpdates | internal/wif/ensure.go:274-315 | an ensure that succeeds through any faults leaves the owner's identity with the name, description, labels, scopes and audiences asked for, and with the subject and provider of the identity found, or the job's where none was |
| Quiescence.OriginIff | internal/wif/ensure.go:274-315 | after an ensure that succeeds through any faults the owner's identity has the reported provider if and only if the one found, when there was one, had it; and the owner's subject likewise |
| Witnesses.StaleProvider | internal/wif/ensure.go:303-336 | a store whose identity is at another provider of the same issuer: an ensure succeeds, reports the new provider and leaves the identity at the old one |
| Witnesses.NeverQuiet | internal/wif/ensure.go:303-336 | from any sound store whose identity has a wrong subject and on which a fault-free ensure can succeed, each of any number of fault-free ensures succeeds and the next one still writes |
| Witnesses.WrongSubject | internal/wif/ensure.go:303-336 | such a store |
| Quiescence.QuietKeepsStore | internal/wif/ensure.go:105-175 | an attempt without writes leaves the store as it is |
| Subjects.SubjectsStayRight | internal/wif/ensure.go:289-314 | over every run, each owner-labelled identity has its owner's subject, if it was so at the start |
| Subjects.QuietAfterRuns | internal/wif/ensure.go:303-336 | after any run from a store with right subjects, a successful ensure is repeated without a write if and only if each slot bound is the one its reference leads to without faults, and never followed by a write if and only if the account is granted everything its references may lead to; both hold where a failed lookup makes no difference |
| Undo.DeleteUndoesEnsure | internal/wif/ensure.go:105-222 | a fault-free ensure from a store with nothing of the owner, then a delete with the returned policy identity, restores every account, identity and binding list, if that identity resolves to itself |
| Clearing.DeleteUndoesEnsureIff | internal/wif/ensure.go:105-222 | it restores them if and only if the identity of the bound policy resolves to itself |
| Clearing.PolicyBindingStays | internal/wif/ensure.go:200-207 | where it does not, the deletion leaves the binding that the ensure added to the policy's slot |
| Witnesses.LostPolicy | internal/wif/ensure.go:200-207 | a policy that a direct lookup finds by another word: the ensure succeeds, the deletion reports success and the binding is still there |
| Undo.IdentitiesReResolve | internal/wif/ensure.go:400-427 | with unique, proper identities every policy reference resolves to an identity that resolves to itself |
| Resolution.PolicyPick | internal/wif/ensure.go:400-427 | the single pass over policies answers an identity match anywhere, else the first slug or name match, else nothing |
| Resolution.RolePick | internal/wif/ensure.go:382-398 | a role is the first in the list to match in any way, and none only if nothing matches |
| Resolution.RolesLackIdentityPreference | internal/wif/ensure.go:382-427 | for every list, the two rules pick the same if and only if the first match of any kind is the first identity match, or nothing matches by identity |
| Resolution.ResolveAgain | internal/wif/ensure.go:400-427 | resolving the identity of a resolved policy gives a policy with that identity |
| Guard.AllowlistOverRuns | internal/config/allowlist.go:8-47 | with a non-empty allowlist, every binding a run added is for a policy or role found by its owner's reference and listed by reference, identity, slug or name |
| Guard.RunGuarded | internal/wif/ensure.go:146-172 | over every run, each added binding carries the labels of some input that was asked for and whose reference was answered and permitted for that slot |
| Guard.EnsureVetted | internal/wif/ensure.go:146-172 | an ensure that succeeds has bound only slots the directory answers for its references and the allowlists permit |
| Allowlist.RefAllowed | internal/config/allowlist.go:8-35 | the loops decide whether some non-blank entry equals some non-blank name, ignoring case and outer space, or the list is empty |
| Allowlist.CheckRefAllowlist | internal/config/allowlist.go:37-47 | a blank reference or empty list passes, otherwise the list decides |
| Allowlist.PermittedIff | internal/config/allowlist.go:8-35 | entry by entry: a reference passes if and only if the list is empty or some entry and some name, neither of them blank, are equal once trimmed and folded |
| Strings.TrimIff | internal/config/allowlist.go:14-26 | the trimmed text is the one without space at either end that space on both sides makes the whole |
| Strings.EqualFoldIff | internal/config/allowlist.go:27-33 | two texts are equal under folding if and only if they have one length and, place by place, the same character or the same letter in either case |
| Configured.OnlyListedOverRuns | internal/controller/binding_reconcile.go:148-160 | over every run of reconciles through any faults, mixed with users' events, each binding that was not there at the start was added by a reconcile of a watched, held and staying object, carries the labels of its namespace and account and the name of its key, and is for a target that the directory answered at that moment for the object's own reference of that kind, found on the configured list of that kind unless the list is empty |
| Ensure.IamClient.Invoke | internal/wif/ensure.go:18-37 | one call takes the next outcome and has exactly its effect and answer |
| Ensure.FindProviderAmong | internal/wif/ensure.go:85-101 | the counting loop finds none, the one, or several providers with the cluster's label; what these mean is `Providers.SelectProviderIff` |
| Providers.SelectProviderIff | internal/wif/ensure.go:85-101 | over the indices of the list: one provider if and only if a single entry carries the label and it is that one, none if and only if no entry does, several if and only if two entries do |
| Providers.EnsureNeedsOneProvider | internal/wif/ensure.go:85-120 | with no labelled provider or with two, an ensure makes no second call, leaves the store and fails with the error of that case |
| Ambiguity.BindingWaitsForOne | internal/controller/binding_reconcile.go:326-340 | with two labelled providers a reconcile of a binding, through any faults, changes nothing in the IAM service, and one that is to be deleted with its resources keeps its finalizers and fails |
| Ambiguity.AccountWaitsForOne | internal/controller/serviceaccount_controller.go:153-165 | the same of the annotation controller |
| Ensure.FindByLabels | internal/wif/ensure.go:429-457 | the loop finds the first resource with the wanted labels |
| Store.FindIff | internal/wif/ensure.go:429-457 | a resource is found if and only if it stands at some index, matches, and none before it does |
| Ensure.HasBindingFor | internal/wif/ensure.go:459-483 | the loop finds whether some binding grants to the account |
| Ensure.PickPolicy | internal/wif/ensure.go:408-427 | the single pass computes the policy rule |
| Ensure.PickRole | internal/wif/ensure.go:388-398 | the loop computes the role rule |
| Ensure.ResolveReference | internal/wif/ensure.go:382-427 | direct lookup first, then the list; no change of the store |
| Ensure.EnsureServiceAccount | internal/wif/ensure.go:248-272 | follows the protocol from finding the account to having it, for every store and script |
| Ensure.EnsureFederatedIdentity | internal/wif/ensure.go:274-315 | follows the protocol from finding the identity to having it right |
| Ensure.EnsureBinding | internal/wif/ensure.go:338-380 | follows the protocol from listing a slot to the binding in place |
| Ensure.EnsureReference | internal/wif/ensure.go:146-157 | follows the protocol through resolution, allowlist and binding of one reference |
| Ensure.EnsureReferences | internal/wif/ensure.go:146-172 | follows the protocol through policy, then role |
| Ensure.PlanJob | internal/wif/ensure.go:110-125 | follows the protocol through the provider to subject and key, with every error |
| Ensure.EnsureWorkloadIdentity | internal/wif/ensure.go:105-175 | result, store and unused outcomes are those of the protocol run to its end |
| Requirements.EnsureCompletesWhen | internal/wif/ensure.go:105-246 | a fault-free ensure succeeds if and only if the names are proper, a reference is given and none is to everything, cluster, audiences and scopes are given, a single provider carries the label and its issuer is more than space and a slash, and each reference given resolves to something on its list |
| Ensure.DeleteBindingsFor | internal/wif/ensure.go:485-517 | the loop deletes, from the list as answered, the controller's bindings of the account |
| Ensure.DropReference | internal/wif/ensure.go:200-215 | follows the protocol through one reference, passing over one that does not resolve |
| Ensure.DeleteWorkloadIdentity | internal/wif/ensure.go:178-222 | result, store and unused outcomes are those of the deletion run to its end |
| Scopes.ParseScopeList | internal/wif/subject.go:98-123 | the loop over a growing list and a seen set gives the first bad word, or the words once each, or openid |
| Scopes.ParseScopes | internal/wif/subject.go:89-95 | the same for the comma-separated form |
| Scopes.ParseIsCanonical | internal/wif/subject.go:98-123 | a successful parse is non-empty, free of duplicates and of unknown names |
| Scopes.ParseFailsIff | internal/wif/subject.go:98-112 | a parse fails as a wildcard, or as unsupported with a word, if and only if that is the first word that stands for everything or is not known |
| Scopes.FirstOccurrenceOrder | internal/wif/subject.go:113-117 | the parsed scopes stand in the order of first occurrence |
| Scopes.CanonicalIsFixed | internal/wif/subject.go:98-123 | a canonical list parses to itself |
| Scopes.ScopeRoundTrip | internal/wif/subject.go:89-123 | joining a parse with commas and parsing again gives the same list |
| Conditions.ConditionList.Set | internal/controller/binding_reconcile.go:382-400 | the loop overwrites the entry of the type, keeps its time when the status is the same, or appends |
| Conditions.ConditionList.SetReady | internal/controller/binding_reconcile.go:359-380 | sets the Ready condition from an observation, or nothing without one |
| Conditions.WithConditionFacts | internal/controller/binding_reconcile.go:382-400 | other types are untouched and the early return makes no difference |
| Conditions.TransitionTime | internal/controller/binding_reconcile.go:359-400 | after any history the Ready entry tells status, reason, generation and message of the last observation, the message cut after 1024 characters, and the time of the first one in the longest trailing run with its status; no type gets a second entry |
| Reconcile.BindingTouches | internal/controller/binding_reconcile.go:57-220 | before the status patch a reconcile changes at most the finalizers of its one object |
| Reconcile.PublishTouches | internal/controller/binding_reconcile.go:180-219 | publishing changes annotations and ConfigMaps only and observes either ready with the result's identities or an error without any |
| BindingController.BindingReconciler.Run | internal/controller/workloadidentitybinding_controller.go:36-69 | one request changes the cluster, and ends, as the reconcile function says |
| BindingController.BindingReconciler.ReconcileBinding | internal/controller/binding_reconcile.go:57-146 | every branch of the state machine is that of the function |
| BindingController.BindingReconciler.ReleaseObject | internal/controller/binding_reconcile.go:65-96 | clear annotations, delete resources if asked, drop the finalizer, stopping at the first failure |
| BindingController.BindingReconciler.ClaimObject | internal/controller/binding_reconcile.go:98-104 | add the finalizer and ask to run again |
| BindingController.BindingReconciler.ProvisionObject | internal/controller/binding_reconcile.go:148-178 | ensure and classify its errors; what is taken from the configuration is pinned by `Configured.OnlyListedOverRuns` and `Making.ReadyAsConfigured` |
| BindingController.BindingReconciler.PublishIdentity | internal/controller/binding_reconcile.go:180-219 | ConfigMap, annotations, ready observation |
| BindingController.BindingReconciler.SyncIdentityConfigMap | internal/controller/binding_reconcile.go:222-255 | create or update, refusing unusable data and another controller's map, with no call when nothing differs |
| BindingController.BindingReconciler.AnnotateServiceAccountIdentity | internal/controller/binding_reconcile.go:257-277 | the re-read account gets the three identity annotations, the project one removed when empty |
| BindingController.BindingReconciler.ClearServiceAccountIdentityAnnotations | internal/controller/binding_reconcile.go:279-309 | the loop removes the identity annotations and writes only if one was there |
| BindingController.BindingReconciler.DeleteCloudResources | internal/controller/binding_reconcile.go:326-357 | skipped without provider or issuer, failing on several providers, otherwise a deletion preferring the resolved policy; what it removes is `Departure.LastReconcile` |
| BindingController.BindingReconciler.PatchObjectStatus | internal/controller/workloadidentitybinding_controller.go:71-90 | the re-read object gets the new status, identities only from an observation that has them |
| BindingController.Contains | internal/controller/serviceaccount_controller.go:246-253 | the loop decides membership |
| Lifecycle.EnsureConcerns | internal/wif/ensure.go:105-175 | an ensure, through any faults, changes what is owned only for its own owner under the key of the cluster's issuer |
| Lifecycle.DeleteConcerns | internal/wif/ensure.go:178-222 | so does a deletion, and one that reports success leaves that owner nothing under that key |
| Leaks.NothingLeaks | internal/controller/binding_reconcile.go:65-104 | over every run of reconciles with faults and steady user events, with the provider free to come and go except while a binding that still owns something alone is let go, whatever is owned is owned by an owner whose binding exists, has its finalizer and deletes its resources |
| Leaks.NothingLeaksFromNothing | internal/controller/binding_reconcile.go:65-104 | the same from any store in which nothing is owned |
| Leaks.ReleasedLeavesIff | internal/controller/binding_reconcile.go:326-357 | when a reconcile lets a binding go, resources under a key stay behind if and only if they were there and the deletion did not look under that key |
| Leaks.LettingGoIsSafeIff | internal/controller/binding_reconcile.go:65-96 | a reconcile that lets a binding go from a safe cluster leaks nothing if and only if the provider is there with its issuer, or the owner owns nothing, or another binding of the owner stays |
| Witnesses.LeakExample | internal/controller/binding_reconcile.go:328-337 | from a store in which nothing is owned: a binding is created, becomes ready and is deleted while no provider is listed, and its owner still owns resources with no object left |
| Restoration.LeakAfterReady | internal/controller/binding_reconcile.go:328-337 | so does every binding that can become ready, from any healthy store |
| Leaks.DeletionWithoutProvider | internal/controller/binding_reconcile.go:328-337 | and so does every deletion in that situation |
| Departure.LastReconcile | internal/controller/binding_reconcile.go:65-96 | a fault-free last reconcile with the provider there, whatever the status says: the object loses the finalizer, the ServiceAccount exactly the six identity annotations, the owner its account and identity, and of the bindings exactly those go that the controller gave the owner's account in the slot of the policy in the status, or of the one referred to where the status has none, and in the slot of the role referred to |
| Departure.LastReconcileKeeps | internal/controller/binding_reconcile.go:80-96 | where the resources are to stay, it leaves the IAM service as it is |
| Departure.ClearsFirst | internal/controller/binding_reconcile.go:65-96 | through any faults: once a reconcile of an object being deleted has changed the IAM service or let go, the ServiceAccount has none of the six annotations, and no other ServiceAccount has changed |
| History.StatusIsHistory | internal/controller/workloadidentitybinding_controller.go:50-90 | while an object lives, its status is the fold of the observations written into it |
| History.StickyIdentity | internal/controller/workloadidentitybinding_controller.go:77-88 | over any run the identities in the status are those of the last ready observation written; generation, time and Ready condition are those of the last observation, with the time its status began |
| History.BindingHonest | internal/controller/binding_reconcile.go:203-219 | an observation names a service account exactly when it is ready |
| Truth.ReadyIsTrue | internal/controller/binding_reconcile.go:148-219 | when a reconcile observes ready, through any faults, the account and identity named are the owner's only ones, linked, with the scopes and audiences asked for, the provider named is the cluster's, and each reference has a binding to a permitted answer, the policy's being the one named; the identity itself is at the provider named if and only if the owner's identity before, when there was one, was, and has the owner's subject on the same condition |
| Truth.ReadyFillsConfigMap | internal/controller/binding_reconcile.go:180-255 | where the ConfigMap is wanted, a reconcile that observes ready, through any faults, leaves it with exactly the organisation, account and project observed, controlled by the binding, with labels for manager, namespace and account |
| Truth.PublishesLast | internal/controller/binding_reconcile.go:148-219 | through any faults: when a reconcile of an object that stays has changed an annotation or a ConfigMap, the store already holds all that was asked for; of the annotations only the account's, organisation's and project's have changed, on the one ServiceAccount, and they tell the resulting account and the configuration |
| Making.ReadyAsConfigured | internal/wif/ensure.go:248-315 | a ready reconcile has left the identity with the configured audiences and the scopes listed in the spec, each once, named after the override or a key; an account it made is named likewise and noted with namespace, name and subject; the organisation and project told are the configured ones, trimmed |
| Making.EnsureAnswers | internal/wif/ensure.go:110-125 | through any faults, an ensure that succeeds answers the only provider with the cluster's label, the subject of the trimmed namespace and name, the provider's issuer normalised, and as key the digest of kind, namespace and name, subject and issuer, line by line |
| Requirements.ReadyWhen | internal/controller/binding_reconcile.go:106-220 | a fault-free reconcile of a watched, held and staying binding leaves it ready if and only if the conditions on spec, configuration, ServiceAccount, provider, references and ConfigMap hold, each spelled out in fields |
| Diligence.ReasonsTell | internal/controller/binding_reconcile.go:57-220 | through any faults the reason observed, the phase, the error returned and the wish to run again say the same, and the cause a reason names is there |
| Diligence.NothingForgotten | internal/controller/workloadidentitybinding_controller.go:36-69 | through any faults, a reconcile without error that does not ask to run again leaves the object gone, not watched, let go, ready in its status of this generation, or in error over something only the user can help; it asks to run at once only after adding the finalizer, and later only while no provider carries the label |
| Diligence.UnwatchedIsLeftAlone | internal/controller/workloadidentitybinding_controller.go:36-48 | in a namespace that is not watched a reconcile changes nothing |
| Diligence.MapsAreKept | internal/controller/binding_reconcile.go:222-255 | through any faults a reconcile changes no ConfigMap but the one named after its account, and that only where one is asked for and no other object controls it |
| Patience.HopelessIsFinal | internal/controller/binding_reconcile.go:106-146 | a held binding over whose spec, scopes or missing ServiceAccount only the user can help: through any faults nothing but its status may change and it is not tried again; without faults no error is returned and the status tells it, as of this generation, keeping the identities |
| Patience.WaitsForProvider | internal/controller/binding_reconcile.go:160-170 | a held binding without a labelled provider: through any faults nothing but its status may change; without faults, with nothing else missing, it is pending, without error, and tried again later |
| Restoration.DeletionRestores | internal/controller/workloadidentitybinding_controller.go:36-90 | from a cluster with nothing of the owner, a fault-free reconcile makes the binding ready; deleted, one fault-free reconcile later the object is gone, every list of the store is as it was, and the ServiceAccount has its other annotations |
| Recovery.EnsureCompletesIff | internal/wif/ensure.go:105-175 | from any store, a fault-free ensure succeeds if and only if the input is valid, one provider has an issuer, the names make a subject and every reference resolves to something permitted |
| Recovery.ReadyIff | internal/controller/binding_reconcile.go:106-220 | a fault-free reconcile of a binding with its finalizer leaves it ready if and only if spec, account, scopes, provider, references and ConfigMap allow |
| Recovery.BoundedRecovery | internal/controller/binding_reconcile.go:98-220 | with at most f faults in all calls, one of the first f + 2 reconciles leaves the binding ready in its stored status |
| Removal.DeleteCompletesIff | internal/wif/ensure.go:178-222 | from any store, a fault-free deletion succeeds if and only if the names make a subject |
| Removal.LetsGoIff | internal/controller/binding_reconcile.go:65-96 | a fault-free reconcile of a binding being deleted drops the finalizer if and only if its deletion has what it needs |
| Removal.BoundedRemoval | internal/controller/binding_reconcile.go:65-96 | with at most f faults in all calls, one of the first f + 1 reconciles drops the finalizer |
| Legacy.ServiceAccountReconciler.Run | internal/controller/serviceaccount_controller.go:35-151 | one request changes the accounts and the store, and ends, as the reconcile function says |
| Legacy.ServiceAccountReconciler.ReleaseAccount | internal/controller/serviceaccount_controller.go:54-86 | delete resources if asked, then drop the finalizer; on failure report and keep it |
| Legacy.ServiceAccountReconciler.ServeAccount | internal/controller/serviceaccount_controller.go:116-150 | report pending, ensure, report the outcome |
| Legacy.ServiceAccountReconciler.DeleteCloudResources | internal/controller/serviceaccount_controller.go:153-175 | fails without exactly one provider that names an issuer; what it removes is `LegacyDeparture.LastPass` |
| Legacy.ServiceAccountReconciler.PatchStatus | internal/controller/serviceaccount_controller.go:177-208 | the re-read account gets the status annotations, set and deleted one by one |
| LegacyLeaks.NothingLeaks | internal/controller/serviceaccount_controller.go:54-95 | from any store in which nothing is owned and over every run, with the provider free to come and go, whatever is owned is owned under the issuer's key by a ServiceAccount that exists with its finalizer |
| LegacyLeaks.FailsClosed | internal/controller/serviceaccount_controller.go:153-165 | without a provider that names an issuer, a reconcile changes no resource and keeps the finalizer |
| LegacyConfigured.OnlyListedOverRuns | internal/controller/serviceaccount_controller.go:118-129 | as for the other controller: each binding a run added is for the annotation's own reference and on the configured list of its kind, and was added by a pass over an account that was opted in, watched, held and staying |
| LegacyConfigured.ServedAsConfigured | internal/controller/serviceaccount_controller.go:97-150 | a pass that ends well has left the identity it names with the configured audiences and the scopes annotated, named after the annotated name or a key, and an account it made named and noted likewise |
| LegacyDeparture.LastPass | internal/controller/serviceaccount_controller.go:54-86 | a fault-free last pass with the provider there: the account loses the finalizer and nothing else, the owner its resources, and of the bindings exactly those go that the controller gave the owner's account in the slot of the policy-id annotation, or of the policy annotation where that is empty, and in the slot of the role annotation |
| LegacyDeparture.LastPassKeeps | internal/controller/serviceaccount_controller.go:54-86 | where deletion is not asked for, it leaves the IAM service as it is |
| LegacyDeparture.DeletionRestores | internal/controller/serviceaccount_controller.go:35-175 | from a store with nothing of the owner, a fault-free pass serves the account; deleted, one fault-free pass later it is gone and every list of the store is as it was |
| LegacyDiligence.NothingForgotten | internal/controller/serviceaccount_controller.go:35-151 | through any faults, a pass without error that does not ask to run again leaves the account gone, not watched, let go, ready as of this pass, or with annotations only the user can mend; it asks to run at once only after adding the finalizer, and later only while no provider carries the label; without faults every failure is told in the status, with an error and the identities kept |
| LegacyDiligence.OthersAreLeftAlone | internal/controller/serviceaccount_controller.go:45-86 | an account that is not watched, or neither opted in nor held, is left as it is, and so is everything else |
| LegacyDiligence.ReadyWhen | internal/controller/serviceaccount_controller.go:97-150 | a fault-free pass over an account in use tells that it is ready if and only if the conditions on annotations, configuration, provider and references hold, each spelled out |
| Patience.UnusableIsFinal | internal/controller/serviceaccount_controller.go:97-114 | an account in use whose annotations only the user can mend: through any faults the IAM service stays as it is and the pass is not repeated, and no error is returned once the account is read |
| Patience.AccountWaitsForProvider | internal/controller/serviceaccount_controller.go:131-138 | an account in use without a labelled provider: the IAM service stays as it is; without faults and with nothing else missing there is no error and it is tried again later |
| LegacyTruth.ServedIsTrue | internal/controller/serviceaccount_controller.go:35-151 | a pass over a ServiceAccount that is watched, opted in, held, staying and has usable references and scopes, and that ends well and is done, has through any faults written the ready status and identities that are true of the store, as for a ready observation, with the same condition on the identity's provider and subject |
| PodMutator.MutatePod | internal/webhook/podmutator/mutate.go:46-67 | in place, the pod becomes the mutated pod, and the result says whether it differs |
| PodMutator.InjectContainer | internal/webhook/podmutator/mutate.go:69-86 | the container at an index becomes the injected one, and the result says whether it differs |
| PodMutator.EnsureEnv | internal/webhook/podmutator/mutate.go:88-96 | appends the variable unless the name is taken |
| PodMutator.EnsureVolumeMount | internal/webhook/podmutator/mutate.go:98-110 | appends the mount unless the volume or the path is mounted |
| PodMutator.Pod.EnsureProjectedTokenVolume | internal/webhook/podmutator/mutate.go:112-137 | appends the token volume unless its name is taken or an equivalent one is there; what it projects is `PodToken.VolumesAre` |
| PodMutator.VolumeHasThalassaToken | internal/webhook/podmutator/mutate.go:139-153 | decides whether a volume projects a token for the audience at the token path |
| PodToken.VolumesAre | internal/webhook/podmutator/mutate.go:112-137 | a pod gets one volume more, a projected token for exactly the trimmed audience at the token path for an hour, unless one of that name or with such a token is there; without a complete identity or an audience it stays as it is |
| PodToken.TokenIsProjected | internal/webhook/podmutator/mutate.go:112-153 | a pod without a volume of that name projects a token for the trimmed audience |
| PodToken.ContainersServe | internal/webhook/podmutator/mutate.go:69-110 | every container shows the token file, unless it set that variable itself, and mounts the volume read-only, unless it mounts the volume or the path already |
| PodToken.TokenFileIsThere | internal/webhook/podmutator/mutate.go:69-137 | where the mutator added volume and mount, the token file is the mount path, a slash and the path projected |
| PodMutator.MutatedTwice | internal/webhook/podmutator/mutate.go:46-67 | mutating again changes nothing |
| PodMutator.MutatedExtends | internal/webhook/podmutator/mutate.go:88-137 | all environment, mount and volume lists stay as prefixes |
| PodMutator.FirstValueWins | internal/webhook/podmutator/mutate.go:69-96 | a name the container defines keeps its first value, any other offered name gets the offered value, no other name appears |
| PodMutator.MutatedUnique | internal/webhook/podmutator/mutate.go:88-137 | unique environment names, mount paths and volume names stay unique |
| PodMutator.MountClosureIff | internal/webhook/podmutator/mutate.go:98-153 | a closed pod stays closed if and only if no token volume of another name stands in for the mutator's own, or every container has something mounted at the token path |
| Witnesses.OpenMount | internal/webhook/podmutator/mutate.go:98-153 | a closed pod without duplicate names that mutation leaves with a mount of no volume |
| Handoff.ReadyReachesPods | internal/controller/binding_reconcile.go:180-219 | after a ready reconcile with an organisation configured, the webhook reads a complete identity off the ServiceAccount, the one observed, with the configured organisation and project, and every container of a mutated pod carries it in the four variables it did not define, and keeps all others |
| Handoff.ReadBack | internal/webhook/podmutator/mutate.go:25-34 | reading the annotations back gives the trimmed values that were written |

## Left out

- Undo.DeleteUndoesEnsure: assumes that the identity of the bound policy resolves to itself, which `Clearing.DeleteUndoesEnsureIff` shows to be necessary and `Undo.IdentitiesReResolve` derives from unique, proper identities.
- Recovery.BoundedRecovery: counts the reconciles of one binding while its environment stays; what the environment must offer is `Recovery.CanBeReady`, which `Recovery.ReadyIff` shows to be exactly enough.
- Leaks.NothingLeaks: takes a reconcile as one event; a user's change of the same object between two of its calls is not modelled.
- PodMutator.MountClosureIff: looks at names of volumes and mounts only, not at volume sources other than projected tokens.
- SHA-256 and the cut to 16 hexadecimal digits: the digest is a parameter and may collide.
- Case folding beyond ASCII in comparisons of references, and byte lengths of non-ASCII text (cuts count characters).
- Error texts and logging: an observation's message for a failure is its reason; a message longer than 1024 is cut as in the source.
- Label filters sent with list calls: the service may answer more than asked for, and the client filters again.
- The scope names of the client library are a parameter with the properties stated in `Scopes.ScopeNames`.
- Policies and roles are one notion with two kinds; the two search rules differ as in the source.
- Bindings for a policy or role that a binding object no longer refers to: neither the controller nor the model removes them, and no theorem claims it.
- Owner references' uids, garbage collection of the identity ConfigMap, conflict retries, watches, event filters and caching.
- Changes of a user between the calls of one reconcile of the same object.
- The two controllers running at the same time for one owner.
- Quiescence of the annotation controller: it stamps a new time on every pass.
- The webhook's HTTP handler, opt-in label and JSON patch; configuration parsing and validation; command line and manager set-up.
