# knaic: a verified model

knaic is a platform console over Kubernetes: a Go backend and a TypeScript frontend. Most of it is plumbing. This
project models the logic that is its own, and proves what that logic keeps.

| file | models |
|---|---|
| `Providers.dfy`, `ProviderFacts.dfy`, `ConfigSync.dfy`, `ConfigFile.dfy`, `ModelCache.dfy` | the LLM provider registry, the model catalogue rendered from it, the routing of catalogue keys, the asynchronous upkeep of the sidecar's config file, and the cache of what the upstreams serve |
| `ModelHub.dfy`, `Publish.dfy`, `ConcurrentApproval.dfy`, `ApprovalRaces.dfy` | the Model Hub, the publish workflow on top of it, its calls running side by side, and where that goes wrong |
| `GpuKeys.dfy`, `GpuTally.dfy`, `GpuVendors.dfy`, `GpuStatus.dfy`, `GpuHeadlines.dfy`, `GpuReadings.dfy`, `GpuListed.dfy`, `GpuMonitoring.dfy`, `GpuSamples.dfy` | GPU accounting from the apiserver and from metrics |
| `Sse.dfy`, `LogLines.dfy`, `Mcp.dfy`, `Attributes.dfy`, `Lfs.dfy`, `Grant.dfy`, `PromLabels.dfy`, `Decimal.dfy` | the hand-written codecs: SSE log and agent streams, MCP framing, Git LFS attributes and pointers, grant tokens, PromQL labels, decimal numbers |
| `SnapshotCache.dfy`, `Components.dfy`, `Detection.dfy`, `ComponentFacts.dfy`, `ComponentRaces.dfy` | the component detector's snapshot cache, its precedence rules, the component lifecycle, and its operations running side by side |
| `Text.dfy`, `Order.dfy` | strings and sorted lists |

Objects with state are classes; each method's postcondition equates the new state and the answer with a function on
values, and the theorems are about that function: over runs of whole operations, or over interleavings of their atomic
steps (`ConfigSync`, `ModelCache`, `SnapshotCache`, `ConcurrentApproval`, `ComponentRaces`). The step machines are tied
back to the methods by the lemmas named `StepsRefineMethod`, `AloneIsAtomic`, `RejectAlone`, `OpenAlone`,
`WithdrawAlone`, `DetectAlone`, `ActionAlone` and `ChatAlone`. What such a function itself comes to is stated in the
source's own literals, field by field and case by case, by the lemmas named `...Effect`, `...Progress`, `...Iff` and
`...Is`, and in `ProviderFacts`, `ConfigFile`, `GpuHeadlines`, `GpuListed`, `GpuSamples`, `LogLines`, `Detection` and
`ComponentFacts`.

Standards: Server-sent events (WHATWG HTML, section 9.2), JSON-RPC 2.0 (sections 4.1 and 5), the Git LFS
Specification (section "The Pointer"), base64url (section 5 of RFC 4648).

Assumptions, each a `requires` where it is used: JSON reads back the values in question and prints them on one line;
the config file's hash tells apart the texts rendered in the run, and is never empty; a digest is 64 hexadecimal digits; random
identities are fresh; a rename of the config file is atomic. No hash or MAC is assumed to be free of collisions.

## What turned out not to hold

The named members give the failure and the exact condition under which the claim does hold.

- An approval and a rejection that race can both decide one request: `ApprovalRaces.RaceIsReachable`,
  `ConcurrentApproval.DecidedOnceIffGuarded`.
- A requester can withdraw a request that has been approved meanwhile: `ApprovalRaces.WithdrawalRaceIsReachable`,
  `OwnersTakePendingIff`.
- A published model can be left without an approved request that names it, by any of the races above and by a withdrawal
  in good order: `ApprovalRaces.ApprovalLosesItsRequest`, `ModelsNamedIff`.
- Detection can overwrite a concurrent Installing mark, and so can a second installation; a removal under a reconciliation
  leaves an installed component without a manager: `ComponentRaces.OverwriteIsReachable`, `DoubleInstallIsReachable`,
  `MarksHoldIffSettled`, `OrphanIsReachable`, `ManagersHoldIffGuarded`.
- A sidecar whose restart fails keeps its old config, and no later EnsureConfig notices: `ConfigSync.FailedBounceSticks`,
  `SidecarIsCurrentIff`.
- An edit that lands while a chat asks the upstream does not reach the model cache: `ModelCache.StaleIsReachable`,
  `FaithfulIffGuarded`, `StaleEntriesEnd`.
- An empty file stored through LFS cannot be downloaded: `Lfs.LfsRoundTrip`.
- Adding a path to a `.gitattributes` that can not be read drops everything it declares, and one longer than 64 KiB loses
  what comes after: `Attributes.FailedReadLoses`, `LongFileLoses`, `EnsureStores`.
- Two uploads at once can lose one's path: `Attributes.RacedUploadsLoseOne`.
- A path with white space or a leading `#` is never among the patterns fetched back from `.gitattributes`, even after it
  was added there: `Attributes.EnsurePatternKeeps`, `SpacedPathPilesUp`, `CommentedPathIsLost`.
- An MCP request whose identity is a number beyond 2 to the 53rd can be answered under another: `Mcp.SmallNumbersAreHeld`,
  `DecodedIff`, `ServeEndToEnd`.
- The two GPU sources differ on keys whose group has no dot inside, which the metrics queries never return:
  `GpuMonitoring.TwoSourcesAgree`, `GpuKeys.QueriedIff`.
- Attachable-volume series are not trimmed in the metrics path, contrary to the comment there:
  `GpuKeys.AttachableVolumesShow`.
- A catalogue key whose model ends in white space, or is empty, does not route back: `Providers.KeySplitsBack`.
- A label value with a line feed is not a PromQL string: `PromLabels.EscapeRoundTrip`.

## Model

| member | source | states |
|---|---|---|
| `ConfigSync.Converges` | backend/cmd/knaic-api/main.go:306-318 | in every interleaving of provider mutations, hooks and EnsureConfig steps, when nothing is outstanding and the last EnsureConfig did not fail, the file on disk is what the current registry renders to |
| `ConfigSync.HashMatchesFile` | backend/internal/playground/opencode_server.go:150-188 | whenever the runner's lock is free the recorded hash is the hash of the bytes on disk, or nothing has been written yet |
| `ConfigSync.BouncesFollowChanges` | backend/internal/playground/opencode_server.go:150-188 | every attempted restart of the sidecar follows a real change of the file's bytes; the first one does exactly when the file left over from an earlier process differed |
| `ConfigSync.SidecarIsCurrentIff` | backend/internal/playground/opencode_server.go:150-188 | outside a commit a running sidecar has loaded the file on disk if and only if no restart has failed since it booted, or the last failed one followed a write of the text it had booted with |
| `ConfigSync.SidecarConverges` | backend/internal/playground/opencode_server.go:150-188 | when nothing is outstanding, the last EnsureConfig did not fail and no restart has failed since the sidecar booted, it runs with what the current registry renders to |
| `ConfigSync.FailedBounceSticks` | backend/internal/playground/opencode_server.go:150-188 | a write whose restart fails returns an error once, after the hash is recorded; every later EnsureConfig then succeeds without doing anything, and the sidecar keeps the old text |
| `ConfigSync.ConvergedFileRoutes` | backend/internal/playground/opencode_server.go:200-263 | in a quiet converged system each catalogue key in the file routes to the provider it stands for, exactly when its model name is routable and the provider is ready |
| `ConfigSync.WorkRunsOut` | backend/internal/playground/opencode_server.go:116-123 | outstanding work strictly shrinks with every finishing step, and some such step is enabled until the system is quiet |
| `ConfigSync.AlwaysRecovers` | backend/internal/playground/opencode_server.go:130-138 | from any point an interleaving reaches, one more request and no more write or restart failures bring the file to the current registry |
| `ConfigFile.ConvergedFileShows` | backend/internal/playground/opencode_server.go:200-263 | after any interleaving, once quiet and with no failure last, the file on disk reads as a config with the proxy's URL, the internal token and the agent's name, and with exactly one model per provider, under identity/model, named after both and without tool calls, or the placeholder when there is none |
| `ConfigFile.SidecarShows` | backend/internal/playground/opencode_server.go:200-263 | and so does what a running sidecar has loaded, no restart having failed on it |
| `ConfigFile.RecoveredFileShows` | backend/internal/playground/opencode_server.go:130-263 | from any point, one more request and no more failures leave such a file |
| `ConfigFile.StartupShows` | backend/internal/playground/opencode_server.go:116-188 | the first EnsureConfig leaves such a file whatever was left over, one restart attempted and nothing else to do |
| `ConfigSync.RegistryIs` | backend/internal/playground/service.go:91-98 | the registry of any interleaving is that of its mutations alone |
| `ConfigSync.NoCallIsLost` | backend/internal/playground/opencode_server.go:116-138 | each accepted mutation and each request makes exactly one EnsureConfig call, pending until it ends |
| `ConfigFile.OneWriteShows` | backend/internal/playground/opencode_server.go:150-188 | one EnsureConfig changes the file only to such a one, records its hash and attempts one restart for it; it changes nothing and succeeds only where that hash is recorded already |
| `ConfigSync.StepsRefineMethod` | backend/internal/playground/opencode_server.go:150-188 | the fine-grained steps, uninterrupted, do what the one-piece write does |
| `ConfigSync.Runner.WriteConfigLocked` | backend/internal/playground/opencode_server.go:150-188 | file, hash, attempted restarts and answer after one call, for every outcome of write and restart, whatever order the snapshot lists the providers in |
| `ConfigSync.Runner.EnsureConfig` | backend/internal/playground/opencode_server.go:116-123 | snapshot, render, compare, write and restart in terms of the registry's current map, with the answer for every outcome |
| `Providers.IdsNeverReused` | backend/internal/playground/service.go:114-144 | over any run of mutations no provider identity is handed out twice or was in use before, deletions included, and none contains a slash |
| `Providers.KeysDistinct` | backend/internal/playground/opencode_server.go:200-263 | two catalogue keys are equal only for the same provider identity and model |
| `Providers.CatalogueIs` | backend/internal/playground/opencode_server.go:200-263 | the catalogue holds exactly one entry per provider, under that provider's key |
| `Providers.CatalogueSize` | backend/internal/playground/opencode_server.go:200-263 | no two providers collapse into one catalogue entry |
| `Providers.BuildModels` | backend/internal/playground/opencode_server.go:200-263 | the sort-then-fill loop yields the order-free catalogue for every listing of the map |
| `Providers.KeySplitsBack` | backend/internal/playground/openai_proxy.go:135-145 | a catalogue key splits back into its own provider identity and model exactly when the model is not empty and has no white space at its end |
| `Providers.CatalogueRoutes` | backend/internal/playground/openai_proxy.go:39-107 | each catalogue key routes to its own provider and model exactly when the model is routable and the provider ready |
| `Providers.RouteOf` | backend/internal/playground/openai_proxy.go:39-107 | a request reaches a provider exactly when its text splits into that provider's identity and model and it is ready |
| `Providers.Service.CreateProvider` | backend/internal/playground/service.go:114-144 | the new registry, the fresh identity, the notification and the redacted answer |
| `Providers.Service.PatchProvider` | backend/internal/playground/service.go:146-186 | the patched registry or an unchanged one; notification, and forgetting what the provider served, exactly on acceptance |
| `Providers.Service.DeleteProvider` | backend/internal/playground/service.go:188-199 | the registry and the model cache without the provider, notification exactly when it was there |
| `Providers.Service.ResolveModel` | backend/internal/playground/service.go:405-440 | the configured model if the upstream serves it or lists nothing, else the first it serves; the cache consulted while young, else filled from a non-empty answer |
| `ModelCache.ChatAlone` | backend/internal/playground/service.go:405-440 | an undisturbed chat, look and answer amount to one whole resolution |
| `ModelCache.FaithfulIffGuarded` | backend/internal/playground/service.go:146-199 | over all interleavings of chats and edits, every state's cache speaks of providers as registered if and only if every answer remembered finds its provider still there with the endpoint and key it was asked with |
| `ModelCache.StaleIsReachable` | backend/internal/playground/service.go:418-440 | from any registry with a ready provider, a chat asked before an edit of the endpoint and answered after it leaves a young cache entry from the old endpoint |
| `ModelCache.StaleEntriesEnd` | backend/internal/playground/service.go:33-47 | however stale, once a provider's edits and the chats begun before them are over, after one time-to-live whatever the cache answers comes from the present endpoint |
| `Providers.Service.SnapshotProviders` | backend/internal/playground/openai_proxy.go:176-184 | every provider once, in whatever order |
| `ProviderFacts.CreateEffect` | backend/internal/playground/service.go:114-144 | what registering takes, and every field of what is stored under the next serial identity, slashes trimmed, external and ready by default; nothing else changes |
| `ProviderFacts.PatchEffect` | backend/internal/playground/service.go:146-186 | what an edit takes; every field it names, and no other, of that provider alone |
| `ProviderFacts.DeleteEffect` | backend/internal/playground/service.go:188-199 | a deletion takes the one provider away, if it is there |
| `ProviderFacts.AnswersHide` | backend/internal/playground/service.go:388-391 | answers show all of a provider but its API key |
| `ProviderFacts.ResolutionIs` | backend/internal/playground/service.go:405-440 | the model sent is the provider's own unless the list, remembered for five minutes or asked for, has only others; exactly a list got now and not empty is remembered |
| `ProviderFacts.EditForgets` | backend/internal/playground/service.go:146-199 | an accepted edit or deletion forgets that provider's list and no other |
| `ProviderFacts.ChatIsWith` | backend/internal/playground/service.go:258-272 | whom a chat is with, and why with nobody |
| `ProviderFacts.RequestGoesTo` | backend/internal/playground/openai_proxy.go:39-145 | a request for identity/model, with any space around it, goes to that provider under that name if it is there and its status is blank or Ready, and is told which it is not otherwise |
| `ProviderFacts.RequestRefused` | backend/internal/playground/openai_proxy.go:135-145 | blank requests and those without both halves are refused |
| `ModelHub.ApplyKeepsInv` | backend/internal/models/memory.go:54-95 | every operation with a fresh identity keeps models unique per (scope, namespace, name), keyed by their identity, and private URIs parseable |
| `ModelHub.IdentityIsFixed` | backend/internal/models/service.go:174-216 | no operation rewrites a surviving model's URI, scheme, scope, namespace, name or owner |
| `ModelHub.OnlyWritersWrite` | backend/internal/models/service.go:342-370 | apart from download counts nothing in the hub changes, appears or disappears except where the caller may write |
| `ModelHub.ImportUndoesSource` | backend/internal/models/service.go:402-459 | importing the page of an upstream model from any host of either site, slashes around its path or not, gives that model's URI and name; the page derived from that URI is such a page |
| `ModelHub.GateIsStable` | backend/internal/models/service.go:174-216 | an edit or deletion checks the model it read and then writes; whatever another call does in between, for a model still there the check would come out the same |
| `ModelHub.GateWrite` | backend/internal/models/service.go:342-370 | a caller passes the gate if and only if it is a platform admin, or a granted member of a non-empty private namespace |
| `ModelHub.MemoryStore.Create` | backend/internal/models/memory.go:54-70 | the scan finds a clash exactly when some model has the same scope, namespace and name |
| `ModelHub.Service.Create` | backend/internal/models/service.go:45-91 | answer and new store of registering a model |
| `ModelHub.Service.Import` | backend/internal/models/service.go:93-127 | answer and new store of importing from a web address |
| `ModelHub.Service.Upload` | backend/internal/models/service.go:129-172 | answer and new store of recording an upload |
| `ModelHub.Service.Patch` | backend/internal/models/service.go:174-216 | answer and new store of an edit; counting downloads needs no rights |
| `ModelHub.Service.Delete` | backend/internal/models/service.go:328-337 | answer and new store of a deletion |
| `ModelHub.Service.GetPrivateForPublish` | backend/internal/models/service.go:237-260 | the private model's snapshot for a caller who may write there, else the error |
| `ModelHub.Service.CreatePublicFromRequest` | backend/internal/models/service.go:280-326 | the catalogue model an approval creates, or why not |
| `ModelHub.SchemeByPrefix` | backend/internal/models/service.go:373-394 | the URI scheme by the literal prefixes, and nothing else is accepted |
| `ModelHub.PublicPages` | backend/internal/models/service.go:396-413 | the public page of an upstream address by its literal prefix; no other address has one |
| `ModelHub.CreateProgress` | backend/internal/models/service.go:45-91 | the exact literal condition under which registering a model succeeds |
| `ModelHub.CreateEffect` | backend/internal/models/service.go:45-91 | every field of the model it stores, and nothing else changed |
| `ModelHub.ImportProgress` | backend/internal/models/service.go:93-127 | the exact literal condition under which an import succeeds |
| `ModelHub.ImportEffect` | backend/internal/models/service.go:93-127 | every field of the model it stores, and nothing else changed |
| `ModelHub.UploadProgress` | backend/internal/models/service.go:129-172 | the exact literal condition under which recording an upload succeeds |
| `ModelHub.UploadEffect` | backend/internal/models/service.go:129-172 | every field of the model it stores, and nothing else changed |
| `ModelHub.PatchProgress` | backend/internal/models/service.go:174-216 | the exact literal condition under which an edit succeeds |
| `ModelHub.PatchEffect` | backend/internal/models/service.go:174-216 | every field after the edit, download count and readme included, of the one model |
| `ModelHub.DeleteIs` | backend/internal/models/service.go:328-337 | who may delete what, and that only it goes |
| `Publish.WholeRun` | backend/internal/publish/service.go:90-206 | after any sequential history with fresh identities: model slots unique, at most one pending request per private model, a catalogue identity exactly on approved requests and never shared, quoted URIs still those of the existing models |
| `Publish.DecidedForGood` | backend/internal/publish/service.go:134-206 | a request that has left pending never changes again and, once deleted, never returns |
| `Publish.ReachableProgress` | backend/internal/publish/service.go:134-170 | in every reachable state an admin's approval of a pending request whose private model exists succeeds if and only if no public model has the target name |
| `Publish.ApprovalProgress` | backend/internal/publish/service.go:134-170 | the exact condition, for any caller and request, under which the four approval steps succeed together |
| `Publish.ApproveEffect` | backend/internal/publish/service.go:134-170 | a successful approval adds exactly one public model, each of its fields being the private model's or the request's: target name and collection, URI, owner, size, model type, readme, source link, tags plus published, no downloads, with the defaults where a field is blank; and it decides exactly its request, by that caller and with that note |
| `Publish.OpenProgress` | backend/internal/publish/service.go:90-132 | a request can be opened exactly when the caller is present and may write in the model's namespace, the model is stored, private and namespaced, its URI starts with one of the five public prefixes, the target name is not blank, the identity is new and no request is pending for that model |
| `Publish.OpenEffect` | backend/internal/publish/service.go:90-132 | the stored request field by field, and nothing else changed |
| `Publish.OpenRefused` | backend/internal/publish/service.go:90-132 | an opening that is refused changes nothing, and the error is the first of the eleven checks that fails |
| `Publish.ApproveRefused` | backend/internal/publish/service.go:134-170 | an approval that is refused changes nothing, and is refused for the reviewer, the request, the missing private model or the taken name only, with the error of each |
| `Publish.RejectRefused` | backend/internal/publish/service.go:172-189 | a rejection that is refused changes nothing, with the error of each check |
| `Publish.WithdrawRefused` | backend/internal/publish/service.go:191-206 | a withdrawal that is refused changes nothing, with the error of each check |
| `Publish.RejectEffect` | backend/internal/publish/service.go:172-189 | a rejection writes the decision, who made it and the note, and nothing else |
| `Publish.WithdrawEffect` | backend/internal/publish/service.go:191-206 | a withdrawal removes the one request and nothing else |
| `Publish.NextKeepsInv` | backend/internal/publish/service.go:90-206 | each operation of hub and workflow keeps the workflow's invariants |
| `Publish.RequestStore.Create` | backend/internal/publish/memory.go:49-68 | a conflict exactly on a known identity or another pending request for the same private model |
| `Publish.RequestStore.Update` | backend/internal/publish/memory.go:70-83 | the decision written into the stored request, or not found |
| `Publish.Service.Create` | backend/internal/publish/service.go:90-132 | answer and both stores after opening a request |
| `Publish.Service.Approve` | backend/internal/publish/service.go:134-170 | answer and both stores after an approval |
| `Publish.Service.Reject` | backend/internal/publish/service.go:172-189 | answer and both stores after a rejection |
| `Publish.Service.Delete` | backend/internal/publish/service.go:191-206 | answer and both stores after a withdrawal |
| `ConcurrentApproval.OneCopyPerName` | backend/internal/publish/service.go:90-206 | however openings, reviews, withdrawals and edits interleave call by call, no target name ever gets two catalogue models (no public model being deleted) and no private model two pending requests |
| `ConcurrentApproval.ApprovalsAgree` | backend/internal/publish/service.go:134-170 | with no rejection or withdrawal racing, but requests being opened: every catalogue model made is named by its own approved request once its review finishes, a successful review answers the stored request, and of all reviews for one target name at most one succeeds |
| `ConcurrentApproval.DecidedOnceIffGuarded` | backend/internal/publish/service.go:163-189 | with rejections and withdrawals racing, every request is decided at most once if and only if each review's last write finds its request still pending, the check the code does not make there |
| `ConcurrentApproval.GuardedKeepsWorkflow` | backend/internal/publish/service.go:90-206 | under that same condition interleaved openings, reviews and withdrawals keep every invariant of the sequential workflow |
| `ApprovalRaces.OwnersTakePendingIff` | backend/internal/publish/service.go:191-206 | over all interleavings, requesters have only ever withdrawn pending requests, none decided before or since, if and only if each requester's delete finds the request still pending or gone, the check the code makes one call earlier |
| `ApprovalRaces.ModelsNamedIff` | backend/internal/publish/service.go:134-206 | over all interleavings, every catalogue model whose review is over is named by its own stored approved request if and only if each approval's last write finds its request stored, and each rejection's write and each delete finds it not approved |
| `ApprovalRaces.RaceIsReachable` | backend/internal/publish/service.go:163-189 | from any state with an approvable request two admins reach a rejected request that still names a published model |
| `ApprovalRaces.WithdrawalRaceIsReachable` | backend/internal/publish/service.go:191-206 | from any such state the requester's withdrawal, checked before an approval, removes the approved request and leaves its model published and unnamed, with every review's write in order; one call at a time it is forbidden |
| `ApprovalRaces.ApprovalLosesItsRequest` | backend/internal/publish/service.go:148-169 | from any such state a withdrawal of the still pending request between an approval's last two calls leaves the model published and unnamed, and the review is told there is no such request |
| `ConcurrentApproval.AloneIsAtomic` | backend/internal/publish/service.go:134-170 | the four steps of an undisturbed approval amount to the sequential one |
| `ConcurrentApproval.RejectAlone` | backend/internal/publish/service.go:172-189 | so do the two steps of a rejection |
| `ConcurrentApproval.OpenAlone` | backend/internal/publish/service.go:90-132 | so do the two steps of an opening |
| `ConcurrentApproval.WithdrawAlone` | backend/internal/publish/service.go:191-206 | so do the two steps of a withdrawal |
| `GpuKeys.MangleRoundTrip` | backend/internal/gpu/monitoring.go:272-294 | undoing the exporter's name mangling returns a slashed key exactly on the documented grammar: letters, digits and dots, one slash, letters and digits |
| `GpuKeys.CanonicalIs` | backend/internal/gpu/monitoring.go:272-294 | of any label the last underscore becomes the slash, unless nothing is before it, and those before it dots; without one it stays |
| `GpuKeys.QueriedIff` | backend/internal/gpu/monitoring.go:58-61 | the query's regular expression matches a grammar key with a resource exactly when its group is dotted inside |
| `GpuKeys.NothingIsTrimmed` | backend/internal/gpu/monitoring.go:58-61 | every label the query matches counts as an accelerator once unmangled |
| `GpuKeys.AttachableVolumesShow` | backend/internal/gpu/monitoring.go:58-61 | an attachable-volumes key of any plugin is no accelerator key, yet its exported name matches the query and counts as one, contrary to the comment there |
| `GpuKeys.PlainIsAccelerator` | backend/internal/gpu/service.go:168-178 | every key of the grammar counts as an accelerator |
| `GpuVendors.NvidiaIff` | backend/internal/gpu/service.go:199-242 | a key is labelled NVIDIA exactly when it is of the nvidia.com family and no HAMi auxiliary key is present |
| `GpuVendors.GroupByVendor` | backend/internal/gpu/service.go:248-291 | one row per vendor that has a key, ascending, each folding exactly that vendor's keys |
| `GpuVendors.GroupingUnique` | backend/internal/gpu/service.go:248-291 | those facts determine the rows |
| `GpuVendors.RowsPartitionKeys` | backend/internal/gpu/service.go:248-291 | the rows list each key as often as it was given, in its own vendor's row, in the given order |
| `GpuVendors.HeadlineIsOwn` | backend/internal/gpu/service.go:279-288 | each row's primary is one of its keys, its counts are that key's entry, and it is a declared headline key whenever the vendor has one |
| `GpuVendors.HamiTakesNvidia` | backend/internal/gpu/service.go:202-219 | with a HAMi auxiliary key present there is no NVIDIA row and every nvidia.com key is in HAMi's |
| `GpuHeadlines.LabelsByPrefix` | backend/internal/gpu/service.go:199-242 | the label of each family, by the literal prefix of its keys |
| `GpuHeadlines.OtherLabel` | backend/internal/gpu/service.go:199-242 | any other key is labelled by what stands before its first slash, with a capital |
| `GpuHeadlines.RowLeads` | backend/internal/gpu/service.go:248-291 | each row's headline key is its family's literal one if it is there, else the row's first key, and its counts are that key's |
| `GpuHeadlines.NvidiaRow` | backend/internal/gpu/service.go:202-219 | with HAMi auxiliary keys the HAMi row shows nvidia.com/gpualloc if present, else nvidia.com/gpu; without them the NVIDIA row shows nvidia.com/gpu |
| `GpuHeadlines.FamilyRow` | backend/internal/gpu/service.go:199-242 | the AMD, AMD ROCm, Intel and hami.io rows show amd.com/gpu, rocm.amd.com/gpu, intel.com/gpu and hami.io/vgpu |
| `GpuHeadlines.AliyunRow` | backend/internal/gpu/service.go:199-242 | the Aliyun row shows its first key that ends in /gpu |
| `GpuHeadlines.FirstKeyRow` | backend/internal/gpu/service.go:248-291 | Huawei rows and other vendors' show their first key |
| `GpuHeadlines.SummaryAdds` | backend/internal/gpu/service.go:152-160 | the summary adds up the rows' counts |
| `GpuHeadlines.NvidiaSummary` | backend/internal/gpu/service.go:152-160 | in the report of a cluster with nvidia.com keys alone, the summary is what the nodes offer and the live pods use of nvidia.com/gpualloc if present, else of nvidia.com/gpu |
| `GpuStatus.HeadlineBound` | backend/internal/gpu/service.go:152-160 | summary available is at least total minus used, with equality exactly when no vendor's headline key is oversubscribed |
| `GpuStatus.UsageIsConserved` | backend/internal/gpu/service.go:84-129 | cluster usage is the sum over live containers' effective amounts, over pods, and over nodes plus unscheduled pods; every accelerator pod counts on exactly one node |
| `GpuStatus.EachKeyOnce` | backend/internal/gpu/service.go:135-148 | the finished report lists each offered or used key in exactly one vendor row |
| `GpuStatus.ReportConserves` | backend/internal/gpu/service.go:84-148 | the counts shown for a key are what live containers ask for and what the nodes offer |
| `GpuStatus.AddContainer` | backend/internal/gpu/service.go:304-329 | per container: the request where present, else the limit, accelerator keys only, added into the pod's totals |
| `GpuStatus.PodRowFor` | backend/internal/gpu/service.go:295-335 | the pod's row and whether it holds accelerators at all |
| `GpuStatus.TallyPods` | backend/internal/gpu/service.go:84-112 | cluster, per-node and per-pod tallies over the pods that have not terminated |
| `GpuStatus.ListNodes` | backend/internal/gpu/service.go:45-67 | the nodes that offer accelerators, and the cluster's capacity |
| `GpuStatus.StatusFromApiserver` | backend/internal/gpu/service.go:31-162 | the whole report in terms of the nodes and pods the caller may list |
| `GpuListed.AcceleratorIff` | backend/internal/gpu/service.go:168-178 | an accelerator key is one with a slash and without the three excluded prefixes |
| `GpuListed.AmountsAre` | backend/internal/gpu/service.go:304-329 | a container's amount of a key is its request, else its limit; a node's what it can allocate; of accelerator keys only |
| `GpuListed.SeenByWhom` | backend/internal/gpu/service.go:45-82 | whose nodes and pods a caller sees, by scope, namespace and rights; a failed listing reads as empty |
| `GpuListed.OneContainer` | backend/internal/gpu/service.go:295-335 | a pod's row adds up its containers, and lists those that ask for something |
| `GpuListed.OnePod` | backend/internal/gpu/service.go:84-112 | each pod has one row, with its own fields, unless it has ended or asks for no accelerators |
| `GpuListed.AmountsAdd` | backend/internal/gpu/service.go:96-112 | adding tallies adds the amounts of every key either has |
| `GpuListed.OneRow` | backend/internal/gpu/service.go:96-112 | a row adds to the cluster's usage, to its own node's and to the pods counted there |
| `GpuListed.OneNode` | backend/internal/gpu/service.go:45-129 | a node that offers accelerators has one row with what it offers and what is used on it; every node adds to the total |
| `GpuListed.PodsAreListed` | backend/internal/gpu/service.go:114-120 | the report's pods are those rows, each once, by namespace and then by name |
| `GpuListed.NodesAreListed` | backend/internal/gpu/service.go:122-130 | and its nodes theirs, by name |
| `GpuTally.OfPermutes` | backend/internal/gpu/monitoring.go:110-157 | a tally does not depend on the order the observations come in |
| `GpuReadings.ReportsAgree` | backend/internal/gpu/monitoring.go:46-205 | two reports on the same observations, in whatever orders, agree |
| `GpuReadings.ClusterReports` | backend/internal/gpu/service.go:31-162 | the report from the cluster's objects is the one their single observations amount to |
| `GpuMonitoring.CollectCapacities` | backend/internal/gpu/monitoring.go:79-101 | capacity per node and in total over the capacity samples |
| `GpuMonitoring.CollectRequests` | backend/internal/gpu/monitoring.go:103-157 | rows with their split over containers, usage, per-node tallies and pod counts over the request samples, each pod booked on the node it was first seen on |
| `GpuMonitoring.StatusFromMetrics` | backend/internal/gpu/monitoring.go:46-205 | the whole report, container split included, in terms of what the series picked by the two queries' filters observe; errors and an unconfigured upstream give the empty report |
| `GpuSamples.SampleCounts` | backend/internal/gpu/monitoring.go:79-157 | which samples count and what each says, label by label |
| `GpuSamples.OneSample` | backend/internal/gpu/monitoring.go:58-77 | the series each query selects, one by one |
| `GpuSamples.TruncIs` | backend/internal/gpu/monitoring.go:99-100 | sample values are cut off towards zero |
| `GpuSamples.HomedIs` | backend/internal/gpu/monitoring.go:119-152 | a pod is booked on the node of its first observation |
| `GpuMonitoring.TwoSourcesAgree` | backend/internal/gpu/monitoring.go:17-27 | when the series describe the same nodes and live pods, keys on the grammar, both Status methods give the same vendors, summary, node rows and pod totals, for every order of everything, if and only if every key involved passes the queries' regular expression |
| `Sse.StreamLogEndpoint` | frontend/src/api/k8sres.ts:187-230 | the client's lines and end call depend only on the concatenated text, not on how it was cut into chunks; onEnd and onError together fire at most once |
| `Sse.StreamPodLogs` | backend/internal/k8sres/logs.go:124-179 | the bytes the client got and whether the log was read to its end, for every cancellation, failure of the log API and failing write |
| `LogLines.LinesScan` | backend/internal/k8sres/logs.go:158-162 | scanning a log gives its lines, each without its line feed and the carriage return before it, the unended last one included, and stops before text of which 1 MiB holds no line feed |
| `LogLines.EveryLog` | backend/internal/k8sres/logs.go:158-162 | every text is such a log |
| `LogLines.EscapesEach` | backend/internal/k8sres/logs.go:183-198 | escaping goes character by character: carriage returns are left out, line feeds become spaces |
| `LogLines.LogIsDelivered` | backend/internal/k8sres/logs.go:124-179 | of what the endpoint writes, in whatever chunks it arrives, the client makes the log's own lines in order, up to a cancellation or an overlong line, and an end event exactly where the log was read to its end |
| `Sse.EscapeLine` | backend/internal/k8sres/logs.go:183-198 | the byte loop computes the escaping function |
| `Sse.LogStreamRoundTrip` | backend/internal/k8sres/logs.go:124-179 | every split of a complete stream delivers exactly the escaped lines in order, then the end |
| `Sse.LogStreamTruncated` | frontend/src/api/k8sres.ts:203-225 | a stream cut anywhere delivers exactly the complete frames and no end event |
| `Sse.StreamAgentSession` | frontend/src/api/playground.ts:130-174 | the events delivered depend only on the concatenated text; onDone fires exactly when the body ends by itself, and a failed or aborted read rejects the call |
| `Sse.RunAgent` | backend/internal/api/playground.go:158-197 | one frame per event, one for a failure, then the end frame |
| `Sse.AgentStreamRoundTrip` | backend/internal/api/playground.go:158-197 | the client receives exactly the events the server emitted, JSON being a faithful one-line codec |
| `Sse.AgentFrameDelivers` | frontend/src/api/playground.ts:146-170 | any frame of data lines is one event: the lines joined and trimmed, read as JSON or else as the fallback; blank data is none |
| `Mcp.Reader.ReadMCPMessage` | backend/internal/playground/mcp.go:298-328 | the payload, error and remaining input of one read |
| `Mcp.WireRoundTrip` | backend/internal/playground/mcp.go:298-340 | any mix of written frames and newline-ended object lines is read back payload by payload in order, consuming all of it |
| `Mcp.ReadMessage` | backend/internal/playground/mcp.go:298-328 | a message read strictly shrinks the input |
| `Mcp.OneHeader` | backend/internal/playground/mcp.go:309-318 | of any header lines only Content-Length counts, in whatever case, the last of several |
| `Mcp.AfterHeaders` | backend/internal/playground/mcp.go:319-328 | after the blank line a length must have been given and the body be whole; the error otherwise |
| `Mcp.CutOff` | backend/internal/playground/mcp.go:298-313 | an input that ends inside a line holds no message |
| `Mcp.Serve` | backend/internal/playground/mcp.go:52-80 | the output is the framed answers to exactly the messages with an identity, in order, cut off where writing fails; a clean end is success, a failed read or write the error |
| `Mcp.ServeEndToEnd` | backend/internal/playground/mcp.go:52-87 | a client reading the server's output finds one answer to each request with an identity, in the order sent, and all under the identities it sent if and only if each number among them is one a float64 holds, as long as JSON is faithful on those very messages |
| `Mcp.DecodedIff` | backend/internal/playground/mcp.go:82-87 | a number decoded into Go's any comes back as sent exactly when it is a multiple of the spacing of float64 values of its size |
| `Mcp.NearestIs` | backend/internal/playground/mcp.go:82-87 | what a number becomes is a multiple of that spacing, none of which is nearer |
| `Mcp.SmallNumbersAreHeld` | backend/internal/playground/mcp.go:82-87 | every integer up to 2 to the 53rd is, and the next one comes back one less |
| `Mcp.StripSSELog` | backend/internal/playground/mcp.go:363-374 | the pod log tool recovers the escaped lines of a streamed log |
| `Attributes.FetchLFSPatterns` | backend/internal/aistorage/gitlab.go:674-702 | the loop collects the declared patterns in order; a failed request or read gives none |
| `Attributes.PatternMeans` | backend/internal/aistorage/gitlab.go:766-778 | a pattern covers itself; after a star and a dot, every path with that extension; before a slash and a star, what lies directly in that directory; and nothing else |
| `Attributes.SpacesInUtf8` | backend/internal/aistorage/gitlab.go:684-698 | a text starts or ends with the bytes of white space exactly where its first or last character is Unicode white space |
| `Attributes.EnsureLFSPattern` | backend/internal/aistorage/gitlab.go:709-729 | the new file, or none when a line of what was read already declares the path, for every end of the request |
| `Attributes.EnsureStores` | backend/internal/aistorage/gitlab.go:709-729 | for any file and any end of its reading, failed, broken off or cut at the limit: exactly which patterns the file declares afterwards, and that all old ones survive if and only if the path was found in what was read or nothing but it is declared outside that |
| `Attributes.FailedReadLoses` | backend/internal/aistorage/gitlab.go:711-715 | a request that fails, or a body that breaks off at once, leaves the new path as the only declared pattern, whatever the file held |
| `Attributes.LongFileLoses` | backend/internal/aistorage/gitlab.go:715 | a file whose one pattern comes after 64 KiB of blank lines loses it to any other path added |
| `Attributes.EnsurePatternKeeps` | backend/internal/aistorage/gitlab.go:674-729 | after a whole read: while the new file fits the limit, old patterns in order plus the path, everything that matched still matches, a second call writes nothing; where it outgrows the limit, the old patterns and what the cut leaves of the new line; never a path no line can name |
| `Attributes.SpacedPathPilesUp` | backend/internal/aistorage/gitlab.go:716-728 | a path with white space in it, Unicode's included, gets another line with every upload, and that line declares something else |
| `Attributes.FirstWordIsDeclared` | backend/internal/aistorage/gitlab.go:694-698 | namely its first word |
| `Attributes.CommentedPathIsLost` | backend/internal/aistorage/gitlab.go:690-693 | a path that starts with # gets a line the search finds and the fetch ignores |
| `Attributes.RacedUploadsLoseOne` | backend/internal/aistorage/gitlab.go:709-729 | of two uploads that both read before either writes, the first one's path survives exactly if the second writes nothing, had read it, or is of the same path |
| `Lfs.ParseLFSPointer` | backend/internal/aistorage/gitlab.go:738-755 | the loop computes the line-by-line parse |
| `Lfs.ParseTakesLast` | backend/internal/aistorage/gitlab.go:738-755 | of a pointer's lines every size must be a number, the last oid and the last size count, and neither may be missing |
| `Lfs.DownloadIs` | backend/internal/aistorage/gitlab.go:392-437 | a download looks at the first 200 bytes, and answers with the object pointed to if they start with the pointer version, else with the file |
| `Lfs.PointerRoundTrip` | backend/internal/aistorage/gitlab.go:731-761 | a built pointer is at most 144 bytes, is recognised, and parses back to its digest and size, a zero size being refused |
| `Lfs.LfsRoundTrip` | backend/internal/aistorage/gitlab.go:392-474 | content stored through LFS comes back whole if and only if it is not empty and no other content was stored under its digest; .gitattributes itself only if it can be read back, and is replaced by its own line otherwise |
| `Lfs.PlainRoundTrip` | backend/internal/aistorage/gitlab.go:392-474 | plain content comes back exactly, unless it starts like a pointer that resolves to something else |
| `Lfs.StoreStaysAddressed` | backend/internal/aistorage/gitlab.go:443-474 | uploads keep every object under its own digest, lose none and store the new one |
| `Lfs.UploadFrame` | backend/internal/aistorage/gitlab.go:443-474 | an upload leaves every other path downloadable as before, .gitattributes apart |
| `Lfs.Project.GitLabUpload` | backend/internal/aistorage/gitlab.go:443-474 | files and objects after an upload, for every end of the request for .gitattributes |
| `Lfs.Project.GitLabDownload` | backend/internal/aistorage/gitlab.go:392-437 | what a download returns for the stored files and objects |
| `Base64Url.AlphabetIs` | backend/internal/auth/grant.go:84-110 | the 64 digits in the standard's order |
| `Base64Url.BitsAre` | backend/internal/auth/grant.go:84-110 | three bytes are their 24 bits in base 64, and short ends are filled with zero bits |
| `Base64Url.DecodeIff` | backend/internal/auth/grant.go:123-127 | a text decodes exactly if, line breaks aside, it is of digits and its length is not one more than a multiple of four |
| `Base64Url.BreaksAreSkipped` | backend/internal/auth/grant.go:123-127 | carriage returns and line feeds are skipped wherever they are |
| `Base64Url.DecodeEncode` | backend/internal/auth/grant.go:84-151 | unpadded base64url decodes back and never contains a dot |
| `Grant.GrantRoundTrip` | backend/internal/auth/grant.go:84-145 | a minted token verifies to the same user exactly on paths under its scope and up to the whole second of its expiry, and else the error says which of the two it is |
| `Grant.MintIff` | backend/internal/auth/grant.go:84-110 | who is granted what, until when, and the error otherwise |
| `Grant.VerifyAsks` | backend/internal/auth/grant.go:113-145 | what becomes of any token of three parts, the five errors in their order |
| `Grant.ThreeParts` | backend/internal/auth/grant.go:113-117 | a text with another number of dots has not the shape of one |
| `Grant.OnlySignedAccepted` | backend/internal/auth/grant.go:113-151 | an accepted token is the token of its own payload |
| `Grant.TamperedRejected` | backend/internal/auth/grant.go:113-151 | a grant's signature on another payload is refused as a mismatch if and only if the two MACs differ |
| `PromLabels.EscapeRoundTrip` | backend/internal/monitoring/service.go:402-404 | the two replace-alls read back to the target and stop at their own closing quote, exactly for targets without a line feed |
| `PromLabels.ScopeNeedsTarget` | backend/internal/monitoring/service.go:333-400 | a scope is accepted exactly when it is the cluster, or known and with a target, and which error it gets otherwise |
| `PromLabels.SelectorRoundTrip` | backend/internal/monitoring/service.go:333-400 | printed matchers read back as themselves: no value can add, drop or alter one |
| `PromLabels.UsageSelectorMeans` | backend/internal/monitoring/service.go:333-400 | a usage selector says exactly that node, namespace or pod equals the whole target, and the two fixed conditions |
| `PromLabels.JoinFilters` | backend/internal/monitoring/service.go:392-400 | the loop joins the parts that are not blank |
| `Decimal.FormatInt` | backend/internal/k8sres/projections.go:50-67 | the digit loop prints the decimal numeral, negative numbers as 0 |
| `Decimal.ParseInt64Quantity` | backend/internal/k8sres/inference_proj.go:352-362 | the value of the leading digits, wrapped to 64 bits |
| `Decimal.QuantityRoundTrip` | backend/internal/k8sres/inference_proj.go:352-362 | a printed number below 2^63 followed by anything but a digit parses back, without overflow |
| `Decimal.ParseSigned` | backend/internal/aistorage/gitlab.go:738-755 | a sign and digits are the number they say, or the nearest one 64 bits hold and an error |
| `Decimal.ParseOther` | backend/internal/aistorage/gitlab.go:738-755 | any other text is an error, with or without a sign |
| `SnapshotCache.AnswersAreFresh` | backend/internal/components/detect.go:74-124 | in every interleaving an answer stems from a scan begun after every invalidation that precedes the caller's lock, and is less than the time-to-live past that scan's end |
| `SnapshotCache.ScansAreBounded` | backend/internal/components/detect.go:74-124 | a window of length T with K invalidations starts at most T/TTL + 1 + K scans |
| `SnapshotCache.StepsRefineMethod` | backend/internal/components/detect.go:74-124 | an uninterrupted call of the protocol does what the method does |
| `SnapshotCache.Detector.TakeSnapshot` | backend/internal/components/detect.go:74-116 | cached while unexpired, else a new scan with a new expiry |
| `SnapshotCache.Detector.InvalidateSnapshot` | backend/internal/components/detect.go:120-124 | the cache emptied, the expiry left alone |
| `Components.ScanCluster` | backend/internal/components/detect.go:79-113 | releases by chart in listing order, without those lacking chart metadata; a failed listing leaves its part empty |
| `Components.ProbeNamesAre` | backend/internal/components/detect.go:221-237 | the probe list is the trimmed name, then the trimmed aliases, each once, none blank |
| `Components.ComponentProbeNames` | backend/internal/components/detect.go:221-237 | the loop with its seen map computes that list |
| `Components.FindCSV` | backend/internal/components/detect.go:240-264 | the first candidate base that some listed version matches, and its first match |
| `Components.FirstNamedIs` | backend/internal/components/detect.go:240-264 | the match chosen for a base is the first in listing order, none only if there is none |
| `Components.ResolveIsChoice` | backend/internal/components/detect.go:142-190 | the three passes make the documented choice (OLM, then knaic, then any release, then none; name before aliases), and it is the only one |
| `Detection.ProbeOrder` | backend/internal/components/detect.go:221-237 | the probe list keeps the order of name and aliases |
| `Detection.VerdictIs` | backend/internal/components/detect.go:142-264 | the choice by the names themselves: the CSV called a probe name or its -operator, or one of the five further names of three components, with or without a version after a dot, earliest probe name, then base, then listing order; else the first knaic release of the earliest such name; else the first of any release; else none |
| `Detection.DetectFrame` | backend/internal/components/detect.go:128-146 | whom detection answers, which scan it looks at, and that it leaves other entries and those being installed alone |
| `Detection.DetectFinds` | backend/internal/components/detect.go:142-201 | the entry it writes, field by field, for what that scan shows, the note's text included |
| `Detection.ReleasesAre` | backend/internal/components/detect.go:79-106 | the scan's releases of a chart are those listed, in order, knaic's own by name or label |
| `Components.LifecycleHolds` | backend/internal/components/service.go:54-137 | over any sequential history: nothing rests in Installing, installed components have a manager and uninstalled ones none, and Helm uninstalls only what knaic installed or recognised as its own |
| `Components.ActionsAreSeen` | backend/internal/components/service.go:54-112 | after a successful install or uninstall the next detection answers from a scan of its own |
| `ComponentRaces.MarksHoldIffSettled` | backend/internal/components/detect.go:143-190 | over all interleavings that mark only entries that are there and not Installing, and remove no Installing entry: every Installing mark shows until its owner's closing write if and only if each detection's and each reconciliation's closing write finds the entry not Installing, the look missing inside those writes |
| `ComponentRaces.DoubleInstallIsReachable` | backend/internal/components/service.go:54-84 | from any state with an installable component two installations run at once and the first to close clears the other's mark, with no detection or reconciliation: marking needs a look too |
| `ComponentRaces.MarksHoldIffGuarded` | backend/internal/components/service.go:54-112 | without those restrictions, marks hold if and only if nobody settles an entry's status under somebody else's mark, which the entry alone does not tell |
| `ComponentRaces.OverwriteIsReachable` | backend/internal/components/detect.go:128-191 | from any state with an installable component, a detection that looked just before the mark is set overwrites it in mid-installation |
| `ComponentRaces.LifecycleSurvives` | backend/internal/components/service.go:54-137 | what no interleaving breaks: nothing is left Installing once every operation has finished, what is not installed has no manager, and Helm uninstalls only what knaic installed or recognised |
| `ComponentRaces.ManagersHoldIffGuarded` | backend/internal/components/service.go:115-137 | installed entries have a manager throughout a run if and only if no reconciliation reports success on an entry that has lost its manager since it was checked |
| `ComponentRaces.OrphanIsReachable` | backend/internal/components/service.go:86-137 | a removal that completes while Helm upgrades leaves the entry installed with nobody managing it |
| `ComponentRaces.DetectAlone` | backend/internal/components/detect.go:128-191 | the steps of an undisturbed detection amount to DetectComponent |
| `ComponentRaces.ActionAlone` | backend/internal/components/service.go:54-137 | the steps of an undisturbed installation, removal or reconciliation amount to the sequential operation |
| `Components.Service.Install` | backend/internal/components/service.go:54-84 | the entry and the Helm call for every outcome |
| `Components.Service.Uninstall` | backend/internal/components/service.go:86-112 | the entry and the Helm call for every outcome |
| `Components.Service.Reconcile` | backend/internal/components/service.go:115-137 | the entry for every outcome |
| `ComponentFacts.InstallEffect` | backend/internal/components/service.go:54-84 | what may be installed, and the entry, record and cached scan for every outcome |
| `ComponentFacts.UninstallEffect` | backend/internal/components/service.go:86-112 | what may be uninstalled, and the entry, record and cached scan for every outcome |
| `ComponentFacts.ReconcileEffect` | backend/internal/components/service.go:115-137 | what may be reconciled, and the entry for every outcome |
| `Components.Service.Import` | backend/internal/components/store.go:86-121 | the imported entry with every field of the request, or a refusal |
| `Components.Service.Remove` | backend/internal/components/store.go:124-136 | removal of imported entries only |
| `Components.Service.PatchVersion` | backend/internal/components/service.go:42-52 | the selected version, when it is one of the listed |
| `ComponentFacts.ImportEffect` | backend/internal/components/store.go:86-121 | what may be imported, and every field of the entry |
| `ComponentFacts.RemoveEffect` | backend/internal/components/store.go:124-136 | what may be removed, and that nothing else goes |
| `ComponentFacts.PatchVersionEffect` | backend/internal/components/service.go:42-52 | a listed version is selected, any other changes nothing |
| `Components.Service.DetectOne` | backend/internal/components/detect.go:128-191 | the entry after detection, and the cache |

## Left out

- ConfigSync: no failure between the config file's rename and the recording of its hash; the temporary file, directory creation and the `/proc` walk that finds the sidecar are I/O, their outcomes parameters. EnsureConfig without a configured path or registry does nothing.
- Providers: the provider counter is unbounded where the code's is 64 bits wide; endpoint validation and the upstream's answer are parameters.
- ModelHub: download counts are unbounded; creation and update times, and the sorting of listings by them, are not modelled; parsing of a web address into lower-cased host and path is a parameter.
- Publish: the Postgres stores, which do not enforce a single pending request per model; timestamps and listings.
- ConcurrentApproval.OneCopyPerName: like the module's other results, no public model is deleted along the run, because after a deletion the name is free again and a second copy is legitimate. Edits and deletions of models are single steps there: their second store call is decided as the first was (`ModelHub.GateIsStable`).
- GpuStatus: sums are unbounded integers where the code's are 64 bits wide; Kubernetes quantities are whole numbers.
- GpuVendors: upper and lower case are those of ASCII; resource keys have no other letters.
- GpuMonitoring.TwoSourcesAgree: about series that report the same amounts; the queries ask for capacity and for requests, where the apiserver path reads what is allocatable and falls back to limits.
- GpuMonitoring: the HTTP exchange with Prometheus and the parsing of its response; series arrive as labels and a number, and the queries select among them by their filters.
- GpuReadings.ReportsAgree: says nothing of a pod row's phase, which the metrics path does not know (it reports every pod as Running), nor compares its split over containers.
- Sse: bytes are characters; decoding UTF-8 across chunk borders is the browser's.
- Mcp: a Content-Length too large to allocate; white space outside ASCII around headers and lines; identities that are neither whole numbers nor text; the individual tools behind `tools/call` are a parameter, and what they answer can always be printed as JSON.
- Lfs: branches and refs are one; the HTTP exchange with the LFS store is a map of objects; object uploads and commits succeed; the plain download's length header.
- Lfs.LfsRoundTrip: says nothing of a `.gitattributes` stored through LFS whose pointer, read back to add its line, breaks off midway.
- Grant: the HTTP header the token arrives in.
- PromLabels: numeric escapes in PromQL strings, which the printer never emits.
- Components: Helm, the cluster's listings and transition times are parameters; the catalogue file starts without preset managers.
- The chat requests themselves: built and sent to the upstream, not modelled past the model name they carry.
- `storage`, `registry`, `collections`, `admin`: thin stores that would add only easy members.
- Object builders and projections for inference services, training jobs, notebooks and gateways: nested map lookups.
- The React pages: user interface.
