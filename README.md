# WowUp add-on resolution, modelled in Dafny

This project models the add-on resolution logic of WowUp's `AddonService`
(`wowup-electron/src/app/services/addons/addon.service.ts`). The service turns
the add-on folders discovered in a game-client installation, together with the
catalog entries a provider returns for them, into `Addon` records. It also keeps
those records in a per-client-type store.

- **Channel selection** (`getLatestFile`): the first file of a catalog entry, in
  the provider's order, whose channel is at or below the requested one.
  Channels rank Stable < Beta < Alpha. This is `AddonResolution.LatestFile`.
- **Record construction** (`createAddon`, `getCurseAddonById`): `CreateAddon`
  and `CurseAddonById`.
- **Rescan loop** (`getLocalAddons`): the method `GetLocalAddons` walks the folders
  in order. `ResolveFolder` is one pass of its `try` block, and `Scan` and
  `LocalAddons` specify the whole pass.
- **Store-or-rescan gate** (`getAddons`): `AddonService.GetAddons` works over
  the store class `AddonStorage.AddonStorageService`.
- **Featured aggregation** (`getFeaturedAddons`): `CollectFeatured`, which stands
  for `forkJoin`, followed by `Flatten`, which stands for `flat(1)`.

Collaborators are parameters:
- the catalog provider's lookup by id is `GetById`, where `Failure` stands for a throw or a rejected promise;
- the folder source is the function field `listAddons`, which returns the folders of a client type or a rejection;
- the identifier generator is `newId: nat -> string`. It is indexed by how many identifiers have been handed out, and nothing is assumed about the values.

`GetLocalAddons` is written once, over any per-folder step (`Resolver`). `GetAddons`
runs it with the real step, `FolderResolver(clientType, getById)`, which is
`ResolveFolder`. The lemmas about a rescan are proved for any step first
(`Scan...`). They are then specialised to the real one (`LocalAddons...`).

Channel selection as written ignores the channel (see Findings).
`ChannelSelectionAsWritten` models it as written. `CurseAddonById`,
`ResolveFolder`, `LocalAddons` and `GetAddons` use the intended selection
`LatestFile`, so they describe the intended behaviour, not the code's.

Modules, one per file: `Wrappers` (Option, Result), `Entities` (records and
channel ranks), `AddonStorage` (the store), `AddonResolution` (the service),
`ChannelSelectionAsWritten` (the selection as the code performs it).

## Model

| member | source | states |
|---|---|---|
| AddonStorage.OfClientType | wowup-electron/src/app/services/addons/addon.service.ts:46 | exactly the records of one client type: every kept record is of that type and every record of that type is kept; all of them when every record has that type, none when no record has it (order: OfClientTypeAppend) |
| AddonStorage.OfClientTypeAppend | wowup-electron/src/app/services/addons/addon.service.ts:46 | selecting one client type's records keeps their relative order: selecting from a concatenation is concatenating the selections |
| AddonStorage.AddonStorageService.GetAllForClientType | wowup-electron/src/app/services/addons/addon.service.ts:41 | returns what the store holds for the client type, and nothing for an absent one |
| AddonStorage.AddonStorageService.RemoveForClientType | wowup-electron/src/app/services/addons/addon.service.ts:44 | the client type's records are gone and every other client type's records are unchanged |
| AddonStorage.AddonStorageService.SetAll | wowup-electron/src/app/services/addons/addon.service.ts:46 | each written record lands under its own client type, after what was stored there |
| Entities.HasCurseProjectId | wowup-electron/src/app/services/addons/addon.service.ts:89 | the JavaScript truthiness of the project id: a folder counts as having one only when the id is present, and an empty id counts as absent |
| AddonResolution.FilesAtOrBelow | wowup-electron/src/app/services/addons/addon.service.ts:120 | the filter keeps only files of the input whose channel is at or below the requested one, and keeps every such file |
| AddonResolution.LatestFile | wowup-electron/src/app/services/addons/addon.service.ts:118-123 | a selected file is one of the entry's files and its channel is at or below the requested one; nothing is selected exactly when no file is at or below it |
| AddonResolution.FirstAtOrBelowLeads | wowup-electron/src/app/services/addons/addon.service.ts:119-122 | the first file at or below the channel heads the filtered list |
| AddonResolution.LatestFileIsFirstAtOrBelow | wowup-electron/src/app/services/addons/addon.service.ts:118-123 | the selected file is the first one, in provider order, at or below the channel (Beta, Stable, Alpha with Stable requested gives index 1) |
| AddonResolution.CreateAddon | wowup-electron/src/app/services/addons/addon.service.ts:125-152 | no record exactly when no file was selected. Version, game version and download URL come from the file. Name, thumbnail, external id, author, external URL and provider come from the entry. Folder name and client type come from the arguments. The channel is Stable and neither flag is set |
| AddonResolution.CurseAddonById | wowup-electron/src/app/services/addons/addon.service.ts:108-116 | fails exactly when the lookup fails. Otherwise there is no record exactly when no file is at or below Stable. A record's channel reselects the very file its version, download URL and game version came from |
| AddonResolution.ResolveFolder | wowup-electron/src/app/services/addons/addon.service.ts:86-102 | a folder yields a record exactly when it names a non-empty project id, its lookup succeeds and some file is at or below Stable; the record names the folder, the client type and the drawn identifier |
| AddonResolution.Scan | wowup-electron/src/app/services/addons/addon.service.ts:85-105 | the sequential pass over the folders produces at most one record per folder |
| AddonResolution.LocalAddons | wowup-electron/src/app/services/addons/addon.service.ts:80-106 | the rescan of a client type's folders yields at most one record per folder and nothing for no folders (its content is given by LocalAddonsFollowMatchedFolders) |
| AddonResolution.GetLocalAddons | wowup-electron/src/app/services/addons/addon.service.ts:85-105 | the loop returns exactly the sequential scan: each folder's record, if any, is appended in folder order with the next identifier |
| AddonResolution.ScanStep | wowup-electron/src/app/services/addons/addon.service.ts:85-103 | one more folder extends the scan by that folder's record, or leaves it as it was |
| AddonResolution.MatchedIndicesExact | wowup-electron/src/app/services/addons/addon.service.ts:85-103 | the matched positions increase strictly and are exactly the positions of the folders that match |
| AddonResolution.ScanFollowsMatchedFolders | wowup-electron/src/app/services/addons/addon.service.ts:85-105 | the k-th output record is the record of the k-th matching folder, built with the k-th identifier |
| AddonResolution.ScanSkipsUnresolved | wowup-electron/src/app/services/addons/addon.service.ts:95-102 | a folder that yields nothing can be removed from the input without changing the output |
| AddonResolution.LocalAddonsFollowMatchedFolders | wowup-electron/src/app/services/addons/addon.service.ts:80-106 | the rescan's output is an order-preserving subsequence of the folders. It holds at most one record per folder, one for exactly each folder that names a project, is found and has a Stable file. Each record names its folder and the client type |
| AddonResolution.LocalAddonsSkipUnresolved | wowup-electron/src/app/services/addons/addon.service.ts:89-102 | a folder with no project id, a throwing lookup or no Stable file contributes nothing and does not stop or shift the folders after it |
| AddonResolution.LocalAddonsOfClientType | wowup-electron/src/app/services/addons/addon.service.ts:140 | every rescanned record carries the rescanned client type |
| AddonResolution.AddonService.constructor | wowup-electron/src/app/services/addons/addon.service.ts:28-38 | the service holds the given store and collaborators and has handed out no identifier |
| AddonResolution.AddonService.GetAddons | wowup-electron/src/app/services/addons/addon.service.ts:40-57 | without a rescan request and with a non-empty store, the stored records are returned and the store, the identifiers and the folder-source use stay unchanged. Otherwise the client type's records are removed first. If the folder source rejects, the rejection is returned and the client type is left with nothing stored. Otherwise the fresh rescan is returned, even when empty, and becomes exactly what is stored for that client type. Other client types are untouched on every path |
| AddonResolution.AddonService.Rescan | wowup-electron/src/app/services/addons/addon.service.ts:45-46 | after the removal: a rejected folder source is returned and the store is left as it is; otherwise the rescan is returned, every record of it has the rescanned client type, and each is appended under that client type only. One identifier is drawn per record |
| AddonResolution.CollectFeatured | wowup-electron/src/app/services/addons/addon.service.ts:60 | succeeds exactly when every provider succeeds, and then holds each provider's list in provider order; otherwise reports one of the providers' failures |
| AddonResolution.FeaturedAddons | wowup-electron/src/app/services/addons/addon.service.ts:59-66 | the aggregate succeeds exactly when every provider succeeds |
| AddonResolution.Flatten | wowup-electron/src/app/services/addons/addon.service.ts:63 | `flat(1)` keeps every element: the flattening's length is the sum of the list lengths |
| AddonResolution.FlattenAppend | wowup-electron/src/app/services/addons/addon.service.ts:63 | flattening distributes over concatenation |
| AddonResolution.FlattenPlacesEachList | wowup-electron/src/app/services/addons/addon.service.ts:63 | the k-th list appears whole in the flattening, right after the lists before it |
| AddonResolution.FeaturedAddonsInProviderOrder | wowup-electron/src/app/services/addons/addon.service.ts:59-66 | the aggregate's length is the sum of the providers' lengths, and provider k's list follows those of providers 0 to k-1 |
| ChannelSelectionAsWritten.LatestFileAsWritten | wowup-electron/src/app/services/addons/addon.service.ts:118-123 | the selection the code performs returns the first file, if any, without looking at the channel |
| ChannelSelectionAsWritten.AsWrittenSelectsAsIfAlpha | wowup-electron/src/app/services/addons/addon.service.ts:118-123 | as written, every request behaves like a request for the least stable channel |
| ChannelSelectionAsWritten.AsWrittenMislabelsBetaAsStable | wowup-electron/src/app/services/addons/addon.service.ts:114-148 | on a listing with a Beta file before a Stable one, the code builds a record for the Beta version labelled Stable; the intended selection picks the Stable file |
| ChannelSelectionAsWritten.BetaFirstRescanPicksStable | wowup-electron/src/app/services/addons/addon.service.ts:80-116 | a rescan of folder "DBM" naming project 3358 yields one record for version "2.0" on the Stable channel |

## Findings

| source | as written | input that shows it | evidently intended | confidence | as-written member | corrected member |
|---|---|---|---|---|---|---|
| wowup-electron/src/app/services/addons/addon.service.ts:118-123 | `_.flow(_.filter(pred), _.first)` uses plain `lodash` (imported at line 8). There `_.filter(pred)` filters the predicate function itself and gives `[]`, and `_.flow([], _.first)` is `_.first`. So the first file is returned whatever its channel | files [Beta "2.1b", Stable "2.0"] with Stable requested: the Beta file is chosen and the record built from it says Stable | the first file whose channel is at or below the requested one (the curried `lodash/fp` reading) | medium, not executed; it depends on the lodash build being the plain one the import names | ChannelSelectionAsWritten.LatestFileAsWritten, ChannelSelectionAsWritten.AsWrittenMislabelsBetaAsStable | AddonResolution.LatestFile, AddonResolution.LatestFileIsFirstAtOrBelow |

## Left out

- Angular dependency injection, `HttpClient`, `WowUpApiService`, `CurseAddonProvider` and `CachingService` (lines 1-38) are foreign network and caching code. The provider is the lookup function `getById`, assumed to give the same answer to the same question, as a cache would.
- The `instanceof` provider lookup (line 112) is replaced by the single given lookup function.
- `uuid.v4()` (line 136) becomes `newId(k)` for the k-th record built. Nothing is assumed about uniqueness.
- `warcraftService.listAddons` (line 81) is folder discovery and TOC parsing, which are I/O. It is the function field `listAddons`, whose rejection is modelled.
- `console.log` and `console.error` (lines 42, 83, 101).
- Asynchrony: the awaits in `getAddons` and `getLocalAddons` are sequential steps. Interleaving with other callers of the store is not modelled.
- GetAddons: a store call that throws is not modelled. In the code such a throw escapes to the caller; a throw from `setAll` (line 46) leaves the client type emptied by `removeForClientType` (line 44).
- Only a failing lookup is modelled as a throw inside the loop's `try` block; any other exception in that block is folded into it.
- The store's internals (`AddonStorageService`) are not part of this model. It is a map from client type to records. `SetAll` appends each record under its own client type, which after the removal at line 44 amounts to replacing that client type's records. The order in which a real store returns records is not modelled.
- `getAllStoredAddons` (lines 68-78) is private and never called.
- The commented-out sync code (lines 48-55).
- FeaturedAddons: `forkJoin` (line 60) runs its providers concurrently; the model collects them in provider order, which is the order it promises for results. With no providers at all, or a provider that completes without a value, `forkJoin` completes without emitting; the model yields `Success([])` for no providers and does not model a provider that emits nothing.
- CollectFeatured: states only that the reported failure is one of the providers' failures. Which one rxjs reports depends on which fails first in time; the model picks the first in provider order.
- `PotentialAddon` is a type parameter, since the service never looks inside it.
- The `WowClientType` and `AddonChannelType` definitions are not part of this model. Client types are opaque string tags. Channels are Stable < Beta < Alpha with the numeric values 0, 1 and 2 that `<=` compares.
- Record fields the service never reads or writes (release dates, download counts and so on) are left out of the entity datatypes.
- `WowUp.WPF/Services/Contracts/IWarcraftService.cs` is an interface of folder-path lookups and folder selection: I/O with no logic.
