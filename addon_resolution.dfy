/**
 * The add-on resolution logic of the add-on service: channel selection,
 * record construction, the per-folder rescan loop, the store-or-rescan
 * gate and the aggregation of featured add-ons across providers.
 *
 * Collaborators are parameters: the catalog provider's lookup by id
 * (`GetById`), the folder list of a client type, the store, and a source of
 * fresh identifiers (`IdSource`, indexed by how many ids were drawn so far).
 */
module AddonResolution {
  import opened Wrappers
  import opened Entities
  import opened AddonStorage

  /** A catalog provider's `getById(externalId, clientType)`; `Failure` stands for a throw. */
  type GetById = (string, ClientType) -> Result<AddonSearchResult>

  /** The k-th identifier handed out by the id generator. */
  type IdSource = nat -> string

  // ---------------------------------------------------------------------------
  // Channel selection

  /** The files whose channel is at or below `channelType`, in provider order. */
  function FilesAtOrBelow(files: seq<AddonSearchResultFile>, channelType: ChannelType): (r: seq<AddonSearchResultFile>)
    ensures |r| <= |files|
    ensures forall k :: 0 <= k < |r| ==> r[k] in files && Rank(r[k].channelType) <= Rank(channelType)
    ensures forall f :: f in files && Rank(f.channelType) <= Rank(channelType) ==> f in r
  {
    if |files| == 0 then []
    else if Rank(files[0].channelType) <= Rank(channelType) then [files[0]] + FilesAtOrBelow(files[1..], channelType)
    else FilesAtOrBelow(files[1..], channelType)
  }

  /** The first file, in provider order, whose channel is at or below `channelType`. */
  function LatestFile(searchResult: AddonSearchResult, channelType: ChannelType): (r: Option<AddonSearchResultFile>)
    ensures r.Some? ==> r.value in searchResult.files && Rank(r.value.channelType) <= Rank(channelType)
    ensures r.None? <==> forall f :: f in searchResult.files ==> Rank(f.channelType) > Rank(channelType)
  {
    var matching := FilesAtOrBelow(searchResult.files, channelType);
    if |matching| == 0 then None else Some(matching[0])
  }

  lemma {:induction false} FirstAtOrBelowLeads(files: seq<AddonSearchResultFile>, channelType: ChannelType, i: nat)
    requires i < |files| && Rank(files[i].channelType) <= Rank(channelType)
    requires forall j :: 0 <= j < i ==> Rank(files[j].channelType) > Rank(channelType)
    ensures FilesAtOrBelow(files, channelType) != [] && FilesAtOrBelow(files, channelType)[0] == files[i]
  {
    if i > 0 {
      FirstAtOrBelowLeads(files[1..], channelType, i - 1);
    }
  }

  /** Selection picks exactly the first file at or below the channel, not any later one. */
  lemma LatestFileIsFirstAtOrBelow(searchResult: AddonSearchResult, channelType: ChannelType, i: nat)
    requires i < |searchResult.files| && Rank(searchResult.files[i].channelType) <= Rank(channelType)
    requires forall j :: 0 <= j < i ==> Rank(searchResult.files[j].channelType) > Rank(channelType)
    ensures LatestFile(searchResult, channelType) == Some(searchResult.files[i])
  {
    FirstAtOrBelowLeads(searchResult.files, channelType, i);
  }

  // ---------------------------------------------------------------------------
  // Record construction

  /**
   * Builds the record for `folderName` from the catalog entry and the selected
   * file, or nothing when no file was selected.
   */
  function CreateAddon(id: string, folderName: string, searchResult: AddonSearchResult,
                       latestFile: Option<AddonSearchResultFile>, clientType: ClientType): (r: Option<Addon>)
    ensures r.None? <==> latestFile.None?
    ensures r.Some? ==>
      var a := r.value;
      && a.id == id
      && a.latestVersion == latestFile.value.version
      && a.gameVersion == latestFile.value.gameVersion
      && a.downloadUrl == latestFile.value.downloadUrl
      && a.name == searchResult.name
      && a.thumbnailUrl == searchResult.thumbnailUrl
      && a.externalId == searchResult.externalId
      && a.author == searchResult.author
      && a.externalUrl == searchResult.externalUrl
      && a.providerName == searchResult.providerName
      && a.folderName == folderName
      && a.clientType == clientType
      && a.channelType == Stable
      && !a.isIgnored
      && !a.autoUpdateEnabled
  {
    if latestFile.None? then None
    else
      var file := latestFile.value;
      Some(Addon(
        id := id,
        name := searchResult.name,
        thumbnailUrl := searchResult.thumbnailUrl,
        latestVersion := file.version,
        clientType := clientType,
        externalId := searchResult.externalId,
        folderName := folderName,
        gameVersion := file.gameVersion,
        author := searchResult.author,
        downloadUrl := file.downloadUrl,
        externalUrl := searchResult.externalUrl,
        providerName := searchResult.providerName,
        channelType := Stable,
        isIgnored := false,
        autoUpdateEnabled := false))
  }

  /**
   * Looks the folder's Curse project up and resolves it on the Stable channel.
   * `Failure` is the lookup throwing; `Success(None)` is "no file on the channel".
   */
  function CurseAddonById(addonFolder: AddonFolder, clientType: ClientType, getById: GetById, id: string): (r: Result<Option<Addon>>)
    requires HasCurseProjectId(addonFolder.toc)
    ensures r.Failure? <==> getById(addonFolder.toc.curseProjectId.value, clientType).Failure?
    ensures r.Success? ==>
      var searchResult := getById(addonFolder.toc.curseProjectId.value, clientType).value;
      && (r.value.None? <==> forall f :: f in searchResult.files ==> Rank(f.channelType) > Rank(Stable))
      && (r.value.Some? ==>
            var a := r.value.value;
            // the record's channel is the channel its file was selected on
            && LatestFile(searchResult, a.channelType).Some?
            && LatestFile(searchResult, a.channelType).value.version == a.latestVersion
            && LatestFile(searchResult, a.channelType).value.downloadUrl == a.downloadUrl
            && LatestFile(searchResult, a.channelType).value.gameVersion == a.gameVersion
            && a.folderName == addonFolder.name
            && a.externalId == searchResult.externalId)
  {
    match getById(addonFolder.toc.curseProjectId.value, clientType)
    case Failure(e) => Failure(e)
    case Success(searchResult) =>
      var latestFile := LatestFile(searchResult, Stable);
      Success(CreateAddon(id, addonFolder.name, searchResult, latestFile, clientType))
  }

  // ---------------------------------------------------------------------------
  // The rescan loop

  /** A folder yields a record: it names a project, the lookup succeeds and a Stable file exists. */
  predicate Resolves(addonFolder: AddonFolder, clientType: ClientType, getById: GetById)
  {
    && HasCurseProjectId(addonFolder.toc)
    && getById(addonFolder.toc.curseProjectId.value, clientType).Success?
    && exists f :: f in getById(addonFolder.toc.curseProjectId.value, clientType).value.files
                   && Rank(f.channelType) <= Rank(Stable)
  }

  /** What one iteration of the rescan loop contributes for one folder (a throw is caught). */
  function ResolveFolder(addonFolder: AddonFolder, clientType: ClientType, getById: GetById, id: string): (r: Option<Addon>)
    ensures r.Some? <==> Resolves(addonFolder, clientType, getById)
    ensures r.Some? ==> r.value.folderName == addonFolder.name && r.value.clientType == clientType && r.value.id == id
  {
    if !HasCurseProjectId(addonFolder.toc) then None
    else
      match CurseAddonById(addonFolder, clientType, getById, id)
      case Failure(_) => None
      case Success(addon) => addon
  }

  /** The per-folder step of a rescan: a folder and the next identifier give at most one record. */
  type Resolver = (AddonFolder, string) -> Option<Addon>

  /**
   * The records a sequential pass over `addonFolders` collects with `resolve`,
   * the first of them taking identifier number `drawn`. Defined from the last
   * folder backwards so that it follows the loop's prefix.
   */
  function Scan(addonFolders: seq<AddonFolder>, resolve: Resolver, newId: IdSource, drawn: nat): (r: seq<Addon>)
    ensures |r| <= |addonFolders|
  {
    if |addonFolders| == 0 then []
    else
      var previous := Scan(addonFolders[..|addonFolders| - 1], resolve, newId, drawn);
      var last := resolve(addonFolders[|addonFolders| - 1], newId(drawn + |previous|));
      if last.Some? then previous + [last.value] else previous
  }

  /** The rescan's per-folder step for one client type and one catalog provider. */
  function FolderResolver(clientType: ClientType, getById: GetById): Resolver
  {
    (addonFolder: AddonFolder, id: string) => ResolveFolder(addonFolder, clientType, getById, id)
  }

  /** The folders of `clientType` that yield a record. */
  function FolderResolves(clientType: ClientType, getById: GetById): AddonFolder -> bool
  {
    (addonFolder: AddonFolder) => Resolves(addonFolder, clientType, getById)
  }

  /** The records a rescan of `addonFolders` produces. */
  function LocalAddons(addonFolders: seq<AddonFolder>, clientType: ClientType, getById: GetById,
                       newId: IdSource, drawn: nat): (r: seq<Addon>)
    ensures |r| <= |addonFolders|
    ensures addonFolders == [] ==> r == []
  {
    Scan(addonFolders, FolderResolver(clientType, getById), newId, drawn)
  }

  /**
   * The sequential pass over the folders: each folder's step either yields a
   * record, which is appended and consumes one identifier, or yields nothing
   * and the pass continues with the next folder.
   */
  method GetLocalAddons(addonFolders: seq<AddonFolder>, resolve: Resolver, newId: IdSource, drawn: nat)
    returns (addons: seq<Addon>)
    ensures addons == Scan(addonFolders, resolve, newId, drawn)
  {
    addons := [];
    var i := 0;
    while i < |addonFolders|
      invariant 0 <= i <= |addonFolders|
      invariant addons == Scan(addonFolders[..i], resolve, newId, drawn)
    {
      var addon := resolve(addonFolders[i], newId(drawn + |addons|));
      ScanStep(addonFolders, i, resolve, newId, drawn);
      i := i + 1;
      if addon.None? {
        continue;
      }
      addons := addons + [addon.value];
    }
    assert addonFolders[..i] == addonFolders;
  }

  /** One more folder extends the scan by that folder's record, if any. */
  lemma ScanStep(addonFolders: seq<AddonFolder>, i: nat, resolve: Resolver, newId: IdSource, drawn: nat)
    requires i < |addonFolders|
    ensures var previous := Scan(addonFolders[..i], resolve, newId, drawn);
      var last := resolve(addonFolders[i], newId(drawn + |previous|));
      Scan(addonFolders[..i + 1], resolve, newId, drawn)
      == if last.Some? then previous + [last.value] else previous
  {
    assert addonFolders[..i + 1][..i] == addonFolders[..i];
  }

  /** The positions, in order, of the folders that satisfy `matches`. */
  function MatchedIndices(addonFolders: seq<AddonFolder>, matches: AddonFolder -> bool): seq<nat>
  {
    if |addonFolders| == 0 then []
    else
      MatchedIndices(addonFolders[..|addonFolders| - 1], matches)
      + (if matches(addonFolders[|addonFolders| - 1]) then [|addonFolders| - 1] else [])
  }

  /** The matched positions are increasing and are exactly the positions of matching folders. */
  lemma {:induction false} MatchedIndicesExact(addonFolders: seq<AddonFolder>, matches: AddonFolder -> bool)
    ensures var ix := MatchedIndices(addonFolders, matches);
      && |ix| <= |addonFolders|
      && (forall k :: 0 <= k < |ix| ==> ix[k] < |addonFolders| && matches(addonFolders[ix[k]]))
      && (forall k, l :: 0 <= k < l < |ix| ==> ix[k] < ix[l])
      && (forall j :: 0 <= j < |addonFolders| && matches(addonFolders[j]) ==> j in ix)
  {
    if |addonFolders| > 0 {
      var n := |addonFolders| - 1;
      var init := addonFolders[..n];
      MatchedIndicesExact(init, matches);
      assert forall j :: 0 <= j < n ==> init[j] == addonFolders[j];
    }
  }

  /**
   * When a folder yields a record exactly when it `matches`, the k-th record of
   * a scan is the record of the k-th matching folder, built with the k-th
   * identifier drawn.
   */
  lemma {:induction false} ScanFollowsMatchedFolders(addonFolders: seq<AddonFolder>, resolve: Resolver,
                                                    matches: AddonFolder -> bool, newId: IdSource, drawn: nat)
    requires forall f, id :: resolve(f, id).Some? == matches(f)
    ensures var out := Scan(addonFolders, resolve, newId, drawn);
            var ix := MatchedIndices(addonFolders, matches);
      && |out| == |ix|
      && forall k :: 0 <= k < |ix| ==>
           ix[k] < |addonFolders| && resolve(addonFolders[ix[k]], newId(drawn + k)) == Some(out[k])
  {
    if |addonFolders| > 0 {
      var n := |addonFolders| - 1;
      var init := addonFolders[..n];
      var previous := Scan(init, resolve, newId, drawn);
      var previousIx := MatchedIndices(init, matches);
      ScanFollowsMatchedFolders(init, resolve, matches, newId, drawn);
      MatchedIndicesExact(init, matches);
      var last := resolve(addonFolders[n], newId(drawn + |previous|));
      var out := Scan(addonFolders, resolve, newId, drawn);
      var ix := MatchedIndices(addonFolders, matches);
      assert out == if last.Some? then previous + [last.value] else previous;
      assert ix == previousIx + (if last.Some? then [n] else []);
      forall k | 0 <= k < |ix|
        ensures ix[k] < |addonFolders| && resolve(addonFolders[ix[k]], newId(drawn + k)) == Some(out[k])
      {
        if k < |previousIx| {
          assert ix[k] == previousIx[k] && out[k] == previous[k];
          assert init[previousIx[k]] == addonFolders[previousIx[k]];
        }
      }
    }
  }

  /** A folder that yields nothing whatever the identifier can be dropped from a scan. */
  lemma {:induction false} ScanSkipsUnresolved(before: seq<AddonFolder>, skipped: AddonFolder, after: seq<AddonFolder>,
                                              resolve: Resolver, newId: IdSource, drawn: nat)
    requires forall id :: resolve(skipped, id).None?
    ensures Scan(before + [skipped] + after, resolve, newId, drawn) == Scan(before + after, resolve, newId, drawn)
  {
    var withSkip := before + [skipped] + after;
    var without := before + after;
    if |after| == 0 {
      assert withSkip[..|withSkip| - 1] == before;
      assert without == before;
    } else {
      var m := |after| - 1;
      ScanSkipsUnresolved(before, skipped, after[..m], resolve, newId, drawn);
      assert withSkip[..|withSkip| - 1] == before + [skipped] + after[..m];
      assert without[..|without| - 1] == before + after[..m];
      assert withSkip[|withSkip| - 1] == after[m];
      assert without[|without| - 1] == after[m];
    }
  }

  /**
   * The rescan's output is an order-preserving selection of the folders, one
   * record per folder that names a project, is found and has a Stable file,
   * and each record names its folder and the client type.
   */
  lemma LocalAddonsFollowMatchedFolders(addonFolders: seq<AddonFolder>, clientType: ClientType,
                                        getById: GetById, newId: IdSource, drawn: nat)
    ensures var out := LocalAddons(addonFolders, clientType, getById, newId, drawn);
            var ix := MatchedIndices(addonFolders, FolderResolves(clientType, getById));
      && |out| == |ix| <= |addonFolders|
      && (forall k, l :: 0 <= k < l < |ix| ==> ix[k] < ix[l])
      && (forall j :: 0 <= j < |addonFolders| ==> (j in ix <==> Resolves(addonFolders[j], clientType, getById)))
      && forall k :: 0 <= k < |ix| ==>
           && ix[k] < |addonFolders|
           && ResolveFolder(addonFolders[ix[k]], clientType, getById, newId(drawn + k)) == Some(out[k])
           && out[k].folderName == addonFolders[ix[k]].name
           && out[k].clientType == clientType
  {
    var resolve := FolderResolver(clientType, getById);
    var matches := FolderResolves(clientType, getById);
    forall f, id ensures resolve(f, id).Some? == matches(f) {
      assert resolve(f, id) == ResolveFolder(f, clientType, getById, id);
    }
    ScanFollowsMatchedFolders(addonFolders, resolve, matches, newId, drawn);
    MatchedIndicesExact(addonFolders, matches);
  }

  /**
   * A folder with no project id, whose lookup throws or that has no Stable
   * file contributes nothing and does not stop or shift the folders after it.
   */
  lemma LocalAddonsSkipUnresolved(before: seq<AddonFolder>, skipped: AddonFolder, after: seq<AddonFolder>,
                                  clientType: ClientType, getById: GetById, newId: IdSource, drawn: nat)
    requires !Resolves(skipped, clientType, getById)
    ensures LocalAddons(before + [skipped] + after, clientType, getById, newId, drawn)
         == LocalAddons(before + after, clientType, getById, newId, drawn)
  {
    var resolve := FolderResolver(clientType, getById);
    forall id ensures resolve(skipped, id).None? {
      assert resolve(skipped, id) == ResolveFolder(skipped, clientType, getById, id);
    }
    ScanSkipsUnresolved(before, skipped, after, resolve, newId, drawn);
  }

  /** Every record of a rescan names the rescanned client type. */
  lemma LocalAddonsOfClientType(addonFolders: seq<AddonFolder>, clientType: ClientType,
                                getById: GetById, newId: IdSource, drawn: nat)
    ensures var out := LocalAddons(addonFolders, clientType, getById, newId, drawn);
      forall k :: 0 <= k < |out| ==> out[k].clientType == clientType
  {
    LocalAddonsFollowMatchedFolders(addonFolders, clientType, getById, newId, drawn);
  }

  // ---------------------------------------------------------------------------
  // The store-or-rescan gate

  class AddonService {
    const storage: AddonStorageService
    /** The catalog provider's lookup by project id. */
    const getById: GetById
    /** The folder source: the add-on folders discovered for a client type, or its rejection. */
    const listAddons: ClientType -> Result<seq<AddonFolder>>
    /** The identifier generator; `idsDrawn` identifiers have been handed out so far. */
    const newId: IdSource
    var idsDrawn: nat
    /** How many times the folder source has been consulted. */
    ghost var rescans: nat

    constructor (storage: AddonStorageService, getById: GetById,
                 listAddons: ClientType -> Result<seq<AddonFolder>>, newId: IdSource)
      ensures this.storage == storage && this.getById == getById
      ensures this.listAddons == listAddons && this.newId == newId
      ensures idsDrawn == 0 && rescans == 0
    {
      this.storage := storage;
      this.getById := getById;
      this.listAddons := listAddons;
      this.newId := newId;
      idsDrawn := 0;
      rescans := 0;
    }

    /**
     * The stored records of `clientType`, unless a rescan is asked for or
     * nothing is stored; then the stored records of `clientType` are replaced
     * by a fresh rescan, which is returned even when it is empty. When the
     * folder source rejects, the rejection escapes after the removal, so the
     * client type is left with nothing stored.
     */
    method GetAddons(clientType: ClientType, rescan: bool) returns (r: Result<seq<Addon>>)
      modifies this, storage
      ensures !rescan && old(storage.ForClientType(clientType)) != [] ==>
        && r == Success(old(storage.ForClientType(clientType)))
        && storage.records == old(storage.records)
        && idsDrawn == old(idsDrawn)
        && rescans == old(rescans)
      ensures (rescan || old(storage.ForClientType(clientType)) == []) && listAddons(clientType).Failure? ==>
        && r == Failure(listAddons(clientType).error)
        && storage.ForClientType(clientType) == []
        && (forall c :: c != clientType ==> storage.ForClientType(c) == old(storage.ForClientType(c)))
        && idsDrawn == old(idsDrawn)
        && rescans == old(rescans) + 1
      ensures (rescan || old(storage.ForClientType(clientType)) == []) && listAddons(clientType).Success? ==>
        && r == Success(LocalAddons(listAddons(clientType).value, clientType, getById, newId, old(idsDrawn)))
        && storage.ForClientType(clientType) == r.value
        && (forall c :: c != clientType ==> storage.ForClientType(c) == old(storage.ForClientType(c)))
        && idsDrawn == old(idsDrawn) + |r.value|
        && rescans == old(rescans) + 1
    {
      var addons := storage.GetAllForClientType(clientType);
      if rescan || |addons| == 0 {
        storage.RemoveForClientType(clientType);
        r := Rescan(clientType);
      } else {
        r := Success(addons);
      }
    }

    /** Lines 44-46 after the removal: rescan the folders and write the records back. */
    method Rescan(clientType: ClientType) returns (r: Result<seq<Addon>>)
      modifies this, storage
      ensures listAddons(clientType).Failure? ==>
        && r == Failure(listAddons(clientType).error)
        && storage.records == old(storage.records)
        && idsDrawn == old(idsDrawn)
      ensures listAddons(clientType).Success? ==>
        && r == Success(LocalAddons(listAddons(clientType).value, clientType, getById, newId, old(idsDrawn)))
        && (forall c :: storage.ForClientType(c) == old(storage.ForClientType(c)) + OfClientType(r.value, c))
        && OfClientType(r.value, clientType) == r.value
        && (forall c :: c != clientType ==> OfClientType(r.value, c) == [])
        && idsDrawn == old(idsDrawn) + |r.value|
      ensures rescans == old(rescans) + 1
    {
      var addonFolders := listAddons(clientType);
      rescans := rescans + 1;
      if addonFolders.Failure? {
        return Failure(addonFolders.error);
      }
      var addons := GetLocalAddons(addonFolders.value, FolderResolver(clientType, getById), newId, idsDrawn);
      LocalAddonsOfClientType(addonFolders.value, clientType, getById, newId, idsDrawn);
      idsDrawn := idsDrawn + |addons|;
      storage.SetAll(addons);
      return Success(addons);
    }
  }

  // ---------------------------------------------------------------------------
  // Featured aggregation

  /**
   * Waits for every provider's featured list: all of them in provider order,
   * or a failure one of the providers reported.
   */
  function CollectFeatured<T>(providers: seq<ClientType -> Result<seq<T>>>, clientType: ClientType): (r: Result<seq<seq<T>>>)
    ensures r.Success? <==> forall k :: 0 <= k < |providers| ==> providers[k](clientType).Success?
    ensures r.Success? ==>
      && |r.value| == |providers|
      && forall k :: 0 <= k < |providers| ==> r.value[k] == providers[k](clientType).value
    ensures r.Failure? ==> exists k :: 0 <= k < |providers| && providers[k](clientType) == Failure(r.error)
  {
    if |providers| == 0 then Success([])
    else
      match providers[0](clientType)
      case Failure(e) => Failure(e)
      case Success(first) =>
        match CollectFeatured(providers[1..], clientType)
        case Failure(e) => Failure(e)
        case Success(rest) => Success([first] + rest)
  }

  /** One level of flattening: the lists one after the other. */
  function Flatten<T>(lists: seq<seq<T>>): (r: seq<T>)
    ensures |r| == TotalLength(lists)
  {
    if |lists| == 0 then [] else lists[0] + Flatten(lists[1..])
  }

  /** The sum of the lengths of the lists. */
  function TotalLength<T>(lists: seq<seq<T>>): nat
  {
    if |lists| == 0 then 0 else |lists[0]| + TotalLength(lists[1..])
  }

  /** Every provider's featured add-ons, concatenated in provider order. */
  function FeaturedAddons<T>(providers: seq<ClientType -> Result<seq<T>>>, clientType: ClientType): (r: Result<seq<T>>)
    ensures r.Success? <==> forall k :: 0 <= k < |providers| ==> providers[k](clientType).Success?
  {
    match CollectFeatured(providers, clientType)
    case Failure(e) => Failure(e)
    case Success(results) => Success(Flatten(results))
  }

  lemma {:induction false} FlattenAppend<T>(a: seq<seq<T>>, b: seq<seq<T>>)
    ensures Flatten(a + b) == Flatten(a) + Flatten(b)
  {
    if |a| == 0 {
      assert a + b == b;
    } else {
      var ab := a + b;
      assert ab[0] == a[0];
      assert ab[1..] == a[1..] + b;
      FlattenAppend(a[1..], b);
      calc {
        Flatten(ab);
        ab[0] + Flatten(ab[1..]);
        a[0] + (Flatten(a[1..]) + Flatten(b));
        (a[0] + Flatten(a[1..])) + Flatten(b);
      }
    }
  }

  /** The k-th list sits in the flattening right after the lists before it. */
  lemma FlattenPlacesEachList<T>(lists: seq<seq<T>>, k: nat)
    requires k < |lists|
    ensures var start := TotalLength(lists[..k]);
      && start + |lists[k]| <= |Flatten(lists)|
      && Flatten(lists)[start .. start + |lists[k]|] == lists[k]
  {
    assert lists == lists[..k] + [lists[k]] + lists[k + 1..];
    FlattenAppend(lists[..k] + [lists[k]], lists[k + 1..]);
    FlattenAppend(lists[..k], [lists[k]]);
    assert Flatten([lists[k]]) == lists[k] + Flatten([]);
  }

  /**
   * The aggregate holds every provider's list, provider after provider: its
   * length is the sum of their lengths and provider k's list follows the lists
   * of providers 0 .. k-1.
   */
  lemma FeaturedAddonsInProviderOrder<T>(providers: seq<ClientType -> Result<seq<T>>>, clientType: ClientType, k: nat)
    requires FeaturedAddons(providers, clientType).Success?
    requires k < |providers|
    ensures var all := FeaturedAddons(providers, clientType).value;
            var results := CollectFeatured(providers, clientType).value;
            var start := TotalLength(results[..k]);
      && |all| == TotalLength(results)
      && start + |providers[k](clientType).value| <= |all|
      && all[start .. start + |providers[k](clientType).value|] == providers[k](clientType).value
  {
    var results := CollectFeatured(providers, clientType).value;
    FlattenPlacesEachList(results, k);
  }
}
