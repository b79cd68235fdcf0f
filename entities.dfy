/**
 * The records the add-on service reads and produces: discovered folders,
 * catalog search results and their files, and the resolved `Addon` record.
 */
module Entities {
  import opened Wrappers

  /** A game-client installation flavour (retail, classic, ...), kept as an opaque tag. */
  type ClientType = string

  /** Release channel of a catalog file, ordered from most to least stable. */
  datatype ChannelType = Stable | Beta | Alpha

  /** The numeric value of the channel enum; `<=` on channels compares these. */
  function Rank(c: ChannelType): nat
  {
    match c
    case Stable => 0
    case Beta => 1
    case Alpha => 2
  }

  /** The parsed descriptor of an add-on folder; the Curse project id may be missing. */
  datatype Toc = Toc(curseProjectId: Option<string>)

  /** A locally discovered add-on directory. */
  datatype AddonFolder = AddonFolder(name: string, toc: Toc)

  /** JavaScript truthiness of `toc.curseProjectId`: present and not the empty string. */
  predicate HasCurseProjectId(toc: Toc)
    ensures HasCurseProjectId(toc) ==> toc.curseProjectId.Some?
    ensures toc.curseProjectId == Some("") ==> !HasCurseProjectId(toc)
  {
    toc.curseProjectId.Some? && toc.curseProjectId.value != ""
  }

  /** One downloadable release of a catalog entry. */
  datatype AddonSearchResultFile = AddonSearchResultFile(
    channelType: ChannelType,
    version: string,
    downloadUrl: string,
    gameVersion: string)

  /** The full catalog record for one external id; `files` is in provider order. */
  datatype AddonSearchResult = AddonSearchResult(
    name: string,
    author: string,
    thumbnailUrl: string,
    externalId: string,
    externalUrl: string,
    providerName: string,
    files: seq<AddonSearchResultFile>)

  /** The resolved, persistable add-on record. */
  datatype Addon = Addon(
    id: string,
    name: string,
    thumbnailUrl: string,
    latestVersion: string,
    clientType: ClientType,
    externalId: string,
    folderName: string,
    gameVersion: string,
    author: string,
    downloadUrl: string,
    externalUrl: string,
    providerName: string,
    channelType: ChannelType,
    isIgnored: bool,
    autoUpdateEnabled: bool)
}
