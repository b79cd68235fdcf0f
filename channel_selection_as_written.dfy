/**
 * `getLatestFile` as the code is written, next to the intended selection.
 *
 * The code composes `_.flow(_.filter(pred), _.first)` from the plain `lodash`
 * package, not its curried `lodash/fp` variant. Plain `_.filter` called with
 * only the predicate filters the predicate itself (a function, which has no
 * elements) and returns `[]`; `_.flow` flattens its arguments one level, so
 * `_.flow([], _.first)` is `_.first`. The channel is therefore never looked at
 * and the first file is returned whatever its channel.
 */
module ChannelSelectionAsWritten {
  import opened Wrappers
  import opened Entities
  import opened AddonResolution

  /** The selection the code performs: the first file, if any, ignoring the channel. */
  function LatestFileAsWritten(searchResult: AddonSearchResult, channelType: ChannelType): (r: Option<AddonSearchResultFile>)
    ensures r.Some? ==> r.value in searchResult.files
    ensures r.None? <==> searchResult.files == []
  {
    if |searchResult.files| == 0 then None else Some(searchResult.files[0])
  }

  /** As written, every request behaves like a request for the least stable channel. */
  lemma AsWrittenSelectsAsIfAlpha(searchResult: AddonSearchResult, channelType: ChannelType)
    ensures LatestFileAsWritten(searchResult, channelType) == LatestFile(searchResult, Alpha)
  {
    if |searchResult.files| > 0 {
      LatestFileIsFirstAtOrBelow(searchResult, Alpha, 0);
    }
  }

  /** The catalog entry of a beta-first listing: a Beta file, then a Stable one. */
  function BetaFirstSearchResult(): AddonSearchResult
  {
    AddonSearchResult(
      name := "Deadly Boss Mods", author := "", thumbnailUrl := "", externalId := "3358",
      externalUrl := "", providerName := "Curse",
      files := [AddonSearchResultFile(Beta, "2.1b", "", ""), AddonSearchResultFile(Stable, "2.0", "", "")])
  }

  /**
   * On that listing the code hands out the Beta file for a Stable request and
   * the record built from it claims the Stable channel; the intended selection
   * picks the Stable file.
   */
  lemma AsWrittenMislabelsBetaAsStable()
    ensures var searchResult := BetaFirstSearchResult();
            var asWritten := CreateAddon("id", "DBM", searchResult, LatestFileAsWritten(searchResult, Stable), "Retail");
      && asWritten.Some?
      && asWritten.value.latestVersion == "2.1b"
      && asWritten.value.channelType == Stable
      && LatestFileAsWritten(searchResult, Stable).value.channelType == Beta
      && LatestFile(searchResult, Stable) == Some(searchResult.files[1])
  {
    LatestFileIsFirstAtOrBelow(BetaFirstSearchResult(), Stable, 1);
  }

  /** One folder "DBM" naming project 3358: the rescan yields one Stable record for version 2.0. */
  lemma BetaFirstRescanPicksStable(newId: IdSource)
    ensures var folders := [AddonFolder("DBM", Toc(Some("3358")))];
            var getById := (id: string, clientType: ClientType) =>
              if id == "3358" then Success(BetaFirstSearchResult()) else Failure("not found");
            var out := LocalAddons(folders, "Retail", getById, newId, 0);
      && |out| == 1
      && out[0].folderName == "DBM"
      && out[0].latestVersion == "2.0"
      && out[0].channelType == Stable
  {
    var folders := [AddonFolder("DBM", Toc(Some("3358")))];
    var getById := (id: string, clientType: ClientType) =>
      if id == "3358" then Success(BetaFirstSearchResult()) else Failure("not found");
    LatestFileIsFirstAtOrBelow(BetaFirstSearchResult(), Stable, 1);
    assert folders[..0] == [];
    assert ResolveFolder(folders[0], "Retail", getById, newId(0)).Some?;
  }
}
