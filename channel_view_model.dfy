/**
 * `ChannelViewModel`: the channel screen's state holder. A load is started
 * by `LoadChannels`, which runs the guards and the part of the launched
 * coroutine before its first suspension, and finished by `FinishFetch` or
 * `FinishHistory`, which run the rest of that coroutine once the repository
 * answers.
 */
module ChannelViewModels {
  import opened Domain
  import opened ChannelDaos
  import opened ChannelRepository
  import opened RecentlyWatchedDaos
  import opened RecentlyWatchedRepository

  /** The category name that selects the watch history instead of a playlist. */
  const RECENTLY_WATCHED := "Recently Watched"
  /** How many history entries the history screen asks for. */
  const HISTORY_LIMIT := 100
  const NO_HISTORY_MESSAGE := "No recently watched channels"
  const HISTORY_FAILED_MESSAGE := "Failed to load recently watched channels"

  /** The coroutine a call started, if any. */
  datatype Job = Skipped | FetchJob(url: string, forceRefresh: bool) | HistoryJob

  /** The guards of `loadChannels`, over the state before the call. */
  function LoadDecision(url: string, forceRefresh: bool, category: string,
                        currentUrl: Option<string>, isLoading: bool, state: Resource): (j: Job)
    ensures category == RECENTLY_WATCHED <==> j == HistoryJob
    ensures category != RECENTLY_WATCHED && !forceRefresh && currentUrl == Some(url) && !isLoading && state.Success?
      ==> j == Skipped
    ensures category != RECENTLY_WATCHED && isLoading ==> j == Skipped
    ensures j.FetchJob? <==>
      category != RECENTLY_WATCHED && !isLoading && (forceRefresh || currentUrl != Some(url) || !state.Success?)
    ensures j.FetchJob? ==> j == FetchJob(url, forceRefresh)
  {
    if category == RECENTLY_WATCHED then HistoryJob
    else if !forceRefresh && currentUrl == Some(url) && !isLoading && state.Success? then Skipped
    else if isLoading then Skipped
    else FetchJob(url, forceRefresh)
  }

  /** A history entry shown as a channel. */
  function EntryToChannel(e: RecentlyWatchedEntity): Channel {
    Channel(e.channelName, e.channelLogo, e.streamUrl, e.category)
  }

  /** The history entries as channels, one for one, in the same order. */
  function HistoryChannels(es: seq<RecentlyWatchedEntity>): (cs: seq<Channel>)
    ensures |cs| == |es|
    ensures forall i :: 0 <= i < |es| ==>
      cs[i].name == es[i].channelName && cs[i].logo == es[i].channelLogo &&
      cs[i].streamUrl == es[i].streamUrl && cs[i].category == es[i].category
  {
    seq(|es|, i requires 0 <= i < |es| => EntryToChannel(es[i]))
  }

  /**
   * The state the history load ends in, given what the read produced:
   * `None` when the read threw.
   */
  function HistoryState(read: Option<seq<RecentlyWatchedEntity>>): (r: Resource)
    ensures read.None? ==> r == Error(HISTORY_FAILED_MESSAGE)
    ensures read.Some? && read.value == [] ==> r == Error(NO_HISTORY_MESSAGE)
    ensures read.Some? && read.value != [] ==> r == Success(HistoryChannels(read.value))
  {
    match read
    case None => Error(HISTORY_FAILED_MESSAGE)
    case Some(es) =>
      var channels := HistoryChannels(es);
      if channels == [] then Error(NO_HISTORY_MESSAGE) else Success(channels)
  }

  class ChannelViewModel {
    var uiState: Resource
    var currentUrl: Option<string>
    var isLoading: bool
    var currentCategory: Option<string>
    const repository: ChannelRepositoryImpl
    const history: RecentlyWatchedRepositoryImpl

    constructor (repository: ChannelRepositoryImpl, history: RecentlyWatchedRepositoryImpl)
      ensures uiState == Loading && currentUrl == None && !isLoading && currentCategory == None
      ensures this.repository == repository && this.history == history
    {
      uiState := Loading;
      currentUrl := None;
      isLoading := false;
      currentCategory := None;
      this.repository := repository;
      this.history := history;
    }

    /**
     * `loadChannels`: records the category, then either starts the history
     * load, skips, or starts a playlist load that marks the view model busy.
     */
    method LoadChannels(url: string, forceRefresh: bool, category: string) returns (job: Job)
      modifies this
      ensures job == LoadDecision(url, forceRefresh, category, old(currentUrl), old(isLoading), old(uiState))
      ensures currentCategory == Some(category)
      ensures job.Skipped? ==> uiState == old(uiState) && currentUrl == old(currentUrl) && isLoading == old(isLoading)
      ensures job.FetchJob? ==> uiState == Loading && currentUrl == Some(url) && isLoading
      ensures job.HistoryJob? ==> uiState == Loading && currentUrl == old(currentUrl) && isLoading == old(isLoading)
    {
      currentCategory := Some(category);
      if category == RECENTLY_WATCHED {
        job := StartHistoryLoad();
        return;
      }
      if !forceRefresh && currentUrl == Some(url) && !isLoading && uiState.Success? {
        return Skipped;
      }
      if isLoading {
        return Skipped;
      }
      isLoading := true;
      uiState := Loading;
      currentUrl := Some(url);
      job := FetchJob(url, forceRefresh);
    }

    /** `loadRecentlyWatchedChannels` up to the history read: the screen shows loading. */
    method StartHistoryLoad() returns (job: Job)
      modifies this
      ensures job == HistoryJob && uiState == Loading
      ensures currentUrl == old(currentUrl) && isLoading == old(isLoading) && currentCategory == old(currentCategory)
    {
      uiState := Loading;
      job := HistoryJob;
    }

    /**
     * The rest of a started playlist load (the `FetchJob` returned by
     * `LoadChannels`): the repository's answer is shown and the busy flag
     * cleared.
     */
    method FinishFetch(url: string, forceRefresh: bool, fetch: FetchOutcome, sweepFails: bool, now: int)
      requires repository.dao.Valid()
      modifies this, repository.dao
      ensures repository.dao.Valid()
      ensures currentUrl == old(currentUrl) && currentCategory == old(currentCategory)
      ensures var o := GetChannelsOutcome(old(repository.dao.Snapshot()), url, forceRefresh, fetch, sweepFails, now);
        uiState == o.result && repository.dao.Snapshot() == o.table && !isLoading
    {
      var result := repository.GetChannels(url, forceRefresh, fetch, sweepFails, now);
      uiState := result;
      isLoading := false;
    }

    /**
     * The rest of a started history load (the `HistoryJob`): the 100 newest
     * entries are read (or the read fails, when `historyFails`) and shown.
     */
    method FinishHistory(historyFails: bool)
      modifies this
      ensures uiState == HistoryState(if historyFails then None else Some(NewestFirst(history.dao.rows, HISTORY_LIMIT)))
      ensures currentUrl == old(currentUrl) && currentCategory == old(currentCategory) && isLoading == old(isLoading)
    {
      if historyFails {
        uiState := HistoryState(None);
      } else {
        var recentlyWatched := history.GetAllRecentlyWatched(HISTORY_LIMIT);
        uiState := HistoryState(Some(recentlyWatched));
      }
    }

    /** `refreshChannels`: the history again, or a forced reload of the current playlist. */
    method RefreshChannels() returns (job: Job)
      modifies this
      ensures old(currentCategory) == Some(RECENTLY_WATCHED) ==>
        job == HistoryJob && uiState == Loading && currentUrl == old(currentUrl) &&
        isLoading == old(isLoading) && currentCategory == old(currentCategory)
      ensures old(currentCategory) != Some(RECENTLY_WATCHED) && old(currentUrl).None? ==>
        job == Skipped && uiState == old(uiState) && currentUrl == old(currentUrl) &&
        isLoading == old(isLoading) && currentCategory == old(currentCategory)
      ensures old(currentCategory) != Some(RECENTLY_WATCHED) && old(currentUrl).Some? ==>
        && job == LoadDecision(old(currentUrl).value, true, old(currentCategory).GetOr(""),
                               old(currentUrl), old(isLoading), old(uiState))
        && currentCategory == Some(old(currentCategory).GetOr(""))
        && (job.FetchJob? ==> uiState == Loading && currentUrl == old(currentUrl) && isLoading)
        && (job.Skipped? ==> uiState == old(uiState) && currentUrl == old(currentUrl) && isLoading == old(isLoading))
    {
      if currentCategory == Some(RECENTLY_WATCHED) {
        job := StartHistoryLoad();
      } else if currentUrl.Some? {
        job := LoadChannels(currentUrl.value, true, currentCategory.GetOr(""));
      } else {
        job := Skipped;
      }
    }

    /** `clearCache`: forgets the current playlist and category and shows loading. */
    method ClearCache()
      modifies this
      ensures currentUrl == None && currentCategory == None && uiState == Loading
      ensures isLoading == old(isLoading)
    {
      currentUrl := None;
      currentCategory := None;
      uiState := Loading;
    }
  }

  // ------------------------------------------------------ properties

  /** A forced refresh of the current playlist is never skipped as a duplicate, only while busy. */
  lemma RefreshReloads(url: string, category: string, isLoading: bool, state: Resource)
    requires category != RECENTLY_WATCHED
    ensures LoadDecision(url, true, category, Some(url), isLoading, state) ==
      if isLoading then Skipped else FetchJob(url, true)
  {
  }

  /**
   * The history load shows an error exactly when the history table is empty;
   * otherwise at most 100 channels, one per stored entry, newest first.
   */
  lemma HistoryLoadShowsNewest(rows: seq<RecentlyWatchedEntity>)
    ensures var r := HistoryState(Some(NewestFirst(rows, HISTORY_LIMIT)));
      && (r.Error? <==> rows == [])
      && (r.Error? ==> r.message == NO_HISTORY_MESSAGE)
      && (r.Success? ==> |r.data| <= HISTORY_LIMIT)
      && (r.Success? ==> forall c :: c in r.data ==> exists e :: e in rows && c == EntryToChannel(e))
  {
    var es := NewestFirst(rows, HISTORY_LIMIT);
    var r := HistoryState(Some(es));
    if r.Success? {
      forall c | c in r.data ensures exists e :: e in rows && c == EntryToChannel(e) {
        var i :| 0 <= i < |r.data| && r.data[i] == c;
        assert es[i] in es;
      }
    }
  }
}
