/**
 * `PlayerViewModel`: which stream is playing, and stepping to the next or
 * previous channel of the list the channel screen handed over. The media
 * player itself is reduced to whether one exists.
 */
module PlayerViewModels {
  import opened Domain
  import opened ChannelListHolders

  /** `PlayerUiState`; `errorMessage` is nullable. */
  datatype PlayerUiState = PlayerUiState(
    isBuffering: bool,
    isPlaying: bool,
    errorMessage: Option<string>,
    channelName: string,
    channelLogoUrl: string,
    hasStartedPlaying: bool,
    category: string,
    categoryUrl: string,
    hasNextChannel: bool,
    hasPreviousChannel: bool)

  /** `PlayerUiState()` with every default argument. */
  const DEFAULT_PLAYER_UI := PlayerUiState(true, false, None, "", "", false, "", "", false, false)

  /** `hasNextChannel` */
  predicate HasNext(list: seq<Channel>, index: int) {
    |list| > 0 && index >= 0 && index < |list| - 1
  }

  /** `hasPreviousChannel`: unlike `HasNext`, it has no upper bound on the index. */
  predicate HasPrevious(list: seq<Channel>, index: int) {
    |list| > 0 && index > 0
  }

  /** The UI state `initializePlayer` shows for a new stream, on top of `base`. */
  function StartingUi(base: PlayerUiState, channelName: string, logoUrl: string, category: string,
                      categoryUrl: string, list: seq<Channel>, index: int): (u: PlayerUiState)
    ensures u.isBuffering && !u.hasStartedPlaying
    ensures u.channelName == channelName && u.channelLogoUrl == logoUrl
    ensures u.category == category && u.categoryUrl == categoryUrl
    ensures u.hasNextChannel == HasNext(list, index) && u.hasPreviousChannel == HasPrevious(list, index)
    ensures u.isPlaying == base.isPlaying && u.errorMessage == base.errorMessage
  {
    base.(channelName := channelName, channelLogoUrl := logoUrl, isBuffering := true,
          hasStartedPlaying := false, category := category, categoryUrl := categoryUrl,
          hasNextChannel := HasNext(list, index), hasPreviousChannel := HasPrevious(list, index))
  }

  class PlayerViewModel {
    var playerPresent: bool
    var uiState: PlayerUiState
    var currentStreamUrl: Option<string>
    var isPlayerInitialized: bool
    var currentChannelIndex: int
    var channelList: seq<Channel>
    const holder: ChannelListHolder

    /** A player exists exactly when the view model counts itself initialized, and then it has a stream. */
    ghost predicate Valid()
      reads this
    {
      playerPresent == isPlayerInitialized && (isPlayerInitialized ==> currentStreamUrl.Some?)
    }

    constructor (holder: ChannelListHolder)
      ensures Valid() && this.holder == holder
      ensures !playerPresent && uiState == DEFAULT_PLAYER_UI && currentStreamUrl == None
      ensures currentChannelIndex == -1 && channelList == []
    {
      playerPresent := false;
      uiState := DEFAULT_PLAYER_UI;
      currentStreamUrl := None;
      isPlayerInitialized := false;
      currentChannelIndex := -1;
      channelList := [];
      this.holder := holder;
    }

    /**
     * `initializePlayer`. Nothing happens when this stream is already set
     * up. Otherwise a player for another stream is released first, the list
     * is re-read from the holder when `channelIndex >= 0`, the UI state is
     * reset for the new stream, and a player is created if none exists.
     */
    method InitializePlayer(streamUrl: string, channelName: string, logoUrl: string,
                            category: string, categoryUrl: string, channelIndex: int)
      modifies this
      ensures old(isPlayerInitialized) && old(currentStreamUrl) == Some(streamUrl) ==> unchanged(this)
      ensures !(old(isPlayerInitialized) && old(currentStreamUrl) == Some(streamUrl)) ==>
        var released := old(currentStreamUrl) != Some(streamUrl) && old(playerPresent);
        && currentStreamUrl == Some(streamUrl) && playerPresent
        && isPlayerInitialized == (released || !old(playerPresent) || old(isPlayerInitialized))
        && channelList == (if channelIndex >= 0 then holder.channelList else old(channelList))
        && currentChannelIndex == (if channelIndex >= 0 then channelIndex else old(currentChannelIndex))
        && uiState == StartingUi(if released then DEFAULT_PLAYER_UI else old(uiState),
                                 channelName, logoUrl, category, categoryUrl, channelList, currentChannelIndex)
      ensures old(Valid()) ==> Valid()
    {
      if isPlayerInitialized && currentStreamUrl == Some(streamUrl) {
        return;
      }
      if currentStreamUrl != Some(streamUrl) && playerPresent {
        ReleasePlayer();
      }
      currentStreamUrl := Some(streamUrl);
      if channelIndex >= 0 {
        channelList := holder.GetChannels();
        currentChannelIndex := channelIndex;
      }
      uiState := StartingUi(uiState, channelName, logoUrl, category, categoryUrl, channelList, currentChannelIndex);
      if !playerPresent {
        playerPresent := true;
        isPlayerInitialized := true;
      }
    }

    /** `releasePlayer`: no player, no stream, default UI; the channel list and index stay. */
    method ReleasePlayer()
      modifies this
      ensures !playerPresent && !isPlayerInitialized && currentStreamUrl == None && uiState == DEFAULT_PLAYER_UI
      ensures channelList == old(channelList) && currentChannelIndex == old(currentChannelIndex)
      ensures Valid()
    {
      playerPresent := false;
      isPlayerInitialized := false;
      currentStreamUrl := None;
      uiState := DEFAULT_PLAYER_UI;
    }

    /**
     * `switchToNextChannel`: nothing when there is no next channel;
     * otherwise one step forward, and the player restarts on that channel.
     */
    method SwitchToNextChannel() returns (r: Option<Channel>)
      modifies this
      ensures !HasNext(old(channelList), old(currentChannelIndex)) ==> r == None && unchanged(this)
      ensures HasNext(old(channelList), old(currentChannelIndex)) ==>
        var i := old(currentChannelIndex) + 1;
        && r == Some(old(channelList)[i])
        && currentChannelIndex == i
        && Switched(old(channelList)[i], old(playerPresent), old(uiState))
      ensures r.Some? && old(holder.channelList) == old(channelList) ==>
        0 <= currentChannelIndex < |channelList|
      ensures old(Valid()) ==> Valid()
    {
      if !HasNext(channelList, currentChannelIndex) {
        return None;
      }
      currentChannelIndex := currentChannelIndex + 1;
      var nextChannel := channelList[currentChannelIndex];
      SwitchChannel(nextChannel);
      r := Some(nextChannel);
    }

    /**
     * `switchToPreviousChannel`: nothing when there is no previous channel;
     * otherwise one step back, and the player restarts on that channel.
     */
    method SwitchToPreviousChannel() returns (r: Option<Channel>)
      requires currentChannelIndex <= |channelList|
      modifies this
      ensures !HasPrevious(old(channelList), old(currentChannelIndex)) ==> r == None && unchanged(this)
      ensures HasPrevious(old(channelList), old(currentChannelIndex)) ==>
        var i := old(currentChannelIndex) - 1;
        && r == Some(old(channelList)[i])
        && currentChannelIndex == i
        && Switched(old(channelList)[i], old(playerPresent), old(uiState))
      ensures r.Some? && old(holder.channelList) == old(channelList) ==>
        0 <= currentChannelIndex < |channelList|
      ensures old(Valid()) ==> Valid()
    {
      if !HasPrevious(channelList, currentChannelIndex) {
        return None;
      }
      currentChannelIndex := currentChannelIndex - 1;
      var prevChannel := channelList[currentChannelIndex];
      SwitchChannel(prevChannel);
      r := Some(prevChannel);
    }

    /**
     * The state after `switchChannel(channel)`, given whether a player
     * existed and the UI state before it: the list is re-read from the
     * holder, a fresh player plays the channel's stream, and the category
     * URL carries over.
     */
    ghost predicate Switched(channel: Channel, hadPlayer: bool, ui: PlayerUiState)
      reads this, holder
    {
      && channelList == holder.channelList
      && currentStreamUrl == Some(channel.streamUrl) && playerPresent && isPlayerInitialized
      && uiState == StartingUi(if hadPlayer then DEFAULT_PLAYER_UI else ui, channel.name, channel.logo,
                               channel.category, ui.categoryUrl, channelList, currentChannelIndex)
    }

    /**
     * `switchChannel`: forgets the current stream so that the
     * initialization guard cannot skip, then initializes for `channel`
     * at the current index.
     */
    method SwitchChannel(channel: Channel)
      requires currentChannelIndex >= 0
      modifies this
      ensures currentChannelIndex == old(currentChannelIndex)
      ensures Switched(channel, old(playerPresent), old(uiState))
    {
      isPlayerInitialized := false;
      currentStreamUrl := None;
      InitializePlayer(channel.streamUrl, channel.name, channel.logo, channel.category,
                       uiState.categoryUrl, currentChannelIndex);
    }
  }

  // ------------------------------------------------------ properties

  /** A step the guards allow lands inside the list. */
  lemma StepStaysInList(list: seq<Channel>, index: int)
    ensures HasNext(list, index) ==> 0 <= index + 1 < |list|
    ensures HasPrevious(list, index) && index <= |list| ==> 0 <= index - 1 < |list|
  {
  }

  /** After a step forward a step back is possible, and the reverse. */
  lemma StepsAreReversible(list: seq<Channel>, index: int)
    ensures HasNext(list, index) ==> HasPrevious(list, index + 1)
    ensures HasPrevious(list, index) && index < |list| ==> HasNext(list, index - 1)
  {
  }

  /** The first channel has no previous one and the last has no next one. */
  lemma EndsOfTheList(list: seq<Channel>)
    ensures !HasPrevious(list, 0)
    ensures !HasNext(list, |list| - 1)
  {
  }
}
