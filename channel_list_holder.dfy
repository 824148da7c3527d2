/**
 * `ChannelListHolder`: the process-wide slot through which the channel screen
 * hands the list it shows, and its category, to the player screen.
 */
module ChannelListHolders {
  import opened Domain

  class ChannelListHolder {
    var channelList: seq<Channel>
    var categoryName: string

    /** The singleton starts with no channels and an empty category. */
    constructor ()
      ensures channelList == [] && categoryName == ""
    {
      channelList := [];
      categoryName := "";
    }

    /** Both fields are overwritten; nothing of the previous list is kept. */
    method SetChannels(channels: seq<Channel>, category: string)
      modifies this
      ensures channelList == channels && categoryName == category
    {
      channelList := channels;
      categoryName := category;
    }

    /** Reading the list changes nothing (the method may modify nothing). */
    method GetChannels() returns (r: seq<Channel>)
      ensures r == channelList
    {
      r := channelList;
    }

    method GetCategory() returns (r: string)
      ensures r == categoryName
    {
      r := categoryName;
    }

    /** Back to the initial state. */
    method Clear()
      modifies this
      ensures channelList == [] && categoryName == ""
    {
      channelList := [];
      categoryName := "";
    }
  }

  /** A set followed by the two reads gives back exactly what was set, whatever was held before. */
  method SetThenGet(h: ChannelListHolder, channels: seq<Channel>, category: string)
    returns (got: seq<Channel>, gotCategory: string)
    modifies h
    ensures got == channels && gotCategory == category
  {
    h.SetChannels(channels, category);
    got := h.GetChannels();
    gotCategory := h.GetCategory();
  }
}
