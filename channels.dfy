/**
 * Channel types, permission overwrites and the channel record
 * (core/channel.hpp).
 */
module Channels {
  import opened Wrappers
  import opened Users

  /** The C++ `int` of the channel's numeric fields. */
  newtype Int32 = x: int | -0x8000_0000 <= x < 0x8000_0000

  datatype ChannelType =
    | GuildText
    | DM
    | GuildVoice
    | GroupDM
    | GuildCategory
    | GuildNews
    | GuildStore
  {
    /** The enumerator's integer value: one of 0..6. */
    function ToInt(): (n: int)
      ensures 0 <= n <= 6
    {
      match this
      case GuildText => 0
      case DM => 1
      case GuildVoice => 2
      case GroupDM => 3
      case GuildCategory => 4
      case GuildNews => 5
      case GuildStore => 6
    }
  }

  /** The channel type with integer value `n`, if there is one. */
  function ChannelTypeFromInt(n: int): (r: Option<ChannelType>)
    ensures r.Some? ==> r.value.ToInt() == n
  {
    if n == 0 then Some(GuildText)
    else if n == 1 then Some(DM)
    else if n == 2 then Some(GuildVoice)
    else if n == 3 then Some(GroupDM)
    else if n == 4 then Some(GuildCategory)
    else if n == 5 then Some(GuildNews)
    else if n == 6 then Some(GuildStore)
    else None
  }

  lemma ChannelTypeRoundTrip(t: ChannelType)
    ensures ChannelTypeFromInt(t.ToInt()) == Some(t)
  {}

  /** Distinct channel types have distinct values. */
  lemma ChannelTypeToIntInjective(t1: ChannelType, t2: ChannelType)
    requires t1.ToInt() == t2.ToInt()
    ensures t1 == t2
  {}

  /** The channel types are exactly the values 0..6. */
  lemma ChannelTypeValues(n: int)
    ensures ChannelTypeFromInt(n).Some? <==> 0 <= n <= 6
  {}

  /** A permission overwrite; its bit sets carry no operations. */
  datatype ChannelPermissionOverwrite = ChannelPermissionOverwrite(
    id: string,
    overwriteType: string,
    allow: Int32,
    deny: Int32
  )

  /** The channel object. */
  datatype Channel = Channel(
    id: string,
    channelType: ChannelType,
    guildId: string,
    position: Int32,
    overwrites: seq<ChannelPermissionOverwrite>,
    name: string,
    topic: string,
    nsfw: bool,
    lastMessageId: string,
    bitrate: Int32,
    userLimit: Int32,
    rateLimit: Int32,
    recipients: seq<User>,
    icon: string,
    ownerId: string,
    appId: string,
    parentId: string,
    lastPinTimestamp: string
  ) {
    /** `operator bool`: the channel has an id. */
    predicate ToBool() {
      id != ""
    }
  }

  lemma ChannelTruthyIff(c: Channel)
    ensures c.ToBool() <==> |c.id| > 0
  {}

  /** Truthiness depends on the id alone. */
  lemma ChannelTruthDependsOnIdOnly(c: Channel, d: Channel)
    requires c.id == d.id
    ensures c.ToBool() == d.ToBool()
  {}

  /**
   * A channel as its declaration initialises it. `type` has no
   * initialiser, so its value is a parameter.
   */
  function DefaultChannel(channelType: ChannelType): (c: Channel)
    ensures c.position == c.bitrate == c.userLimit == c.rateLimit == -1
    ensures !c.nsfw
    ensures !c.ToBool()
    ensures c.channelType == channelType
    ensures c.overwrites == [] && c.recipients == []
    ensures c.guildId == c.name == c.topic == c.lastMessageId == c.icon == ""
    ensures c.ownerId == c.appId == c.parentId == c.lastPinTimestamp == ""
  {
    Channel("", channelType, "", -1, [], "", "", false, "", -1, -1, -1, [], "", "", "", "", "")
  }
}
