/** The part of the chat platform the bot sees: guild members, voice
    channels, the guild's channel list, and the calls the bot makes on an
    interaction, recorded as an event trace. */
module Platform {
  import opened Options
  import opened Text

  /** A guild member; `isBot` is the platform's automated-account flag. */
  datatype Member = Member(id: nat, name: string, isBot: bool)

  /** A voice channel with its current occupants, in the platform's order. */
  datatype VoiceChannel = VoiceChannel(id: nat, name: string, members: seq<Member>)

  /** A guild channel: a voice channel, or any other kind (text, category,
      stage, ...), which `isinstance(c, VoiceChannel)` rejects. */
  datatype GuildChannel = Voice(vc: VoiceChannel) | NonVoice(id: nat, name: string)

  /** A guild's channels in catalog (position) order. */
  datatype Guild = Guild(channels: seq<GuildChannel>)

  /** The user's voice state: present when connected, with its channel. */
  datatype VoiceState = VoiceState(channel: Option<VoiceChannel>)

  function ChannelId(c: GuildChannel): nat {
    match c
    case Voice(vc) => vc.id
    case NonVoice(id, _) => id
  }

  /** Channel ids are unique within a guild, as the platform guarantees. */
  ghost predicate UniqueIds(g: Guild) {
    forall i, j :: 0 <= i < j < |g.channels| ==> ChannelId(g.channels[i]) != ChannelId(g.channels[j])
  }

  /** `guild.get_channel(id)`: the channel with that id, or `None`. */
  function GetChannelIn(chs: seq<GuildChannel>, id: nat): (r: Option<GuildChannel>)
    ensures r.Some? ==> r.value in chs && ChannelId(r.value) == id
    ensures r.None? ==> forall c :: c in chs ==> ChannelId(c) != id
  {
    if chs == [] then None
    else if ChannelId(chs[0]) == id then Some(chs[0])
    else GetChannelIn(chs[1..], id)
  }

  function GetChannel(g: Guild, id: nat): Option<GuildChannel> {
    GetChannelIn(g.channels, id)
  }

  /** `guild.voice_channels`: the voice channels, in catalog order. */
  function VoiceChannelsIn(chs: seq<GuildChannel>): (r: seq<VoiceChannel>)
    ensures forall vc :: vc in r <==> Voice(vc) in chs
    ensures |r| <= |chs|
  {
    if chs == [] then []
    else if chs[0].Voice? then [chs[0].vc] + VoiceChannelsIn(chs[1..])
    else VoiceChannelsIn(chs[1..])
  }

  function VoiceChannels(g: Guild): seq<VoiceChannel> {
    VoiceChannelsIn(g.channels)
  }

  /** The list keeps catalog order: listing a catalog in two parts lists
      the first part's voice channels, then the second part's. */
  lemma {:induction false} VoiceChannelsInAppend(a: seq<GuildChannel>, b: seq<GuildChannel>)
    ensures VoiceChannelsIn(a + b) == VoiceChannelsIn(a) + VoiceChannelsIn(b)
  {
    if a == [] {
      assert a + b == b;
    } else {
      assert (a + b)[0] == a[0] && (a + b)[1..] == a[1..] + b;
      VoiceChannelsInAppend(a[1..], b);
    }
  }

  /** A single catalog entry is listed exactly when it is a voice channel.
      With `VoiceChannelsInAppend` this fixes the list entry by entry: the
      voice channels of the catalog, each once, in catalog order. */
  lemma VoiceChannelsInSingle(c: GuildChannel)
    ensures VoiceChannelsIn([c]) == if c.Voice? then [c.vc] else []
  {
    assert [c][1..] == [];
  }

  /** In a guild with unique ids, looking up a listed voice channel's id
      finds that same voice channel. */
  lemma LookupListedVoiceChannel(g: Guild, vc: VoiceChannel)
    requires UniqueIds(g)
    requires vc in VoiceChannels(g)
    ensures GetChannel(g, vc.id) == Some(Voice(vc))
  {
    var r := GetChannel(g, vc.id);
    assert Voice(vc) in g.channels;
    var b :| 0 <= b < |g.channels| && g.channels[b] == Voice(vc);
    assert forall k :: 0 <= k < |g.channels| && k != b ==> ChannelId(g.channels[k]) != vc.id;
    var a :| 0 <= a < |g.channels| && g.channels[a] == r.value;
    assert a == b;
  }

  /** A channel the bot holds, as the platform shows it now: its members
      are those the guild's current voice states place in it, so a channel
      that no longer exists has none. */
  function CurrentVoiceChannel(g: Guild, c: VoiceChannel): (r: VoiceChannel)
    ensures r.id == c.id
    ensures GetChannel(g, c.id).Some? && GetChannel(g, c.id).value.Voice? ==>
      Some(Voice(r)) == GetChannel(g, c.id)
    ensures !(GetChannel(g, c.id).Some? && GetChannel(g, c.id).value.Voice?) ==>
      r == c.(members := [])
  {
    match GetChannel(g, c.id)
    case Some(Voice(now)) => now
    case _ => c.(members := [])
  }

  /** `discord.SelectOption(label=labelText, value, description)`. */
  datatype SelectOption = SelectOption(labelText: string, value: string, description: string)

  /** `ChannelSelect`: the select menu and the source channel it holds. */
  datatype ChannelSelect = ChannelSelect(
    placeholder: string,
    minValues: nat,
    maxValues: nat,
    options: seq<SelectOption>,
    source: VoiceChannel)

  /** `ChannelSelectView`: a view expiring after `timeout` seconds, with one
      select menu in it. */
  datatype ChannelSelectView = ChannelSelectView(timeout: nat, select: ChannelSelect)

  /** The calls the bot makes, in the order it makes them. */
  datatype Event =
    | Defer                                   // response.defer(ephemeral=True, thinking=True)
    | Followup(text: string)                  // followup.send(text, ephemeral=True)
    | FollowupView(text: string, view: ChannelSelectView)
    | FollowupError                           // the outer handler's error reply
    | MoveAttempt(member: Member, targetId: nat, reason: string, accepted: bool)
    | Delay                                   // asyncio.sleep(0.05)
    | EditOriginal(text: string)              // edit_original_response(content=text, view=None)

  /** The members whose moves a trace attempts, in order. */
  function AttemptedMembers(t: seq<Event>): seq<Member> {
    if t == [] then []
    else AttemptedMembers(t[..|t| - 1]) + (if t[|t| - 1].MoveAttempt? then [t[|t| - 1].member] else [])
  }

  /** The number of pacing delays in a trace. */
  function Delays(t: seq<Event>): nat {
    if t == [] then 0
    else Delays(t[..|t| - 1]) + (if t[|t| - 1].Delay? then 1 else 0)
  }

  lemma {:induction false} AttemptedMembersAppend(a: seq<Event>, b: seq<Event>)
    ensures AttemptedMembers(a + b) == AttemptedMembers(a) + AttemptedMembers(b)
    decreases |b|
  {
    if b == [] {
      assert a + b == a;
    } else {
      assert (a + b)[..|a + b| - 1] == a + b[..|b| - 1];
      AttemptedMembersAppend(a, b[..|b| - 1]);
    }
  }

  lemma {:induction false} DelaysAppend(a: seq<Event>, b: seq<Event>)
    ensures Delays(a + b) == Delays(a) + Delays(b)
    decreases |b|
  {
    if b == [] {
      assert a + b == a;
    } else {
      assert (a + b)[..|a + b| - 1] == a + b[..|b| - 1];
      DelaysAppend(a, b[..|b| - 1]);
    }
  }

  /** A deferral and one reply attempt no move. */
  lemma SingleReplyAttemptsNothing(reply: Event)
    requires !reply.MoveAttempt?
    ensures AttemptedMembers([Defer, reply]) == []
  {
    assert [Defer, reply][..1] == [Defer] && [Defer][..0] == [];
  }
}
