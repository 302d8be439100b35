/** The `/goto` command: a chain of guards, each answering with its own
    rejection and stopping, before the destination picker is sent. */
module Command {
  import opened Options
  import opened Text
  import opened Platform
  import Picker

  const NotInGuildText: string := "❌ Folosește comanda într-un server."
  const NotInVoiceText: string := "❌ Nu ești conectat la niciun canal de voce."
  const NoVoiceChannelsText: string := "❌ Nu am găsit canale de voce în acest server."

  function NobodyToMoveText(sourceName: string): string {
    "ℹ️ Nimeni de mutat în **" + sourceName + "**."
  }

  function PickerText(sourceName: string): string {
    "🎯 Sursa detectată: **" + sourceName + "**\nAlege canalul destinație din lista de mai jos:"
  }

  /** The members the eligibility guard counts: those that are not bots,
      in their order. */
  function Humans(members: seq<Member>): (r: seq<Member>)
    ensures forall m :: m in r <==> m in members && !m.isBot
    ensures |r| <= |members|
  {
    if members == [] then []
    else (if members[0].isBot then [] else [members[0]]) + Humans(members[1..])
  }

  datatype GotoOutcome =
    | NotInGuild
    | NotInVoice
    | NobodyToMove
    | NoVoiceChannels
    | PickerShown(view: ChannelSelectView)

  datatype GotoRun = GotoRun(outcome: GotoOutcome, events: seq<Event>)

  /** `goto(interaction)`, given the interaction's guild and the invoking
      user's voice state. */
  function Goto(guild: Option<Guild>, voice: Option<VoiceState>): (r: GotoRun)
    ensures |r.events| == 2 && r.events[0] == Defer
  {
    if guild.None? then
      GotoRun(NotInGuild, [Defer, Followup(NotInGuildText)])
    else if voice.None? || voice.value.channel.None? then
      GotoRun(NotInVoice, [Defer, Followup(NotInVoiceText)])
    else
      var source := voice.value.channel.value;
      if Humans(source.members) == [] then
        GotoRun(NobodyToMove, [Defer, Followup(NobodyToMoveText(source.name))])
      else
        var channels := VoiceChannels(guild.value);
        if channels == [] then
          GotoRun(NoVoiceChannels, [Defer, Followup(NoVoiceChannelsText)])
        else
          var view := Picker.NewChannelSelectView(channels, source);
          GotoRun(PickerShown(view), [Defer, FollowupView(PickerText(source.name), view)])
  }

  /** The picker is sent if and only if all four guards pass: the command
      runs in a guild, the user is in a voice channel, that channel holds
      a member who is not a bot, and the guild has a voice channel. It then
      offers the guild's voice channels, the source among them if listed,
      and holds the user's channel as the source. */
  lemma GotoShowsPickerIffGuardsPass(guild: Option<Guild>, voice: Option<VoiceState>)
    ensures var r := Goto(guild, voice);
      r.outcome.PickerShown? <==>
        guild.Some? && voice.Some? && voice.value.channel.Some? &&
        (exists m :: m in voice.value.channel.value.members && !m.isBot) &&
        VoiceChannels(guild.value) != []
    ensures var r := Goto(guild, voice);
      r.outcome.PickerShown? ==>
        var source := voice.value.channel.value;
        r.outcome.view.timeout == Picker.ViewTimeout &&
        r.outcome.view.select == Picker.NewChannelSelect(VoiceChannels(guild.value), source) &&
        r.events == [Defer, FollowupView(PickerText(source.name), r.outcome.view)]
  {
    if guild.Some? && voice.Some? && voice.value.channel.Some? {
      var members := voice.value.channel.value.members;
      if Humans(members) != [] {
        assert Humans(members)[0] in Humans(members);
      }
      if exists m :: m in members && !m.isBot {
        var m :| m in members && !m.isBot;
        assert m in Humans(members);
      }
    }
  }

  /** Every guard that fails sends its own rejection and nothing else: the
      first failing guard decides the reply, and no picker is created. */
  lemma GotoFirstFailingGuardReplies(guild: Option<Guild>, voice: Option<VoiceState>)
    ensures var r := Goto(guild, voice);
      guild.None? ==> r.events == [Defer, Followup(NotInGuildText)]
    ensures var r := Goto(guild, voice);
      guild.Some? && (voice.None? || voice.value.channel.None?) ==>
        r.events == [Defer, Followup(NotInVoiceText)]
    ensures var r := Goto(guild, voice);
      guild.Some? && voice.Some? && voice.value.channel.Some? &&
      (forall m :: m in voice.value.channel.value.members ==> m.isBot) ==>
        r.events == [Defer, Followup(NobodyToMoveText(voice.value.channel.value.name))]
    ensures var r := Goto(guild, voice);
      guild.Some? && voice.Some? && voice.value.channel.Some? &&
      (exists m :: m in voice.value.channel.value.members && !m.isBot) &&
      VoiceChannels(guild.value) == [] ==>
        r.events == [Defer, Followup(NoVoiceChannelsText)]
  {
    if guild.Some? && voice.Some? && voice.value.channel.Some? {
      var members := voice.value.channel.value.members;
      if Humans(members) != [] {
        assert Humans(members)[0] in Humans(members);
      }
      if exists m :: m in members && !m.isBot {
        var m :| m in members && !m.isBot;
        assert m in Humans(members);
      }
    }
  }

  /** A guild whose only voice channel is the source still gets the
      picker, with that one channel as its one option; choosing it is
      answered as the same channel and moves nobody. */
  lemma OnlySourceChannelStillShowsPicker(g: Guild, source: VoiceChannel, user: string, moveSucceeds: nat -> bool)
    requires UniqueIds(g)
    requires VoiceChannels(g) == [source]
    requires exists m :: m in source.members && !m.isBot
    ensures var r := Goto(Some(g), Some(VoiceState(Some(source))));
      r.outcome.PickerShown? &&
      |r.outcome.view.select.options| == 1 &&
      Picker.CallbackSpec(r.outcome.view.select, [r.outcome.view.select.options[0].value], Some(g), user, moveSucceeds).outcome
        == Picker.SameChannel
  {
    GotoShowsPickerIffGuardsPass(Some(g), Some(VoiceState(Some(source))));
    Picker.PickingAnOfferedChannel(g, source, 0, user, moveSucceeds);
  }
}
