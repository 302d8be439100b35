/** A worked run of the whole flow: an operator in "Lounge" (three people
    and one bot) sends everyone to "Arena"; the platform accepts every
    other move. */
module Scenarios {
  import opened Options
  import opened Text
  import opened Platform
  import Picker
  import Command
  import Mover
  import Report

  const Ana: Member := Member(11, "Ana", false)
  const Bogdan: Member := Member(12, "Bogdan", false)
  const Carmen: Member := Member(13, "Carmen", false)
  const MusicBot: Member := Member(14, "Muzica", true)
  const Lounge: VoiceChannel := VoiceChannel(1, "Lounge", [Ana, Bogdan, Carmen, MusicBot])
  const Arena: VoiceChannel := VoiceChannel(2, "Arena", [])
  const Server: Guild := Guild([Voice(Lounge), NonVoice(3, "general"), Voice(Arena)])

  /** The platform accepts the first and third attempts only. */
  function EveryOther(i: nat): bool {
    i % 2 == 0
  }

  /** The guild lists its voice channels in catalog order, skipping the
      text channel. */
  lemma ServerVoiceChannels()
    ensures VoiceChannels(Server) == [Lounge, Arena]
    ensures UniqueIds(Server)
  {
    var chs := Server.channels;
    assert chs[1..][1..] == [Voice(Arena)] && chs[1..][1..][1..] == [];
    assert VoiceChannelsIn(chs[1..]) == [Arena];
  }

  /** `/goto` from Lounge offers both voice channels, Lounge included. */
  lemma LoungeGetsPicker()
    ensures var run := Command.Goto(Some(Server), Some(VoiceState(Some(Lounge))));
      run.outcome.PickerShown? &&
      run.outcome.view.select == Picker.NewChannelSelect([Lounge, Arena], Lounge) &&
      |run.outcome.view.select.options| == 2
  {
    ServerVoiceChannels();
    assert Ana in Lounge.members && !Ana.isBot;
    Command.GotoShowsPickerIffGuardsPass(Some(Server), Some(VoiceState(Some(Lounge))));
  }

  /** Picking Arena attempts all four members, the bot too, moves two,
      fails two, and the final message names both channels and carries
      both counts. */
  lemma LoungeToArena()
    ensures var select := Picker.NewChannelSelect([Lounge, Arena], Lounge);
      var r := Picker.CallbackSpec(select, [select.options[1].value], Some(Server), "operator", EveryOther);
      r.outcome == Picker.Relocated(Arena, [Ana, Bogdan, Carmen, MusicBot], 2, 2) &&
      AttemptedMembers(r.events) == [Ana, Bogdan, Carmen, MusicBot] &&
      r.events[|r.events| - 1] == EditOriginal(Report.ResultMessage(2, 2, "Lounge", "Arena")) &&
      Report.ReportedMoved(r.events[|r.events| - 1].text) == Some(2) &&
      Report.ReportedErrors(r.events[|r.events| - 1].text) == Some(2)
  {
    ServerVoiceChannels();
    var select := Picker.NewChannelSelect([Lounge, Arena], Lounge);
    var choice := [select.options[1].value];
    var r := Picker.CallbackSpec(select, choice, Some(Server), "operator", EveryOther);
    Picker.PickingAnOfferedChannel(Server, Lounge, 1, "operator", EveryOther);
    Picker.CallbackBatch(select, choice, Some(Server), "operator", EveryOther);
    Picker.BatchRunReports(Server, select, Arena, "operator", EveryOther);
    assert r.outcome.Relocated? && r.outcome.target == Arena;
    LookupListedVoiceChannel(Server, Lounge);
    assert r.outcome.snapshot == [Ana, Bogdan, Carmen, MusicBot];
    assert Mover.Moved(EveryOther, 4) == 2 && Mover.Failed(EveryOther, 4) == 2;
  }
}
