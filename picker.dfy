/** `ChannelSelect`: the destination picker. Building it turns the guild's
    voice channels into at most 25 options; its callback re-resolves the
    chosen id, rejects a stale or identical choice, and otherwise moves
    every member of the source channel and reports the counts. */
module Picker {
  import opened Options
  import opened Text
  import opened Platform
  import Mover
  import Report

  /** The platform's limits on a select menu. */
  const MaxOptions: nat := 25
  const MaxLabelLength: nat := 100

  /** `ChannelSelectView`'s default timeout, in seconds; the platform
      enforces it. */
  const ViewTimeout: nat := 120

  const Placeholder: string := "Alege canalul destinație…"
  const MembersPrefix: string := "Utilizatori: "
  const InvalidChannelText: string := "❌ Canalul ales nu mai este valid."
  const SameChannelText: string := "ℹ️ Sursa și destinația sunt același canal."
  const ReasonPrefix: string := "/goto by "

  /** The option offered for one voice channel: its name cut to the label
      limit, its id as a decimal string that parses back to the id, and
      its current member count after the description's prefix. */
  function OptionFor(vc: VoiceChannel): (o: SelectOption)
    ensures |o.labelText| <= MaxLabelLength && o.labelText <= vc.name
    ensures |vc.name| <= MaxLabelLength ==> o.labelText == vc.name
    ensures |vc.name| > MaxLabelLength ==> |o.labelText| == MaxLabelLength
    ensures ParseNat(o.value) == Some(vc.id)
    ensures MembersPrefix <= o.description
    ensures ParseNat(o.description[|MembersPrefix|..]) == Some(|vc.members|)
  {
    ParseNatOfNatToString(vc.id);
    ParseNatOfNatToString(|vc.members|);
    var description := MembersPrefix + NatToString(|vc.members|);
    assert description[|MembersPrefix|..] == NatToString(|vc.members|);
    SelectOption(Take(vc.name, MaxLabelLength), NatToString(vc.id), description)
  }

  /** The options of `ChannelSelect.__init__`: one per voice channel, in
      catalog order, the channels after the 25th dropped. */
  function BuildOptions(channels: seq<VoiceChannel>): (opts: seq<SelectOption>)
    ensures |opts| == if |channels| < MaxOptions then |channels| else MaxOptions
    ensures forall i :: 0 <= i < |opts| ==> opts[i] == OptionFor(channels[i])
  {
    var offered := Take(channels, MaxOptions);
    seq(|offered|, i requires 0 <= i < |offered| => OptionFor(offered[i]))
  }

  /** `ChannelSelect.__init__`: a single-choice menu over the options,
      holding the source channel. */
  function NewChannelSelect(channels: seq<VoiceChannel>, source: VoiceChannel): (s: ChannelSelect)
    ensures s.minValues == 1 && s.maxValues == 1
    ensures s.options == BuildOptions(channels) && s.source == source
    ensures channels != [] ==> 1 <= |s.options| <= MaxOptions
  {
    ChannelSelect(Placeholder, 1, 1, BuildOptions(channels), source)
  }

  /** `ChannelSelectView(voice_channels, source_channel)`. */
  function NewChannelSelectView(channels: seq<VoiceChannel>, source: VoiceChannel): ChannelSelectView {
    ChannelSelectView(ViewTimeout, NewChannelSelect(channels, source))
  }

  /** How a callback ends: an error caught by the outer handler, a stale
      choice, the source chosen again, or a batch over `snapshot`. */
  datatype SelectOutcome =
    | Failed
    | InvalidChannel
    | SameChannel
    | Relocated(target: VoiceChannel, snapshot: seq<Member>, moved: nat, errors: nat)

  datatype CallbackRun = CallbackRun(outcome: SelectOutcome, events: seq<Event>)

  /** The batch that follows a valid choice of `target`: the source's
      members are snapshotted once, each is moved in turn, and the final
      edit carries the result message. */
  function BatchRun(g: Guild, select: ChannelSelect, target: VoiceChannel, user: string,
                    moveSucceeds: nat -> bool): CallbackRun
  {
    var source := CurrentVoiceChannel(g, select.source);
    var snapshot := source.members;
    var n := |snapshot|;
    var moved := Mover.Moved(moveSucceeds, n);
    var errors := Mover.Failed(moveSucceeds, n);
    var msg := Report.ResultMessage(moved, errors, source.name, target.name);
    CallbackRun(Relocated(target, snapshot, moved, errors),
                [Defer] + Mover.BatchEvents(snapshot, target.id, ReasonPrefix + user, moveSucceeds, n)
                + [EditOriginal(msg)])
  }

  /** What the callback does, as a function of the selection, the guild as
      it is when the callback runs, the user, and the platform's answers to
      the moves. */
  function CallbackSpec(select: ChannelSelect, values: seq<string>, guild: Option<Guild>, user: string,
                        moveSucceeds: nat -> bool): (r: CallbackRun)
    ensures |r.events| >= 2 && r.events[0] == Defer
  {
    if values == [] || ParseNat(values[0]).None? || guild.None? then
      CallbackRun(Failed, [Defer, FollowupError])
    else
      var targetId := ParseNat(values[0]).value;
      var found := GetChannel(guild.value, targetId);
      if !(found.Some? && found.value.Voice?) then
        CallbackRun(InvalidChannel, [Defer, Followup(InvalidChannelText)])
      else if select.source.id == targetId then
        CallbackRun(SameChannel, [Defer, Followup(SameChannelText)])
      else
        BatchRun(guild.value, select, found.value.vc, user, moveSucceeds)
  }

  /** `ChannelSelect.callback`. */
  method Callback(select: ChannelSelect, values: seq<string>, guild: Option<Guild>, user: string,
                  moveSucceeds: nat -> bool)
    returns (outcome: SelectOutcome, events: seq<Event>)
    ensures CallbackRun(outcome, events) == CallbackSpec(select, values, guild, user, moveSucceeds)
    ensures outcome.Relocated? ==> outcome.moved + outcome.errors == |outcome.snapshot|
  {
    events := [Defer];
    if values == [] {
      outcome, events := Failed, events + [FollowupError];
      return;
    }
    var parsed := ParseNat(values[0]);
    if parsed.None? || guild.None? {
      outcome, events := Failed, events + [FollowupError];
      return;
    }
    var targetId := parsed.value;
    var g := guild.value;
    var found := GetChannel(g, targetId);
    if !(found.Some? && found.value.Voice?) {
      outcome, events := InvalidChannel, events + [Followup(InvalidChannelText)];
      return;
    }
    var target := found.value.vc;
    if select.source.id == targetId {
      outcome, events := SameChannel, events + [Followup(SameChannelText)];
      return;
    }
    var source := CurrentVoiceChannel(g, select.source);
    var snapshot := source.members;
    var reason := ReasonPrefix + user;
    var moved, errors, batch := Mover.MoveMembers(snapshot, targetId, reason, moveSucceeds);
    events := events + batch;
    var msg := Report.SuccessClause(moved, source.name, target.name);
    if errors != 0 {
      msg := msg + Report.WarningClause(errors);
    }
    assert msg == Report.ResultMessage(moved, errors, source.name, target.name);
    events := events + [EditOriginal(msg)];
    outcome := Relocated(target, snapshot, moved, errors);
  }

  /** A callback that ends without a batch sends exactly one reply after
      the deferral and attempts no move: the generic error, "invalid
      channel" or "same channel". Which reply depends, in this
      order, on whether the choice parses and the guild is there, then on
      whether the id still names a voice channel, then on whether it is
      the source. */
  lemma CallbackRejectsWithoutMoving(select: ChannelSelect, values: seq<string>, guild: Option<Guild>, user: string,
                                     moveSucceeds: nat -> bool)
    ensures var r := CallbackSpec(select, values, guild, user, moveSucceeds);
      !r.outcome.Relocated? ==> |r.events| == 2 && r.events[0] == Defer && AttemptedMembers(r.events) == []
    ensures var r := CallbackSpec(select, values, guild, user, moveSucceeds);
      (r.outcome == Failed ==> r.events == [Defer, FollowupError]) &&
      (r.outcome == InvalidChannel ==> r.events == [Defer, Followup(InvalidChannelText)]) &&
      (r.outcome == SameChannel ==> r.events == [Defer, Followup(SameChannelText)])
    ensures var r := CallbackSpec(select, values, guild, user, moveSucceeds);
      r.outcome == Failed <==> values == [] || ParseNat(values[0]).None? || guild.None?
    ensures var r := CallbackSpec(select, values, guild, user, moveSucceeds);
      r.outcome == InvalidChannel <==>
        !(values == [] || ParseNat(values[0]).None? || guild.None?) &&
        !(exists vc :: GetChannel(guild.value, ParseNat(values[0]).value) == Some(Voice(vc)))
    ensures var r := CallbackSpec(select, values, guild, user, moveSucceeds);
      r.outcome == SameChannel <==>
        !(values == [] || ParseNat(values[0]).None? || guild.None?) &&
        (exists vc :: GetChannel(guild.value, ParseNat(values[0]).value) == Some(Voice(vc))) &&
        select.source.id == ParseNat(values[0]).value
  {
    var r := CallbackSpec(select, values, guild, user, moveSucceeds);
    if !r.outcome.Relocated? {
      SingleReplyAttemptsNothing(r.events[1]);
    }
    if !(values == [] || ParseNat(values[0]).None? || guild.None?) {
      var found := GetChannel(guild.value, ParseNat(values[0]).value);
      if found.Some? && found.value.Voice? {
        assert found == Some(Voice(found.value.vc));
      }
    }
  }

  /** A batch moves the source's members as they are when the callback
      runs, bots included, into the target: each is attempted once, in
      order, with the operator named in the reason; every attempt
      is counted as moved or failed; there is one delay per successful
      move; and the final message names both channels, reports the moved count and, exactly
      when some move failed, the failure count. */
  lemma BatchRunReports(g: Guild, select: ChannelSelect, target: VoiceChannel, user: string,
                        moveSucceeds: nat -> bool)
    ensures var r := BatchRun(g, select, target, user, moveSucceeds);
      var o := r.outcome;
      o.Relocated? && o.target == target &&
      o.snapshot == CurrentVoiceChannel(g, select.source).members &&
      o.moved + o.errors == |o.snapshot| &&
      AttemptedMembers(r.events) == o.snapshot &&
      (forall e :: e in r.events && e.MoveAttempt? ==> e.targetId == target.id && e.reason == ReasonPrefix + user) &&
      Delays(r.events) == o.moved &&
      r.events[0] == Defer &&
      r.events[|r.events| - 1].EditOriginal? &&
      Report.SuccessClause(o.moved, CurrentVoiceChannel(g, select.source).name, target.name) <= r.events[|r.events| - 1].text &&
      Report.ReportedMoved(r.events[|r.events| - 1].text) == Some(o.moved) &&
      Report.ReportedErrors(r.events[|r.events| - 1].text) == (if o.errors != 0 then Some(o.errors) else None)
  {
    var source := CurrentVoiceChannel(g, select.source);
    var snapshot := source.members;
    var n := |snapshot|;
    var moved := Mover.Moved(moveSucceeds, n);
    var errors := Mover.Failed(moveSucceeds, n);
    var msg := Report.ResultMessage(moved, errors, source.name, target.name);
    Mover.CountsConserved(moveSucceeds, n);
    Mover.FramedBatch(snapshot, target.id, ReasonPrefix + user, moveSucceeds, msg);
    Report.ResultMessageReportsMoved(moved, errors, source.name, target.name);
    Report.ResultMessageWarnsIffErrors(moved, errors, source.name, target.name);
  }

  /** A callback reaches a batch only for a choice that resolves, in the
      guild as it is now, to a voice channel other than the source; the
      batch then has every property of `BatchRunReports`. */
  lemma CallbackBatch(select: ChannelSelect, values: seq<string>, guild: Option<Guild>, user: string,
                      moveSucceeds: nat -> bool)
    ensures var r := CallbackSpec(select, values, guild, user, moveSucceeds);
      r.outcome.Relocated? ==>
        guild.Some? && values != [] &&
        ParseNat(values[0]) == Some(r.outcome.target.id) &&
        GetChannel(guild.value, r.outcome.target.id) == Some(Voice(r.outcome.target)) &&
        r.outcome.target.id != select.source.id &&
        r == BatchRun(guild.value, select, r.outcome.target, user, moveSucceeds)
  {
    var r := CallbackSpec(select, values, guild, user, moveSucceeds);
    if r.outcome.Relocated? {
      assert !(values == [] || ParseNat(values[0]).None? || guild.None?);
      var found := GetChannel(guild.value, ParseNat(values[0]).value);
      assert found.Some? && found.value.Voice?;
      assert found == Some(Voice(found.value.vc));
      BatchRunReports(guild.value, select, found.value.vc, user, moveSucceeds);
    }
  }

  /** Choosing an offered channel other than the source, in a guild that
      has not changed since the menu was built, starts a batch into that
      channel; choosing the source itself is answered as the same channel. */
  lemma PickingAnOfferedChannel(g: Guild, source: VoiceChannel, i: nat, user: string, moveSucceeds: nat -> bool)
    requires UniqueIds(g)
    requires i < |NewChannelSelect(VoiceChannels(g), source).options|
    ensures var select := NewChannelSelect(VoiceChannels(g), source);
      var r := CallbackSpec(select, [select.options[i].value], Some(g), user, moveSucceeds);
      var chosen := VoiceChannels(g)[i];
      (chosen.id != source.id ==> r.outcome.Relocated? && r.outcome.target == chosen) &&
      (chosen.id == source.id ==> r.outcome == SameChannel)
  {
    var select := NewChannelSelect(VoiceChannels(g), source);
    var chosen := VoiceChannels(g)[i];
    assert select.options[i] == OptionFor(chosen);
    assert chosen in VoiceChannels(g);
    LookupListedVoiceChannel(g, chosen);
  }
}
