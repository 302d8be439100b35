# `/goto` bulk voice-channel move, modelled in Dafny

This project models the `/goto` slash command of a chat-platform bot
(`bot1.py`). The command checks that it can run. It then shows the
operator a single-choice menu of the guild's voice channels (at most 25).
When a destination is picked, the menu's callback re-resolves the chosen
channel, rejects a stale or identical choice, and moves every member of the
operator's current voice channel there, one at a time. It counts successes
and failures, pauses after each successful move, and reports the counts in
one message.

Modules, one per part of the flow:

- `Text` (`text.dfy`): the Python built-ins the code uses, over `seq<char>`:
  `str(n)`, `int(s)` and the slice `s[:k]`, plus digit readers for the
  message lemmas.
- `Platform` (`platform.dfy`): members, voice channels, a guild's channel
  list, `guild.get_channel`, `guild.voice_channels`, the select-menu values,
  and the `Event` trace of calls the bot makes on an interaction.
- `Mover` (`mover.dfy`): the move loop as a specification. It gives the
  events of the first `k` attempts and the `moved`/`errors` counters, with
  lemmas on conservation, order and pacing.
- `Report` (`report.dfy`): the result message, and readers that recover
  the two counts from it.
- `Picker` (`picker.dfy`): `ChannelSelect.__init__` (the options) and
  `ChannelSelect.callback`. The callback is an imperative method proved
  equal to `CallbackSpec`. Its `for` loop over the snapshot is the method
  `Mover.MoveMembers`, proved against `Mover.BatchEvents`.
- `Command` (`command.dfy`): the guard chain of `goto`.
- `Scenarios` (`scenarios.dfy`): one complete run on concrete values.
- `Options` (`options.dfy`): the optional value used for `None` results.

External behaviour is passed in as parameters:

- The outcome of each `member.move_to` call is `moveSucceeds(i)`, the
  platform's answer to the i-th attempt of the batch.
- `asyncio.sleep(0.05)` is a `Delay` event.
- `defer`, `followup.send` and `edit_original_response` are `Event`s
  appended to a trace.
- The guild as it stands when the callback runs is its own argument, so a
  channel deleted after the menu was built shows up as a stale choice.
- The source channel's members are read from that guild state by id. The
  platform library computes `VoiceChannel.members` from the guild's current
  voice states in the same way, so a source channel that no longer exists
  has no members.

Behaviour of the code worth noting:

- The pause runs after every successful move, a trailing one included. So
  there are exactly `moved` delays (`Mover.DelaysEqualMoved`). Two attempts
  in a row get no pause between them when the first one fails.
- The final edit of a batch passes `view=None`; the invalid-channel and
  same-channel replies are plain follow-ups.
- A guild whose only voice channel is the source still gets the menu
  (`Command.OnlySourceChannelStillShowsPicker`): the guards do not check
  that some other destination exists.
- Bots are excluded when deciding whether anyone can be moved
  (bot1.py:100). They are still included in the batch (bot1.py:50). The
  model keeps this inconsistency as written: `Picker.BatchRunReports` and
  `Scenarios.LoungeToArena` show the bot being attempted.

## Model

| member | source | states |
|---|---|---|
| `Text.NatToString` | bot1.py:27 | `str(id)` is a non-empty string of decimal digits without a leading zero |
| `Text.ParseNat` | bot1.py:38 | `int(s)` succeeds exactly on non-empty strings of decimal digits |
| `Text.ParseNatOfNatToString` | bot1.py:38 | `int(str(n)) == n`: the option's value parses back to the channel id |
| `Text.Take` | bot1.py:30 | the slice `s[:k]` is a prefix of `s` of length `min(|s|, k)` |
| `Platform.GetChannelIn` | bot1.py:40 | `get_channel(id)` returns a channel of the guild with that id, and `None` only when no channel has it |
| `Platform.VoiceChannelsIn` | bot1.py:104 | a channel is listed if and only if it is one of the guild's voice channels, and the list is no longer than the channel list |
| `Platform.VoiceChannelsInAppend` | bot1.py:104 | the list keeps catalog order: the voice channels of a catalog in two parts are those of the first part followed by those of the second |
| `Platform.LookupListedVoiceChannel` | bot1.py:40-42 | with unique ids, looking up a listed voice channel's id finds that same voice channel |
| `Platform.CurrentVoiceChannel` | bot1.py:50 | the source as seen at callback time keeps its id. It is the guild's current entry for that id when that entry is a voice channel. Otherwise, once deleted, it has no members |
| `Mover.MoveMembers` | bot1.py:48-56 | the loop leaves `moved` and `errors` equal to the counts of accepted and refused attempts, with `moved + errors == len(snapshot)`, and makes exactly the attempts and delays of `BatchEvents` |
| `Mover.AttemptEventsCounts` | bot1.py:51-56 | one attempt names its member once and adds one delay if it succeeded, none otherwise |
| `Mover.BatchLength` | bot1.py:50-56 | the first `k` attempts make `k` attempt events plus one delay per success, and nothing else. `Mover.BatchEvents`, the definition of those events, has its order and pacing stated in `Mover.AttemptsFollowSnapshot`, `Mover.DelaysEqualMoved` and `Mover.DelayOnlyAfterSuccess` |
| `Mover.Moved` | bot1.py:48-53 | definition of `moved` after `k` attempts, which never exceeds `k`; conservation with `errors` is `Mover.CountsConserved` |
| `Mover.Failed` | bot1.py:49-56 | definition of `errors` after `k` attempts, which never exceeds `k`; conservation with `moved` is `Mover.CountsConserved` |
| `Mover.CountsConserved` | bot1.py:48-56 | every attempt increments exactly one of `moved` and `errors`, so `moved + errors` equals the number of attempts |
| `Mover.AttemptsGoToTarget` | bot1.py:52 | every attempt of the batch moves its member into the target channel, with the batch's reason |
| `Mover.AttemptsFollowSnapshot` | bot1.py:50-52 | the attempts are made on the snapshot's members, each exactly once, in snapshot order |
| `Mover.DelaysEqualMoved` | bot1.py:52-54 | the number of delays equals `moved`, a trailing one after a last success included |
| `Mover.DelayOnlyAfterSuccess` | bot1.py:51-56 | a batch holds only attempts and delays. A delay stands exactly where the previous event is a successful attempt, so none leads the batch and none follows a failure. A non-empty batch ends with a delay or a failed attempt |
| `Report.ResultMessage` | bot1.py:58-60 | definition of the message. It is the bare success clause exactly when `errors == 0`. What it reports is in `Report.ResultMessageReportsMoved` and `Report.ResultMessageWarnsIffErrors` |
| `Report.ResultMessageReportsMoved` | bot1.py:58 | the message opens with the success clause naming both channels, and the moved count is read back from it |
| `Report.ResultMessageWarnsIffErrors` | bot1.py:59-60 | the warning clause is present if and only if `errors != 0`, and then it carries `errors` |
| `Picker.OptionFor` | bot1.py:25-29 | each label is a prefix of the channel name, at most 100 characters, and the whole name when it fits. The value parses back to the channel id. The description carries the member count after `Utilizatori: ` |
| `Picker.BuildOptions` | bot1.py:24-31 | exactly `min(len(voice_channels), 25)` options, the i-th built from the i-th channel in catalog order; later channels are dropped |
| `Picker.NewChannelSelect` | bot1.py:22-33 | a single-choice menu (`min_values = max_values = 1`) over those options, holding the source channel, with 1 to 25 options when there is a channel |
| `Picker.NewChannelSelectView` | bot1.py:67-70 | definition of the view: the 120-second timeout and one `ChannelSelect`. Both are stated in `Command.GotoShowsPickerIffGuardsPass` |
| `Picker.CallbackSpec` | bot1.py:35-65 | definition of the callback's branches in the source's order. Every run defers first and then replies at least once. Branch properties are in `Picker.CallbackRejectsWithoutMoving`, `Picker.CallbackBatch` and `Picker.BatchRunReports` |
| `Picker.BatchRun` | bot1.py:48-62 | definition of a batch after a valid choice. Its properties are in `Picker.BatchRunReports` |
| `Picker.Callback` | bot1.py:35-65 | the callback's loop and branches produce exactly the outcome and event trace of `CallbackSpec`, and a batch ends with `moved + errors == len(snapshot)` |
| `Picker.CallbackRejectsWithoutMoving` | bot1.py:36-46 | without a batch, the callback sends exactly one reply after deferring and attempts no move. That reply is the generic error, `InvalidChannelText` or `SameChannelText`, by outcome. A choice that does not parse, or a missing guild, is the generic error. A choice that no longer resolves to a voice channel is "invalid channel", checked before "same channel". Resolving to the source id is "same channel" |
| `Picker.BatchRunReports` | bot1.py:48-62 | a batch snapshots the source's current members, bots included. Each member is attempted once, in order, into the chosen target with the reason `/goto by <user>`. `moved + errors == len(snapshot)`, and there is one delay per move. The final edit's message opens with the success clause naming the source and the target, reports `moved`, and reports `errors` exactly when it is non-zero |
| `Picker.CallbackBatch` | bot1.py:38-47 | a callback reaches a batch only when the choice parses to the id of a channel that resolves, in the guild as it is now, to a voice channel other than the source |
| `Picker.PickingAnOfferedChannel` | bot1.py:27-46 | in an unchanged guild, choosing an offered channel other than the source starts a batch into that very channel. Choosing the source is answered as the same channel |
| `Command.Goto` | bot1.py:90-113 | definition of the guard chain. Every run defers and then sends exactly one follow-up. Its branches are in `Command.GotoShowsPickerIffGuardsPass` and `Command.GotoFirstFailingGuardReplies` |
| `Command.Humans` | bot1.py:100 | the eligibility list holds exactly the source's members that are not bots |
| `Command.GotoShowsPickerIffGuardsPass` | bot1.py:90-113 | the picker is sent if and only if the guild is present, the user is in a voice channel, that channel has a non-bot member, and the guild has a voice channel. It then holds `ChannelSelect(voice_channels, source)` with the 120-second timeout |
| `Command.GotoFirstFailingGuardReplies` | bot1.py:92-106 | the first failing guard sends its own rejection after the deferral, and nothing else happens |
| `Command.OnlySourceChannelStillShowsPicker` | bot1.py:104-108 | with the source as the only voice channel, the picker is still shown with that one option, and choosing it yields "same channel" |
| `Scenarios.LoungeGetsPicker` | bot1.py:99-113 | `/goto` from Lounge, with three people and a bot, shows the picker with both voice channels, Lounge included |
| `Scenarios.LoungeToArena` | bot1.py:48-62 | three people and a bot in Lounge, moved to Arena, with every other move accepted: all four are attempted, 2 moved, 2 failed, and both counts are read back from the message |

## Left out

- Client construction, intents, command-tree sync (`MyBot`, `setup_hook`), logging, token loading and `bot.run`: platform bootstrap, not part of the flow.
- The library calls themselves (`defer`, `followup.send`, `edit_original_response`, `move_to`): only recorded as events. A failure of `followup.send` or `edit_original_response` is not modelled.
- The view's 120-second timeout is only a constant (`Picker.ViewTimeout`). Expiry is enforced by the platform, and the code does nothing on it.
- Which message the final `edit_original_response` changes is up to the platform. The `defer(thinking=True)` of the menu interaction creates its own response message. So whether the menu itself disappears is a platform matter; the model only records the edit and its `view=None`.
- `asyncio.sleep(0.05)` has no duration here: it is a counted `Delay` event. It is assumed never to fail, so each attempt's outcome depends on `move_to` alone, although the bare `except:` would also catch a failing sleep after `moved += 1`.
- The text of the outer error reply (`f"❌ Eroare: {e}"`) depends on the exception's string form. It is one `FollowupError` event.
- `Text.ParseNat` accepts only plain digit strings. Python's `int` also accepts signs, surrounding whitespace, underscores and non-ASCII digits. The menu's values are always `str` of a non-negative id, so these forms never arise from it.
- The move reason `f"/goto by {interaction.user}"` takes the user's display string as a parameter. How the library formats a user is not modelled.
- Concurrency: the event loop, other operators acting at the same time, and members joining or leaving during the batch are not modelled. The snapshot is a value taken once, and the platform's answers come from `moveSucceeds`.
- A voice state whose channel is a stage channel is not modelled: the user's channel is always a `VoiceChannel`.
