/** The status message `ChannelSelect.callback` shows after a batch: the
    moved count and both channel names, and a warning clause with the
    failure count only when some move failed. */
module Report {
  import opened Options
  import opened Text

  const MovedHead: string := "✅ Am mutat **"
  const WarningHead: string := " (⚠️ "
  const WarningTail: string := " ne-mutați din cauza permisiunilor/erorilor.)"

  function SuccessClause(moved: nat, sourceName: string, targetName: string): string {
    MovedHead + NatToString(moved) + ChannelsClause(sourceName, targetName)
  }

  /** What follows the moved count: the two channel names. */
  function ChannelsClause(sourceName: string, targetName: string): (c: string)
    ensures |c| > 0 && c[0] == '*'
  {
    "** membri din **" + sourceName + "** în **" + targetName + "**."
  }

  function WarningClause(errors: nat): string {
    WarningHead + NatToString(errors) + WarningTail
  }

  /** The message: the success clause, then the warning clause if `errors`
      is not zero. */
  function ResultMessage(moved: nat, errors: nat, sourceName: string, targetName: string): (msg: string)
    ensures errors == 0 <==> msg == SuccessClause(moved, sourceName, targetName)
  {
    SuccessClause(moved, sourceName, targetName) + (if errors != 0 then WarningClause(errors) else "")
  }

  /** A reader's view of a message: the count after the opening words. */
  function ReportedMoved(msg: string): Option<nat> {
    if MovedHead <= msg then ParseNat(LeadingDigits(msg[|MovedHead|..])) else None
  }

  /** A reader's view of a message: the count in a trailing warning clause,
      or `None` when it has none. */
  function ReportedErrors(msg: string): Option<nat> {
    if |WarningTail| <= |msg| && msg[|msg| - |WarningTail|..] == WarningTail
    then ParseNat(TrailingDigits(msg[..|msg| - |WarningTail|]))
    else None
  }

  /** A prefix of a concatenation, and associativity, stated over generic
      strings so that the message proofs below stay small. */
  lemma PrefixOfConcat(a: string, b: string)
    ensures a <= a + b
  {
    assert (a + b)[..|a|] == a;
  }

  lemma ConcatAssoc(a: string, b: string, c: string)
    ensures (a + b) + c == a + (b + c)
  {
  }

  /** A message that opens with the moved-count head, then digits, then a
      non-digit, reports those digits' value. */
  lemma ReadMovedCount(digits: string, rest: string, n: nat)
    requires AllDigits(digits) && ParseNat(digits) == Some(n)
    requires rest != [] && !IsDigit(rest[0])
    ensures ReportedMoved(MovedHead + digits + rest) == Some(n)
  {
    var msg := MovedHead + digits + rest;
    assert msg[..|MovedHead|] == MovedHead;
    assert msg[|MovedHead|..] == digits + rest;
    LeadingDigitsOfConcat(digits, rest);
  }

  /** The message opens with the success clause, which names both
      channels, and the moved count is read back from it. */
  lemma ResultMessageReportsMoved(moved: nat, errors: nat, sourceName: string, targetName: string)
    ensures var msg := ResultMessage(moved, errors, sourceName, targetName);
      SuccessClause(moved, sourceName, targetName) <= msg &&
      ReportedMoved(msg) == Some(moved)
  {
    var warning := if errors != 0 then WarningClause(errors) else "";
    var digits := NatToString(moved);
    var head := MovedHead + digits;
    var channels := ChannelsClause(sourceName, targetName);
    assert ResultMessage(moved, errors, sourceName, targetName) == (head + channels) + warning;
    PrefixOfConcat(head + channels, warning);
    ConcatAssoc(head, channels, warning);
    ParseNatOfNatToString(moved);
    ReadMovedCount(digits, channels + warning, moved);
  }

  /** The warning clause is there exactly when some move failed, and then
      it carries the failure count. */
  lemma ResultMessageWarnsIffErrors(moved: nat, errors: nat, sourceName: string, targetName: string)
    ensures var msg := ResultMessage(moved, errors, sourceName, targetName);
      ReportedErrors(msg) == if errors != 0 then Some(errors) else None
  {
    var msg := ResultMessage(moved, errors, sourceName, targetName);
    var success := SuccessClause(moved, sourceName, targetName);
    if errors != 0 {
      var digits := NatToString(errors);
      assert msg == (success + WarningHead + digits) + WarningTail;
      assert msg[..|msg| - |WarningTail|] == (success + WarningHead) + digits;
      TrailingDigitsOfConcat(success + WarningHead, digits);
      ParseNatOfNatToString(errors);
    } else {
      assert msg == success;
      assert msg[|msg| - 1] == '.';
      assert WarningTail[|WarningTail| - 1] == ')';
    }
  }
}
