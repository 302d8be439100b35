/** The bulk move in `ChannelSelect.callback`: one `move_to` attempt per
    member of the snapshot, in order, a pacing delay after each successful
    one, and the two counters. `moveSucceeds(i)` is the platform's answer
    to the i-th attempt of the batch (permissions, the member having left,
    a transient error), which the bot cannot see in advance. */
module Mover {
  import opened Text
  import opened Platform

  /** One attempt: the `move_to` call, then the delay only if it succeeded. */
  function AttemptEvents(m: Member, targetId: nat, reason: string, accepted: bool): seq<Event> {
    if accepted then [MoveAttempt(m, targetId, reason, true), Delay]
    else [MoveAttempt(m, targetId, reason, false)]
  }

  /** The events of the first `k` attempts over `snapshot`. */
  function BatchEvents(snapshot: seq<Member>, targetId: nat, reason: string, moveSucceeds: nat -> bool, k: nat): seq<Event>
    requires k <= |snapshot|
  {
    if k == 0 then []
    else BatchEvents(snapshot, targetId, reason, moveSucceeds, k - 1)
         + AttemptEvents(snapshot[k - 1], targetId, reason, moveSucceeds(k - 1))
  }

  /** The value of `moved` after the first `k` attempts. */
  function Moved(moveSucceeds: nat -> bool, k: nat): (r: nat)
    ensures r <= k
  {
    if k == 0 then 0 else Moved(moveSucceeds, k - 1) + (if moveSucceeds(k - 1) then 1 else 0)
  }

  /** The value of `errors` after the first `k` attempts. */
  function Failed(moveSucceeds: nat -> bool, k: nat): (r: nat)
    ensures r <= k
  {
    if k == 0 then 0 else Failed(moveSucceeds, k - 1) + (if moveSucceeds(k - 1) then 0 else 1)
  }

  /** The loop of `ChannelSelect.callback` over the snapshot: one
      `move_to` per member, in order; a success increments `moved` and is
      followed by the pause, a failure increments `errors`. */
  method MoveMembers(snapshot: seq<Member>, targetId: nat, reason: string, moveSucceeds: nat -> bool)
    returns (moved: nat, errors: nat, events: seq<Event>)
    ensures moved == Moved(moveSucceeds, |snapshot|) && errors == Failed(moveSucceeds, |snapshot|)
    ensures moved + errors == |snapshot|
    ensures events == BatchEvents(snapshot, targetId, reason, moveSucceeds, |snapshot|)
  {
    moved, errors, events := 0, 0, [];
    for i := 0 to |snapshot|
      invariant moved == Moved(moveSucceeds, i)
      invariant errors == Failed(moveSucceeds, i)
      invariant events == BatchEvents(snapshot, targetId, reason, moveSucceeds, i)
    {
      var accepted := moveSucceeds(i);
      events := events + [MoveAttempt(snapshot[i], targetId, reason, accepted)];
      if accepted {
        moved := moved + 1;
        events := events + [Delay];
      } else {
        errors := errors + 1;
      }
    }
    CountsConserved(moveSucceeds, |snapshot|);
  }

  /** Every attempt is counted exactly once: `moved + errors` is the
      number of attempts. */
  lemma {:induction false} CountsConserved(moveSucceeds: nat -> bool, k: nat)
    ensures Moved(moveSucceeds, k) + Failed(moveSucceeds, k) == k
  {
    if k > 0 {
      CountsConserved(moveSucceeds, k - 1);
    }
  }

  /** The first `k` attempts make `k` events plus one delay per success. */
  lemma {:induction false} BatchLength(snapshot: seq<Member>, targetId: nat, reason: string, moveSucceeds: nat -> bool, k: nat)
    requires k <= |snapshot|
    ensures |BatchEvents(snapshot, targetId, reason, moveSucceeds, k)| == k + Moved(moveSucceeds, k)
  {
    if k > 0 {
      BatchLength(snapshot, targetId, reason, moveSucceeds, k - 1);
    }
  }

  /** Every attempt of the batch moves its member into the target channel,
      with the batch's audit reason. */
  lemma {:induction false} AttemptsGoToTarget(snapshot: seq<Member>, targetId: nat, reason: string, moveSucceeds: nat -> bool, k: nat)
    requires k <= |snapshot|
    ensures forall e :: e in BatchEvents(snapshot, targetId, reason, moveSucceeds, k) && e.MoveAttempt? ==>
      e.targetId == targetId && e.reason == reason
  {
    if k > 0 {
      AttemptsGoToTarget(snapshot, targetId, reason, moveSucceeds, k - 1);
    }
  }

  /** One attempt names its member once and pauses once if it succeeded. */
  lemma AttemptEventsCounts(m: Member, targetId: nat, reason: string, accepted: bool)
    ensures AttemptedMembers(AttemptEvents(m, targetId, reason, accepted)) == [m]
    ensures Delays(AttemptEvents(m, targetId, reason, accepted)) == if accepted then 1 else 0
  {
    var a := MoveAttempt(m, targetId, reason, accepted);
    assert [a][..0] == [];
    assert AttemptedMembers([a]) == [m] && Delays([a]) == 0;
    if accepted {
      assert [a, Delay][..1] == [a];
    }
  }

  /** The attempts are made on the snapshot's members, each once, in order. */
  lemma {:induction false} AttemptsFollowSnapshot(snapshot: seq<Member>, targetId: nat, reason: string, moveSucceeds: nat -> bool, k: nat)
    requires k <= |snapshot|
    ensures AttemptedMembers(BatchEvents(snapshot, targetId, reason, moveSucceeds, k)) == snapshot[..k]
  {
    if k > 0 {
      var prev := BatchEvents(snapshot, targetId, reason, moveSucceeds, k - 1);
      var step := AttemptEvents(snapshot[k - 1], targetId, reason, moveSucceeds(k - 1));
      assert AttemptedMembers(prev) == snapshot[..k - 1] by {
        AttemptsFollowSnapshot(snapshot, targetId, reason, moveSucceeds, k - 1);
      }
      assert AttemptedMembers(step) == [snapshot[k - 1]] by {
        AttemptEventsCounts(snapshot[k - 1], targetId, reason, moveSucceeds(k - 1));
      }
      assert AttemptedMembers(prev + step) == AttemptedMembers(prev) + AttemptedMembers(step) by {
        AttemptedMembersAppend(prev, step);
      }
      assert snapshot[..k] == snapshot[..k - 1] + [snapshot[k - 1]] by {
        PrefixExtends(snapshot, k);
      }
    }
  }

  /** There are exactly as many delays as successful moves, a trailing
      one after a last success included. */
  lemma {:induction false} DelaysEqualMoved(snapshot: seq<Member>, targetId: nat, reason: string, moveSucceeds: nat -> bool, k: nat)
    requires k <= |snapshot|
    ensures Delays(BatchEvents(snapshot, targetId, reason, moveSucceeds, k)) == Moved(moveSucceeds, k)
  {
    if k > 0 {
      var prev := BatchEvents(snapshot, targetId, reason, moveSucceeds, k - 1);
      var step := AttemptEvents(snapshot[k - 1], targetId, reason, moveSucceeds(k - 1));
      DelaysEqualMoved(snapshot, targetId, reason, moveSucceeds, k - 1);
      DelaysAppend(prev, step);
      AttemptEventsCounts(snapshot[k - 1], targetId, reason, moveSucceeds(k - 1));
    }
  }

  /** A trace holds only attempts and delays, and a delay stands exactly
      where the event before it is a successful attempt: none leads the
      trace and none follows a failure. */
  ghost predicate PacedAfterSuccesses(t: seq<Event>) {
    (forall j :: 0 <= j < |t| ==> t[j].MoveAttempt? || t[j].Delay?) &&
    (t != [] ==> !t[0].Delay?) &&
    (forall j :: 0 < j < |t| ==> (t[j].Delay? <==> t[j - 1].MoveAttempt? && t[j - 1].accepted))
  }

  /** The batch's delays are placed as `PacedAfterSuccesses` says, and the
      batch ends with a delay or a failed attempt unless it is empty. */
  lemma {:induction false} DelayOnlyAfterSuccess(snapshot: seq<Member>, targetId: nat, reason: string, moveSucceeds: nat -> bool, k: nat)
    requires k <= |snapshot|
    ensures PacedAfterSuccesses(BatchEvents(snapshot, targetId, reason, moveSucceeds, k))
    ensures var t := BatchEvents(snapshot, targetId, reason, moveSucceeds, k);
      t == [] || t[|t| - 1].Delay? || (t[|t| - 1].MoveAttempt? && !t[|t| - 1].accepted)
  {
    if k > 0 {
      DelayOnlyAfterSuccess(snapshot, targetId, reason, moveSucceeds, k - 1);
      var prev := BatchEvents(snapshot, targetId, reason, moveSucceeds, k - 1);
      var step := AttemptEvents(snapshot[k - 1], targetId, reason, moveSucceeds(k - 1));
      var t := prev + step;
      assert t == BatchEvents(snapshot, targetId, reason, moveSucceeds, k);
      forall j | 0 < j < |t|
        ensures t[j].Delay? <==> t[j - 1].MoveAttempt? && t[j - 1].accepted
      {
        if j < |prev| {
          assert t[j] == prev[j] && t[j - 1] == prev[j - 1];
        } else if j == |prev| {
          assert t[j] == step[0] && t[j - 1] == prev[|prev| - 1];
        } else {
          assert t[j] == step[1] && t[j - 1] == step[0];
        }
      }
      forall j | 0 <= j < |t|
        ensures t[j].MoveAttempt? || t[j].Delay?
      {
        if j < |prev| {
          assert t[j] == prev[j];
        } else {
          assert t[j] == step[j - |prev|];
        }
      }
    }
  }

  /** A whole batch between the deferral and the final edit: the
      attempts follow the snapshot, all go to the target with the batch's
      reason, and there is one delay per move. */
  lemma FramedBatch(snapshot: seq<Member>, targetId: nat, reason: string, moveSucceeds: nat -> bool, text: string)
    ensures var t := [Defer] + BatchEvents(snapshot, targetId, reason, moveSucceeds, |snapshot|) + [EditOriginal(text)];
      AttemptedMembers(t) == snapshot && Delays(t) == Moved(moveSucceeds, |snapshot|)
    ensures var t := [Defer] + BatchEvents(snapshot, targetId, reason, moveSucceeds, |snapshot|) + [EditOriginal(text)];
      forall e :: e in t && e.MoveAttempt? ==> e.targetId == targetId && e.reason == reason
  {
    var batch := BatchEvents(snapshot, targetId, reason, moveSucceeds, |snapshot|);
    var pre := [Defer] + batch;
    var edit := [EditOriginal(text)];
    assert [Defer][..0] == [] && edit[..0] == [];
    assert AttemptedMembers([Defer]) == [] && Delays([Defer]) == 0;
    assert AttemptedMembers(edit) == [] && Delays(edit) == 0;
    AttemptsFollowSnapshot(snapshot, targetId, reason, moveSucceeds, |snapshot|);
    DelaysEqualMoved(snapshot, targetId, reason, moveSucceeds, |snapshot|);
    assert snapshot[..|snapshot|] == snapshot;
    AttemptedMembersAppend([Defer], batch);
    DelaysAppend([Defer], batch);
    assert AttemptedMembers(pre) == snapshot && Delays(pre) == Moved(moveSucceeds, |snapshot|);
    AttemptedMembersAppend(pre, edit);
    DelaysAppend(pre, edit);
    AttemptsGoToTarget(snapshot, targetId, reason, moveSucceeds, |snapshot|);
  }
}
