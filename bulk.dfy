/**
 * The per-member loops of the moderation commands.
 *
 * Apply is the loop of ban, kick, summon, disconnect and blackout: every
 * mentioned member is attempted once, in order; a failure puts the member on
 * the skipped list and the loop goes on. EditAll is the loop of mute, unmute,
 * deafen and undeafen, which has no try block: the first failed edit ends the
 * command with the exception.
 */
module Bulk {
  import opened Platform

  /** The operation a bulk command attempts on each member. */
  datatype Action =
    | BanAction
    | KickAction
    | MoveAction(destination: Channel)
    /** blackout: move the member to the temporary channel and back to their own */
    | StopStream(temp: Channel)

  /** The calls one member's attempt made, and whether the member counts as done. */
  datatype Step = Step(calls: seq<Effect>, ok: bool)

  function Attempt(action: Action, m: Member, platform: Oracle): (s: Step)
    ensures !action.StopStream? ==> |s.calls| == 1
    ensures action.StopStream? ==> |s.calls| <= 2
    ensures action.StopStream? && m.voice.None? ==> s == Step([], false)
  {
    match action
    case BanAction =>
      var c := BanMember(m);
      Step([c], platform(c) == Done)
    case KickAction =>
      var c := KickMember(m);
      Step([c], platform(c) == Done)
    case MoveAction(d) =>
      var c := MoveTo(m, d);
      Step([c], platform(c) == Done)
    case StopStream(temp) =>
      match m.voice
      case None => Step([], false)
      case Some(home) =>
        var away := MoveTo(m, temp);
        if platform(away) != Done then Step([away], false)
        else
          var back := MoveTo(m, home);
          Step([away, back], platform(back) == Done)
  }

  /** The single call a non-blackout action makes on a member. */
  function CallOn(action: Action, m: Member): (c: Effect)
    requires !action.StopStream?
  {
    match action
    case BanAction => BanMember(m)
    case KickAction => KickMember(m)
    case MoveAction(d) => MoveTo(m, d)
  }

  predicate Succeeds(action: Action, m: Member, platform: Oracle)
  {
    Attempt(action, m, platform).ok
  }

  /** Every call the loop makes over targets, in order. */
  function Calls(targets: seq<Member>, action: Action, platform: Oracle): (calls: seq<Effect>)
  {
    if targets == [] then []
    else Calls(targets[..|targets| - 1], action, platform) + Attempt(action, targets[|targets| - 1], platform).calls
  }

  /** The skipped list the loop builds over targets. */
  function Skipped(targets: seq<Member>, action: Action, platform: Oracle): (skipped: seq<Member>)
  {
    if targets == [] then []
    else
      var last := targets[|targets| - 1];
      Skipped(targets[..|targets| - 1], action, platform) + (if Succeeds(action, last, platform) then [] else [last])
  }

  /** The indices of the members whose attempt failed, in increasing order. */
  function FailedIndices(targets: seq<Member>, action: Action, platform: Oracle): (idx: seq<nat>)
  {
    if targets == [] then []
    else
      var n := |targets| - 1;
      FailedIndices(targets[..n], action, platform) + (if Succeeds(action, targets[n], platform) then [] else [n])
  }

  /**
   * The skipped list is exactly the failed members, as an order-preserving
   * sub-list of targets: skipped[j] is targets[idx[j]] for strictly increasing
   * indices idx, and an index is among them iff that member's attempt failed.
   */
  lemma {:induction false} SkippedIsFailedSublist(targets: seq<Member>, action: Action, platform: Oracle)
    ensures var idx := FailedIndices(targets, action, platform);
      var skipped := Skipped(targets, action, platform);
      && |idx| == |skipped|
      && (forall j :: 0 <= j < |idx| ==> idx[j] < |targets| && skipped[j] == targets[idx[j]])
      && (forall j, j' :: 0 <= j < j' < |idx| ==> idx[j] < idx[j'])
      && (forall i :: 0 <= i < |targets| ==> (i in idx <==> !Succeeds(action, targets[i], platform)))
  {
    if targets != [] {
      var n := |targets| - 1;
      var front := targets[..n];
      SkippedIsFailedSublist(front, action, platform);
      forall i | 0 <= i < n
        ensures targets[i] == front[i]
      {
      }
    }
  }

  /** No member is skipped iff every attempt succeeded; all are skipped iff every attempt failed. */
  lemma {:induction false} SkippedCount(targets: seq<Member>, action: Action, platform: Oracle)
    ensures |Skipped(targets, action, platform)| <= |targets|
    ensures |Skipped(targets, action, platform)| == 0 <==> forall i :: 0 <= i < |targets| ==> Succeeds(action, targets[i], platform)
    ensures |Skipped(targets, action, platform)| == |targets| <==> forall i :: 0 <= i < |targets| ==> !Succeeds(action, targets[i], platform)
  {
    if targets != [] {
      var n := |targets| - 1;
      var front := targets[..n];
      SkippedCount(front, action, platform);
      forall i | 0 <= i < n
        ensures targets[i] == front[i]
      {
      }
    }
  }

  /** For ban, kick and move, the loop makes exactly one call per member, in order. */
  lemma {:induction false} OneCallEach(targets: seq<Member>, action: Action, platform: Oracle)
    requires !action.StopStream?
    ensures |Calls(targets, action, platform)| == |targets|
    ensures forall i :: 0 <= i < |targets| ==> Calls(targets, action, platform)[i] == CallOn(action, targets[i])
  {
    if targets != [] {
      var n := |targets| - 1;
      var front := targets[..n];
      OneCallEach(front, action, platform);
      forall i | 0 <= i < n
        ensures targets[i] == front[i]
      {
      }
    }
  }

  /**
   * blackout calls move_to only for members in a voice channel: every call it
   * makes moves such a member, and every member outside voice is skipped.
   */
  lemma {:induction false} BlackoutSkipsSilent(targets: seq<Member>, temp: Channel, platform: Oracle)
    ensures forall e :: e in Calls(targets, StopStream(temp), platform) ==> e.MoveTo? && e.target in targets && e.target.voice.Some?
    ensures forall m :: m in targets && m.voice.None? ==> m in Skipped(targets, StopStream(temp), platform)
  {
    if targets != [] {
      var n := |targets| - 1;
      BlackoutSkipsSilent(targets[..n], temp, platform);
      assert forall m :: m in targets ==> m in targets[..n] || m == targets[n];
      assert forall m :: m in targets[..n] ==> m in targets;
    }
  }

  /**
   * The loop of the bulk commands: one attempt per member, failures collected
   * in skipped and never ending the loop.
   */
  method Apply(targets: seq<Member>, action: Action, platform: Oracle)
    returns (calls: seq<Effect>, skipped: seq<Member>)
    ensures calls == Calls(targets, action, platform)
    ensures skipped == Skipped(targets, action, platform)
  {
    calls, skipped := [], [];
    var i := 0;
    while i < |targets|
      invariant 0 <= i <= |targets|
      invariant calls == Calls(targets[..i], action, platform)
      invariant skipped == Skipped(targets[..i], action, platform)
    {
      assert targets[..i + 1][..i] == targets[..i];
      var user := targets[i];
      var step := Attempt(action, user, platform);
      calls := calls + step.calls;
      if !step.ok {
        skipped := skipped + [user];
      }
      i := i + 1;
    }
    assert targets[..i] == targets;
  }

  /** The three reply classes of a bulk command. */
  datatype Verdict = AllSucceeded | NoneSucceeded | SomeSucceeded

  /** `if not skipped` / `elif len(skipped) == len(mentions)` / `else`. */
  function Classify(attempted: nat, skipped: nat): (v: Verdict)
  {
    if skipped == 0 then AllSucceeded
    else if skipped == attempted then NoneSucceeded
    else SomeSucceeded
  }

  /** The verdict is decided by the members' outcomes alone. */
  lemma VerdictByOutcome(targets: seq<Member>, action: Action, platform: Oracle)
    requires targets != []
    ensures var v := Classify(|targets|, |Skipped(targets, action, platform)|);
      && (v == AllSucceeded <==> forall i :: 0 <= i < |targets| ==> Succeeds(action, targets[i], platform))
      && (v == NoneSucceeded <==> forall i :: 0 <= i < |targets| ==> !Succeeds(action, targets[i], platform))
      && (v == SomeSucceeded <==>
            (exists i :: 0 <= i < |targets| && Succeeds(action, targets[i], platform)) &&
            (exists i :: 0 <= i < |targets| && !Succeeds(action, targets[i], platform)))
  {
    SkippedCount(targets, action, platform);
    assert Succeeds(action, targets[0], platform) || !Succeeds(action, targets[0], platform);
  }

  /** The edit loop over targets with no try block: it stops at the first failure. */
  function EditRun(targets: seq<Member>, edit: Edit, platform: Oracle): (r: Run)
  {
    if targets == [] then Run([], None)
    else
      var c := EditMember(targets[0], edit);
      if platform(c) != Done then Run([c], Some(PlatformError(platform(c))))
      else
        var rest := EditRun(targets[1..], edit, platform);
        Run([c] + rest.effects, rest.raised)
  }

  /**
   * The edit loop edits the members in order, from the first on, and raises
   * nothing exactly when every edit succeeded, in which case it edited them all.
   */
  lemma {:induction false} EditRunEdits(targets: seq<Member>, edit: Edit, platform: Oracle)
    ensures var r := EditRun(targets, edit, platform);
      && |r.effects| <= |targets|
      && (forall i :: 0 <= i < |r.effects| ==> r.effects[i] == EditMember(targets[i], edit))
      && (r.raised.None? <==> forall i :: 0 <= i < |targets| ==> platform(EditMember(targets[i], edit)) == Done)
      && (r.raised.None? ==> |r.effects| == |targets|)
  {
    if targets != [] {
      var rest := targets[1..];
      EditRunEdits(rest, edit, platform);
      forall i | 0 <= i < |rest|
        ensures rest[i] == targets[i + 1]
      {
      }
    }
  }

  /**
   * When the edit loop raises, it stopped at the first member whose edit
   * failed, and raises that failure: the earlier edits all succeeded.
   */
  lemma {:induction false} EditRunStopsAtFirstFailure(targets: seq<Member>, edit: Edit, platform: Oracle)
    ensures var r := EditRun(targets, edit, platform);
      r.raised.Some? ==>
        var k := |r.effects| - 1;
        && 0 <= k < |targets|
        && r.effects[k] == EditMember(targets[k], edit)
        && r.raised == Some(PlatformError(platform(EditMember(targets[k], edit))))
        && platform(EditMember(targets[k], edit)) != Done
        && forall i :: 0 <= i < k ==> platform(EditMember(targets[i], edit)) == Done
  {
    if targets != [] {
      var rest := targets[1..];
      EditRunStopsAtFirstFailure(rest, edit, platform);
      EditRunEdits(rest, edit, platform);
      forall i | 0 <= i < |rest|
        ensures rest[i] == targets[i + 1]
      {
      }
    }
  }

  /** The edit loop of mute, unmute, deafen and undeafen. */
  method EditAll(targets: seq<Member>, edit: Edit, platform: Oracle)
    returns (calls: seq<Effect>, raised: Option<Raised>)
    ensures Run(calls, raised) == EditRun(targets, edit, platform)
  {
    calls, raised := [], None;
    var i := 0;
    while i < |targets|
      invariant 0 <= i <= |targets|
      invariant EditRun(targets, edit, platform) == Run(calls + EditRun(targets[i..], edit, platform).effects, EditRun(targets[i..], edit, platform).raised)
    {
      assert targets[i..][1..] == targets[i + 1..];
      var c := EditMember(targets[i], edit);
      calls := calls + [c];
      if platform(c) != Done {
        raised := Some(PlatformError(platform(c)));
        return;
      }
      i := i + 1;
    }
  }

  /**
   * The fallback of both disconnect commands when nobody is targeted: one
   * move of the author into the temporary channel, confirmed, or answered as
   * "not in a voice channel" when the move fails.
   */
  function DisconnectSelf(author: Member, temp: Channel, platform: Oracle): (effects: seq<Effect>)
    ensures PlatformCalls(effects) == [MoveTo(author, temp)]
    ensures platform(MoveTo(author, temp)) == Done ==>
      effects == [MoveTo(author, temp), Send("Disconnected " + author.mention + ".")]
    ensures platform(MoveTo(author, temp)) != Done ==>
      effects == [MoveTo(author, temp), React(Confused), Send("You were not in a voice channel.")]
  {
    var c := MoveTo(author, temp);
    var reply := if platform(c) == Done then [Send("Disconnected " + author.mention + ".")]
                 else [React(Confused), Send("You were not in a voice channel.")];
    CallThenReply(c, reply);
    [c] + reply
  }
}
