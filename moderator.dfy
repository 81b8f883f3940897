/**
 * The older administration cog of cogs/moderator.py (class Admin): its own
 * skipped_msg, which adds no trailing period, and disconnect, which moves the
 * mentioned members (or the author, when nobody is mentioned) into a KICK
 * voice channel and then deletes that channel.
 */
module Moderator {
  import opened Platform
  import opened Bulk
  import Joiner
  // Only for comparing the two cogs' skipped texts in SkippedTextsDifferByPeriod.
  import Mod

  /** Admin.skipped_msg as text: None for no members, else "Skipped: " and the joined names. */
  function SkippedText(members: seq<Member>): (text: Option<string>)
  {
    if members == [] then None else Some("Skipped: " + Joiner.Joined(Names(members)))
  }

  /** Admin.skipped_msg: the same joining rule as Mod's, with no trailing period. */
  method SkippedMsg(members: seq<Member>) returns (r: Option<string>)
    ensures r == SkippedText(members)
    ensures members == [] ==> r.None?
    ensures |members| == 1 ==> r == Some("Skipped: " + members[0].name)
    ensures |members| == 2 ==> r == Some("Skipped: " + members[0].name + " and " + members[1].name)
    ensures |members| == 3 ==>
      r == Some("Skipped: " + members[0].name + ", " + members[1].name + ", and " + members[2].name)
  {
    if |members| == 0 {
      return None;
    }
    var names := Names(members);
    var msg := Joiner.AppendChain("Skipped: ", names);
    Joiner.JoinedBySize(names);
    if |members| == 2 {
      assert "Skipped: " + (names[0] + " and " + names[1]) == "Skipped: " + names[0] + " and " + names[1];
    } else if |members| == 3 {
      assert "Skipped: " + (names[0] + ", " + names[1] + ", and " + names[2])
        == "Skipped: " + names[0] + ", " + names[1] + ", and " + names[2];
    }
    r := Some(msg);
  }

  /** Admin's text is Mod's without the final period. */
  lemma SkippedTextsDifferByPeriod(members: seq<Member>)
    requires members != []
    ensures Mod.SkippedText(members).value == SkippedText(members).value + "."
  {
  }

  /**
   * The denial as written: `ctx.send(...)` is never awaited, so the coroutine
   * is dropped and only the reaction reaches the channel.
   */
  function DenialAsWritten(): (d: seq<Effect>)
    ensures forall e :: e in d ==> !e.Send? && !IsPlatformCall(e)
  {
    [React(ThumbsDown)]
  }

  /** The unawaited send loses exactly the denial text. */
  lemma DenialAsWrittenIsSilent()
    ensures Denial() == DenialAsWritten() + [Send(LackAuthority)]
    ensures Send(LackAuthority) !in DenialAsWritten()
  {
  }

  const Kick := "KICK"

  /** The reply of Admin.disconnect's bulk branch. */
  function Report(mentions: seq<Member>, skipped: seq<Member>): (effects: seq<Effect>)
    ensures PlatformCalls(effects) == []
    ensures skipped == [] ==> effects == [Send("All user(s) successfully disconnected.")]
    ensures skipped != [] && |skipped| == |mentions| ==> effects == [React(Confused), Send("No users were disconnected.")]
    ensures skipped != [] && |skipped| != |mentions| ==>
      effects == [React(Warning), Send("Some user(s) successfully disconnected. " + ("Skipped: " + Joiner.Joined(Names(skipped))))]
  {
    assert forall t :: PlatformCalls([Send(t)]) == [];
    match Classify(|mentions|, |skipped|)
    case AllSucceeded => [Send("All user(s) successfully disconnected.")]
    case NoneSucceeded => [React(Confused), Send("No users were disconnected.")]
    case SomeSucceeded => [React(Warning), Send("Some user(s) successfully disconnected. " + SkippedText(skipped).value)]
  }

  /**
   * Admin.disconnect: requires move_members (the denial is modelled as
   * intended, with its text sent); creates the KICK voice channel, moves each
   * mentioned member there, or the author when nobody is mentioned, and
   * deletes the channel.
   */
  method Disconnect(author: Member, perms: Permissions, mentions: seq<Member>, temp: Channel, platform: Oracle)
    returns (r: Run)
    ensures !perms.moveMembers ==> r == Run(Denial(), None)
    ensures perms.moveMembers && platform(CreateVoiceChannel(Kick)) != Done ==>
      r == Run([CreateVoiceChannel(Kick)], Failure(platform, CreateVoiceChannel(Kick)))
    ensures perms.moveMembers && platform(CreateVoiceChannel(Kick)) == Done ==>
      var action := MoveAction(temp);
      var body := if mentions != [] then Calls(mentions, action, platform) + Report(mentions, Skipped(mentions, action, platform))
                  else DisconnectSelf(author, temp, platform);
      r == Run([CreateVoiceChannel(Kick)] + body + [DeleteChannel(temp)], Failure(platform, DeleteChannel(temp)))
  {
    if !perms.moveMembers {
      return Run(Denial(), None);
    }
    var create := CreateVoiceChannel(Kick);
    if platform(create) != Done {
      return Run([create], Failure(platform, create));
    }
    var body;
    if mentions != [] {
      var calls, skipped := Apply(mentions, MoveAction(temp), platform);
      body := calls + Report(mentions, skipped);
    } else {
      body := DisconnectSelf(author, temp, platform);
    }
    r := Run([create] + body + [DeleteChannel(temp)], Failure(platform, DeleteChannel(temp)));
  }
}
