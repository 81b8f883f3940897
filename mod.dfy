/**
 * The moderation cog of cogs/mod.py (class Mod): ban, kick, blackout,
 * disconnect, summon, mute, unmute, deafen, undeafen, nickname, pin and
 * unpin. Each command first checks the author's permission flag; a bulk
 * command then attempts every mentioned member and answers with one of three
 * reply classes.
 */
module Mod {
  import opened Platform
  import opened Bulk
  import Joiner

  /** The text of skipped_msg: None for no members, else "Skipped: " and the joined names and ".". */
  function SkippedText(members: seq<Member>): (text: Option<string>)
  {
    if members == [] then None else Some("Skipped: " + Joiner.Joined(Names(members)) + ".")
  }

  /** skipped_msg: lists the skipped members' names grammatically, ending in a period. */
  method SkippedMsg(members: seq<Member>) returns (r: Option<string>)
    ensures r == SkippedText(members)
    ensures members == [] ==> r.None?
    ensures |members| == 1 ==> r == Some("Skipped: " + members[0].name + ".")
    ensures |members| == 2 ==> r == Some("Skipped: " + members[0].name + " and " + members[1].name + ".")
    ensures |members| == 3 ==>
      r == Some("Skipped: " + members[0].name + ", " + members[1].name + ", and " + members[2].name + ".")
  {
    if |members| == 0 {
      return None;
    }
    var names := Names(members);
    var msg := Joiner.AppendChain("Skipped: ", names);
    Joiner.JoinedBySize(names);
    if |members| == 2 {
      assert "Skipped: " + (names[0] + " and " + names[1]) == "Skipped: " + names[0] + " and " + names[1];
    } else if |members| == 3 {
      assert "Skipped: " + (names[0] + ", " + names[1] + ", and " + names[2])
        == "Skipped: " + names[0] + ", " + names[1] + ", and " + names[2];
    }
    r := Some(msg + ".");
  }

  /** The three replies of a bulk command. */
  datatype Wording = Wording(allDone: string, noneDone: string, someDone: string)

  const BanWording := Wording("All users successfully banned.", "No users were banned.", "Some user(s) successfully banned. ")
  const KickWording := Wording("All users successfully kicked.", "No users were kicked.", "Some user(s) successfully kicked. ")
  const BlackoutWording := Wording("All video streams successfully stopped.", "No video streams were stopped.", "Some video stream(s) successfully moved. ")
  const DisconnectWording := Wording("All users successfully disconnected.", "No users were disconnected.", "Some user(s) successfully disconnected. ")
  const SummonWording := Wording("All users successfully moved.", "No users were moved.", "Some user(s) successfully moved. ")

  /** The reply of a bulk command, meant to call this cog's own skipped_msg. */
  function Report(w: Wording, mentions: seq<Member>, skipped: seq<Member>): (effects: seq<Effect>)
    ensures PlatformCalls(effects) == []
    ensures skipped == [] ==> effects == [Send(w.allDone)]
    ensures skipped != [] && |skipped| == |mentions| ==> effects == [React(Confused), Send(w.noneDone)]
    ensures skipped != [] && |skipped| != |mentions| ==>
      effects == [React(Warning), Send(w.someDone + ("Skipped: " + Joiner.Joined(Names(skipped)) + "."))]
  {
    assert PlatformCalls([Send(w.noneDone)]) == [];
    assert forall t :: PlatformCalls([Send(t)]) == [];
    match Classify(|mentions|, |skipped|)
    case AllSucceeded => [Send(w.allDone)]
    case NoneSucceeded => [React(Confused), Send(w.noneDone)]
    case SomeSucceeded => [React(Warning), Send(w.someDone + SkippedText(skipped).value)]
  }

  /**
   * The reply as written: the partial branch calls `Moderator.skipped_msg`,
   * a name cogs/mod.py does not define, so it adds the warning reaction and
   * then raises NameError before anything is sent.
   */
  function ReportAsWritten(w: Wording, mentions: seq<Member>, skipped: seq<Member>): (r: Run)
    ensures Classify(|mentions|, |skipped|) != SomeSucceeded ==> r == Run(Report(w, mentions, skipped), None)
    ensures Classify(|mentions|, |skipped|) == SomeSucceeded ==> r == Run([React(Warning)], Some(NameError))
  {
    match Classify(|mentions|, |skipped|)
    case SomeSucceeded => Run([React(Warning)], Some(NameError))
    case _ => Run(Report(w, mentions, skipped), None)
  }

  /**
   * Two mentioned members of which only the second fails: the source as
   * written sends no reply and raises, where the intended reply names the
   * skipped member.
   */
  lemma PartialReplyRaises(a: Member, b: Member, platform: Oracle)
    requires platform(BanMember(a)) == Done && platform(BanMember(b)) != Done
    ensures Skipped([a, b], BanAction, platform) == [b]
    ensures ReportAsWritten(BanWording, [a, b], [b]) == Run([React(Warning)], Some(NameError))
    ensures Report(BanWording, [a, b], [b]) ==
      [React(Warning), Send("Some user(s) successfully banned. " + ("Skipped: " + b.name + "."))]
  {
    assert Attempt(BanAction, a, platform).ok && !Attempt(BanAction, b, platform).ok;
    assert [a, b][..1] == [a];
    assert [a][..0] == [];
    assert Succeeds(BanAction, a, platform) && !Succeeds(BanAction, b, platform);
    assert Skipped([a], BanAction, platform) == [];
    Joiner.JoinedBySize([b.name]);
  }

  /** The reply of ban, kick, blackout, disconnect and summon when nobody is mentioned. */
  function NoMentions(content: string): (effects: seq<Effect>)
  {
    NoMentionReply("Unrecognized user mention(s).", content)
  }

  /** The shared body of ban and kick: permission gate, loop over mentions, three-way reply. */
  method Execute(allowed: bool, action: Action, w: Wording, mentions: seq<Member>, content: string, platform: Oracle)
    returns (r: Run)
    ensures !allowed ==> r == Run(Denial(), None)
    ensures allowed && mentions != [] ==>
      r == Run(Calls(mentions, action, platform) + Report(w, mentions, Skipped(mentions, action, platform)), None)
    ensures allowed && mentions == [] ==> r == Run(NoMentions(content), None)
  {
    if !allowed {
      return Run(Denial(), None);
    }
    if mentions != [] {
      var calls, skipped := Apply(mentions, action, platform);
      r := Run(calls + Report(w, mentions, skipped), None);
    } else {
      r := Run(NoMentions(content), None);
    }
  }

  /** ban: requires ban_members; bans each mentioned member. */
  method Ban(perms: Permissions, mentions: seq<Member>, content: string, platform: Oracle) returns (r: Run)
    ensures !perms.banMembers ==> r == Run(Denial(), None)
    ensures perms.banMembers && mentions != [] ==>
      r == Run(Calls(mentions, BanAction, platform) + Report(BanWording, mentions, Skipped(mentions, BanAction, platform)), None)
    ensures perms.banMembers && mentions == [] ==> r == Run(NoMentions(content), None)
  {
    r := Execute(perms.banMembers, BanAction, BanWording, mentions, content, platform);
  }

  /** kick: requires kick_members; kicks each mentioned member. */
  method Kick(perms: Permissions, mentions: seq<Member>, content: string, platform: Oracle) returns (r: Run)
    ensures !perms.kickMembers ==> r == Run(Denial(), None)
    ensures perms.kickMembers && mentions != [] ==>
      r == Run(Calls(mentions, KickAction, platform) + Report(KickWording, mentions, Skipped(mentions, KickAction, platform)), None)
    ensures perms.kickMembers && mentions == [] ==> r == Run(NoMentions(content), None)
  {
    r := Execute(perms.kickMembers, KickAction, KickWording, mentions, content, platform);
  }

  /**
   * summon: requires move_members and the author in a voice channel; moves
   * each mentioned member into the author's channel.
   */
  method Summon(author: Member, perms: Permissions, mentions: seq<Member>, content: string, platform: Oracle)
    returns (r: Run)
    ensures !perms.moveMembers ==> r == Run(Denial(), None)
    ensures perms.moveMembers && author.voice.None? ==>
      r == Run([React(Confused), Send("You're not in a voice channel.")], None)
    ensures perms.moveMembers && author.voice.Some? && mentions != [] ==>
      var action := MoveAction(author.voice.value);
      r == Run(Calls(mentions, action, platform) + Report(SummonWording, mentions, Skipped(mentions, action, platform)), None)
    ensures perms.moveMembers && author.voice.Some? && mentions == [] ==> r == Run(NoMentions(content), None)
  {
    if !perms.moveMembers {
      return Run(Denial(), None);
    }
    if author.voice.None? {
      return Run([React(Confused), Send("You're not in a voice channel.")], None);
    }
    r := Execute(true, MoveAction(author.voice.value), SummonWording, mentions, content, platform);
  }

  const Temp := "TEMP"

  /**
   * blackout: requires move_members; creates the TEMP voice channel, moves
   * each mentioned member in voice there and back (members outside voice are
   * skipped without a call), and deletes the channel again.
   */
  method Blackout(perms: Permissions, mentions: seq<Member>, content: string, temp: Channel, platform: Oracle)
    returns (r: Run)
    ensures !perms.moveMembers ==> r == Run(Denial(), None)
    ensures perms.moveMembers && platform(CreateVoiceChannel(Temp)) != Done ==>
      r == Run([CreateVoiceChannel(Temp)], Failure(platform, CreateVoiceChannel(Temp)))
    ensures perms.moveMembers && platform(CreateVoiceChannel(Temp)) == Done ==>
      var action := StopStream(temp);
      var body := if mentions != [] then Calls(mentions, action, platform) + Report(BlackoutWording, mentions, Skipped(mentions, action, platform))
                  else NoMentions(content);
      r == Run([CreateVoiceChannel(Temp)] + body + [DeleteChannel(temp)], Failure(platform, DeleteChannel(temp)))
  {
    if !perms.moveMembers {
      return Run(Denial(), None);
    }
    var create := CreateVoiceChannel(Temp);
    if platform(create) != Done {
      return Run([create], Failure(platform, create));
    }
    var body;
    if mentions != [] {
      var calls, skipped := Apply(mentions, StopStream(temp), platform);
      body := calls + Report(BlackoutWording, mentions, skipped);
    } else {
      body := NoMentions(content);
    }
    r := Run([create] + body + [DeleteChannel(temp)], Failure(platform, DeleteChannel(temp)));
  }

  /**
   * disconnect: requires move_members; creates the TEMP voice channel, moves
   * each mentioned member (or, with no mention and no argument, the author)
   * there, and deletes the channel, which disconnects them.
   */
  method Disconnect(author: Member, perms: Permissions, mentions: seq<Member>, content: string, temp: Channel, platform: Oracle)
    returns (r: Run)
    ensures !perms.moveMembers ==> r == Run(Denial(), None)
    ensures perms.moveMembers && platform(CreateVoiceChannel(Temp)) != Done ==>
      r == Run([CreateVoiceChannel(Temp)], Failure(platform, CreateVoiceChannel(Temp)))
    ensures perms.moveMembers && platform(CreateVoiceChannel(Temp)) == Done ==>
      var action := MoveAction(temp);
      var body := if mentions != [] then Calls(mentions, action, platform) + Report(DisconnectWording, mentions, Skipped(mentions, action, platform))
                  else if HasSecondWord(content) then NoMentions(content)
                  else DisconnectSelf(author, temp, platform);
      r == Run([CreateVoiceChannel(Temp)] + body + [DeleteChannel(temp)], Failure(platform, DeleteChannel(temp)))
  {
    if !perms.moveMembers {
      return Run(Denial(), None);
    }
    var create := CreateVoiceChannel(Temp);
    if platform(create) != Done {
      return Run([create], Failure(platform, create));
    }
    var body;
    if mentions != [] {
      var calls, skipped := Apply(mentions, MoveAction(temp), platform);
      body := calls + Report(DisconnectWording, mentions, skipped);
    } else if WordCount(content) > 1 {
      WordCountAboveOne(content);
      body := NoMentions(content);
    } else {
      WordCountAboveOne(content);
      body := DisconnectSelf(author, temp, platform);
    }
    r := Run([create] + body + [DeleteChannel(temp)], Failure(platform, DeleteChannel(temp)));
  }

  /** The partial reply class of a bulk command that attempted its mentions. */
  predicate PartlyDone(mentions: seq<Member>, action: Action, platform: Oracle)
  {
    mentions != [] && Classify(|mentions|, |Skipped(mentions, action, platform)|) == SomeSucceeded
  }

  /**
   * blackout as written: the partial reply raises NameError (see
   * ReportAsWritten), which ends the command before TEMP is deleted. In every
   * other case the trace is the one of Blackout.
   */
  method BlackoutAsWritten(perms: Permissions, mentions: seq<Member>, content: string, temp: Channel, platform: Oracle)
    returns (r: Run)
    ensures !perms.moveMembers ==> r == Run(Denial(), None)
    ensures perms.moveMembers && platform(CreateVoiceChannel(Temp)) != Done ==>
      r == Run([CreateVoiceChannel(Temp)], Failure(platform, CreateVoiceChannel(Temp)))
    ensures perms.moveMembers && platform(CreateVoiceChannel(Temp)) == Done && PartlyDone(mentions, StopStream(temp), platform) ==>
      && r == Run([CreateVoiceChannel(Temp)] + Calls(mentions, StopStream(temp), platform) + [React(Warning)], Some(NameError))
      && DeleteChannel(temp) !in r.effects
    ensures perms.moveMembers && platform(CreateVoiceChannel(Temp)) == Done && !PartlyDone(mentions, StopStream(temp), platform) ==>
      var action := StopStream(temp);
      var body := if mentions != [] then Calls(mentions, action, platform) + Report(BlackoutWording, mentions, Skipped(mentions, action, platform))
                  else NoMentions(content);
      r == Run([CreateVoiceChannel(Temp)] + body + [DeleteChannel(temp)], Failure(platform, DeleteChannel(temp)))
  {
    if !perms.moveMembers {
      return Run(Denial(), None);
    }
    var create := CreateVoiceChannel(Temp);
    if platform(create) != Done {
      return Run([create], Failure(platform, create));
    }
    var body;
    if mentions != [] {
      var calls, skipped := Apply(mentions, StopStream(temp), platform);
      var reply := ReportAsWritten(BlackoutWording, mentions, skipped);
      body := Run(calls + reply.effects, reply.raised);
    } else {
      body := Run(NoMentions(content), None);
    }
    if body.raised.Some? {
      BlackoutSkipsSilent(mentions, temp, platform);
      return Run([create] + body.effects, body.raised);
    }
    r := Run([create] + body.effects + [DeleteChannel(temp)], Failure(platform, DeleteChannel(temp)));
  }

  /**
   * disconnect as written: the partial reply raises NameError, which ends the
   * command before TEMP is deleted. In every other case the trace is the one
   * of Disconnect.
   */
  method DisconnectAsWritten(author: Member, perms: Permissions, mentions: seq<Member>, content: string, temp: Channel, platform: Oracle)
    returns (r: Run)
    ensures !perms.moveMembers ==> r == Run(Denial(), None)
    ensures perms.moveMembers && platform(CreateVoiceChannel(Temp)) != Done ==>
      r == Run([CreateVoiceChannel(Temp)], Failure(platform, CreateVoiceChannel(Temp)))
    ensures perms.moveMembers && platform(CreateVoiceChannel(Temp)) == Done && PartlyDone(mentions, MoveAction(temp), platform) ==>
      && r == Run([CreateVoiceChannel(Temp)] + Calls(mentions, MoveAction(temp), platform) + [React(Warning)], Some(NameError))
      && DeleteChannel(temp) !in r.effects
    ensures perms.moveMembers && platform(CreateVoiceChannel(Temp)) == Done && !PartlyDone(mentions, MoveAction(temp), platform) ==>
      var action := MoveAction(temp);
      var body := if mentions != [] then Calls(mentions, action, platform) + Report(DisconnectWording, mentions, Skipped(mentions, action, platform))
                  else if HasSecondWord(content) then NoMentions(content)
                  else DisconnectSelf(author, temp, platform);
      r == Run([CreateVoiceChannel(Temp)] + body + [DeleteChannel(temp)], Failure(platform, DeleteChannel(temp)))
  {
    if !perms.moveMembers {
      return Run(Denial(), None);
    }
    var create := CreateVoiceChannel(Temp);
    if platform(create) != Done {
      return Run([create], Failure(platform, create));
    }
    var body;
    if mentions != [] {
      var calls, skipped := Apply(mentions, MoveAction(temp), platform);
      var reply := ReportAsWritten(DisconnectWording, mentions, skipped);
      body := Run(calls + reply.effects, reply.raised);
    } else if WordCount(content) > 1 {
      WordCountAboveOne(content);
      body := Run(NoMentions(content), None);
    } else {
      WordCountAboveOne(content);
      body := Run(DisconnectSelf(author, temp, platform), None);
    }
    if body.raised.Some? {
      OneCallEach(mentions, MoveAction(temp), platform);
      return Run([create] + body.effects, body.raised);
    }
    r := Run([create] + body.effects + [DeleteChannel(temp)], Failure(platform, DeleteChannel(temp)));
  }

  /**
   * The shared body of mute, unmute, deafen and undeafen: permission gate,
   * then one edit per mentioned member; a failed edit raises out of the
   * command, so the confirmation is sent only when every edit succeeded.
   */
  method EditEach(allowed: bool, edit: Edit, confirmation: string, mentions: seq<Member>, platform: Oracle)
    returns (r: Run)
    ensures !allowed ==> r == Run(Denial(), None)
    ensures allowed && mentions == [] ==> r == Run([React(Confused), Send("No users mentioned.")], None)
    ensures allowed && mentions != [] ==>
      var run := EditRun(mentions, edit, platform);
      r == if run.raised.None? then Run(run.effects + [Send(confirmation)], None) else run
  {
    if !allowed {
      return Run(Denial(), None);
    }
    if mentions != [] {
      var calls, raised := EditAll(mentions, edit, platform);
      if raised.None? {
        r := Run(calls + [Send(confirmation)], None);
      } else {
        r := Run(calls, raised);
      }
    } else {
      r := Run([React(Confused), Send("No users mentioned.")], None);
    }
  }

  /** mute: requires mute_members; server-mutes each mentioned member. */
  method Mute(perms: Permissions, mentions: seq<Member>, platform: Oracle) returns (r: Run)
    ensures !perms.muteMembers ==> r == Run(Denial(), None)
    ensures perms.muteMembers && mentions == [] ==> r == Run([React(Confused), Send("No users mentioned.")], None)
    ensures perms.muteMembers && mentions != [] ==>
      var run := EditRun(mentions, SetMute(true), platform);
      r == if run.raised.None? then Run(run.effects + [Send("Muted user(s).")], None) else run
  {
    r := EditEach(perms.muteMembers, SetMute(true), "Muted user(s).", mentions, platform);
  }

  /** unmute: requires mute_members; lifts the server mute of each mentioned member. */
  method Unmute(perms: Permissions, mentions: seq<Member>, platform: Oracle) returns (r: Run)
    ensures !perms.muteMembers ==> r == Run(Denial(), None)
    ensures perms.muteMembers && mentions == [] ==> r == Run([React(Confused), Send("No users mentioned.")], None)
    ensures perms.muteMembers && mentions != [] ==>
      var run := EditRun(mentions, SetMute(false), platform);
      r == if run.raised.None? then Run(run.effects + [Send("Unmuted user(s).")], None) else run
  {
    r := EditEach(perms.muteMembers, SetMute(false), "Unmuted user(s).", mentions, platform);
  }

  /** deafen: requires deafen_members; server-deafens each mentioned member. */
  method Deafen(perms: Permissions, mentions: seq<Member>, platform: Oracle) returns (r: Run)
    ensures !perms.deafenMembers ==> r == Run(Denial(), None)
    ensures perms.deafenMembers && mentions == [] ==> r == Run([React(Confused), Send("No users mentioned.")], None)
    ensures perms.deafenMembers && mentions != [] ==>
      var run := EditRun(mentions, SetDeafen(true), platform);
      r == if run.raised.None? then Run(run.effects + [Send("Deafened user(s).")], None) else run
  {
    r := EditEach(perms.deafenMembers, SetDeafen(true), "Deafened user(s).", mentions, platform);
  }

  /** undeafen: requires deafen_members; lifts the server deafen of each mentioned member. */
  method Undeafen(perms: Permissions, mentions: seq<Member>, platform: Oracle) returns (r: Run)
    ensures !perms.deafenMembers ==> r == Run(Denial(), None)
    ensures perms.deafenMembers && mentions == [] ==> r == Run([React(Confused), Send("No users mentioned.")], None)
    ensures perms.deafenMembers && mentions != [] ==>
      var run := EditRun(mentions, SetDeafen(false), platform);
      r == if run.raised.None? then Run(run.effects + [Send("Undeafened user(s).")], None) else run
  {
    r := EditEach(perms.deafenMembers, SetDeafen(false), "Undeafened user(s).", mentions, platform);
  }

  /** nickname's gate: acting on oneself needs no permission, acting on another needs change_nickname. */
  predicate MayRename(author: Member, perms: Permissions, member: Member)
  {
    member.id == author.id || perms.changeNickname
  }

  /**
   * nickname's edit: the new nickname is set; discord.Forbidden is answered,
   * any other failure escapes.
   */
  function Rename(member: Member, nick: string, platform: Oracle): (r: Run)
    ensures PlatformCalls(r.effects) == [EditMember(member, SetNick(nick))]
    ensures var c := EditMember(member, SetNick(nick));
      && (platform(c) == Done ==> r == Run([c, Send("Updated nickname for " + member.mention + ".")], None))
      && (platform(c) == Forbidden ==> r == Run([c, React(Confused), Send("I don't have permission to do that.")], None))
      && (platform(c) == HttpError ==> r == Run([c], Some(PlatformError(HttpError))))
  {
    var c := EditMember(member, SetNick(nick));
    var reply := match platform(c)
      case Done => [Send("Updated nickname for " + member.mention + ".")]
      case Forbidden => [React(Confused), Send("I don't have permission to do that.")]
      case HttpError => [];
    CallThenReply(c, reply);
    Run([c] + reply, if platform(c) == HttpError then Some(PlatformError(HttpError)) else None)
  }

  /**
   * nickname: sets member's nickname to nick. The edit is made only when the
   * author may rename the member and nick differs from the current nickname.
   */
  function Nickname(author: Member, perms: Permissions, member: Member, nick: string, platform: Oracle): (r: Run)
    ensures PlatformCalls(r.effects) ==
      if MayRename(author, perms, member) && member.nick != Some(nick) then [EditMember(member, SetNick(nick))] else []
    ensures !MayRename(author, perms, member) ==> r == Run(Denial(), None)
    ensures MayRename(author, perms, member) && member.nick == Some(nick) ==>
      r == Run([React(Confused), Send("That's the same name.")], None)
    ensures MayRename(author, perms, member) && member.nick != Some(nick) ==> r == Rename(member, nick, platform)
  {
    if !MayRename(author, perms, member) then Run(Denial(), None)
    else if member.nick == Some(nick) then
      var reply := [React(Confused), Send("That's the same name.")];
      ReplyHasNoCalls(reply);
      Run(reply, None)
    else Rename(member, nick, platform)
  }

  /**
   * pin: requires manage_messages; pins the referenced message, here the
   * message `fetched` that fetch_message returns for the reference, unless it
   * is already pinned.
   */
  function Pin(perms: Permissions, reference: Option<Reference>, fetched: Message, platform: Oracle): (r: Run)
    ensures PlatformCalls(r.effects) ==
      if perms.manageMessages && RefersToMessage(reference) && !fetched.pinned then [PinMessage(fetched)] else []
    ensures !perms.manageMessages ==> r == Run(Denial(), None)
    ensures perms.manageMessages && !RefersToMessage(reference) ==>
      r == Run([React(Confused), Send("No message referenced.")], None)
    ensures perms.manageMessages && RefersToMessage(reference) && fetched.pinned ==>
      r == Run([React(Confused), Send("Message already pinned.")], None)
    ensures perms.manageMessages && RefersToMessage(reference) && !fetched.pinned ==>
      r == Run([PinMessage(fetched)], Failure(platform, PinMessage(fetched)))
  {
    if !perms.manageMessages then Run(Denial(), None)
    else if !RefersToMessage(reference) then Run([React(Confused), Send("No message referenced.")], None)
    else if fetched.pinned then Run([React(Confused), Send("Message already pinned.")], None)
    else Run([PinMessage(fetched)], Failure(platform, PinMessage(fetched)))
  }

  /** unpin: requires manage_messages; unpins the referenced message if it is pinned. */
  function Unpin(perms: Permissions, reference: Option<Reference>, fetched: Message, platform: Oracle): (r: Run)
    ensures PlatformCalls(r.effects) ==
      if perms.manageMessages && RefersToMessage(reference) && fetched.pinned then [UnpinMessage(fetched)] else []
    ensures !perms.manageMessages ==> r == Run(Denial(), None)
    ensures perms.manageMessages && !RefersToMessage(reference) ==>
      r == Run([React(Confused), Send("No message referenced.")], None)
    ensures perms.manageMessages && RefersToMessage(reference) && !fetched.pinned ==>
      r == Run([React(Confused), Send("Message not pinned.")], None)
    ensures perms.manageMessages && RefersToMessage(reference) && fetched.pinned ==>
      var c := UnpinMessage(fetched);
      r == if platform(c) == Done then Run([c, Send("Message unpinned.")], None) else Run([c], Failure(platform, c))
  {
    if !perms.manageMessages then Run(Denial(), None)
    else if !RefersToMessage(reference) then Run([React(Confused), Send("No message referenced.")], None)
    else if !fetched.pinned then Run([React(Confused), Send("Message not pinned.")], None)
    else
      var c := UnpinMessage(fetched);
      if platform(c) == Done then Run([c, Send("Message unpinned.")], None) else Run([c], Failure(platform, c))
  }
}
