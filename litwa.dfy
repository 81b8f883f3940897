/**
 * The social cog of cogs/litwa.py (class Litwa): user_chain, the greetings
 * bontibi, gaeree and momtibi, which choose singular or plural wording by
 * the number of users, and `1984`, which deletes a referenced message for
 * its author or a member with manage_messages.
 */
module Litwa {
  import opened Platform
  import Joiner

  function Mentions(users: seq<Member>): (tags: seq<string>)
    ensures |tags| == |users|
    ensures forall i :: 0 <= i < |users| ==> tags[i] == users[i].mention
  {
    if users == [] then [] else [users[0].mention] + Mentions(users[1..])
  }

  /** user_chain: the users' mentions, joined grammatically; "" for no users. */
  method UserChain(users: seq<Member>) returns (s: string)
    ensures s == Joiner.Joined(Mentions(users))
    ensures users == [] ==> s == ""
    ensures |users| == 1 ==> s == users[0].mention
    ensures |users| == 2 ==> s == users[0].mention + " and " + users[1].mention
    ensures |users| == 3 ==> s == users[0].mention + ", " + users[1].mention + ", and " + users[2].mention
  {
    s := Joiner.AppendChain("", Mentions(users));
    Joiner.JoinedBySize(Mentions(users));
  }

  /** The reply of bontibi and gaeree when the message mentions nobody. */
  function Unmentioned(content: string): (effects: seq<Effect>)
  {
    NoMentionReply("Unrecognized user(s).", content)
  }

  /**
   * bontibi: with mentions, greets the converted users: "Bontibi, X!" for one
   * (the author when the conversion yields none), "Bonivobis, <chain>!" for
   * several.
   */
  function Bontibi(author: Member, mentions: seq<Member>, users: seq<Member>, content: string): (effects: seq<Effect>)
    ensures mentions == [] ==> effects == Unmentioned(content)
    ensures mentions != [] ==> |effects| == 1 && effects[0].Send?
    ensures mentions != [] && |users| <= 1 ==>
      effects == [Send("Bontibi, " + (if users == [] then author else users[0]).mention + "!")]
    ensures mentions != [] && |users| > 1 ==> effects == [Send("Bonivobis, " + Joiner.Joined(Mentions(users)) + "!")]
  {
    Joiner.ChainIsJoined(Mentions(users));
    if mentions != [] then
      if |users| == 1 then [Send("Bontibi, " + users[0].mention + "!")]
      else if |users| > 1 then [Send("Bonivobis, " + Joiner.Chain(Mentions(users)) + "!")]
      else [Send("Bontibi, " + author.mention + "!")]
    else Unmentioned(content)
  }

  /** gaeree: "X is gaeree!" for one user (the author when none), "<chain> are gaeree!" for several. */
  function Gaeree(author: Member, mentions: seq<Member>, users: seq<Member>, content: string): (effects: seq<Effect>)
    ensures mentions == [] ==> effects == Unmentioned(content)
    ensures mentions != [] ==> |effects| == 1 && effects[0].Send?
    ensures mentions != [] && |users| <= 1 ==>
      effects == [Send((if users == [] then author else users[0]).mention + " is gaeree!")]
    ensures mentions != [] && |users| > 1 ==> effects == [Send(Joiner.Joined(Mentions(users)) + " are gaeree!")]
  {
    Joiner.ChainIsJoined(Mentions(users));
    if mentions != [] then
      if |users| == 1 then [Send(users[0].mention + " is gaeree!")]
      else if |users| > 1 then [Send(Joiner.Chain(Mentions(users)) + " are gaeree!")]
      else [Send(author.mention + " is gaeree!")]
    else Unmentioned(content)
  }

  /**
   * momtibi: addresses the mentions, "<X> momtibi gaeree lol" for one and
   * "<chain> momsvobis gaeree lmfao" for several; with no mention it targets
   * the author when only the command word was given, and otherwise answers
   * "Unrecognized user(s).".
   */
  function Momtibi(author: Member, mentions: seq<Member>, content: string): (effects: seq<Effect>)
    ensures |mentions| == 1 ==> effects == [Send(mentions[0].mention + " momtibi gaeree lol")]
    ensures |mentions| > 1 ==> effects == [Send(Joiner.Joined(Mentions(mentions)) + " momsvobis gaeree lmfao")]
    ensures mentions == [] && HasSecondWord(content) ==> effects == [React(Confused), Send("Unrecognized user(s).")]
    ensures mentions == [] && !HasSecondWord(content) ==> effects == [Send(author.mention + " momtibi gaeree lol")]
  {
    Joiner.ChainIsJoined(Mentions(mentions));
    WordCountAboveOne(content);
    if mentions != [] then
      if |mentions| == 1 then [Send(mentions[0].mention + " momtibi gaeree lol")]
      else [Send(Joiner.Chain(Mentions(mentions)) + " momsvobis gaeree lmfao")]
    else if WordCount(content) > 1 then [React(Confused), Send("Unrecognized user(s).")]
    else [Send(author.mention + " momtibi gaeree lol")]
  }

  /** `1984`'s rule: the message's author, or anyone with manage_messages, may delete it. */
  predicate MayDelete(author: Member, perms: Permissions, target: Message)
  {
    author.id == target.authorId || perms.manageMessages
  }

  /**
   * `1984`: deletes the referenced message, here `fetched`, the message
   * fetch_message returns for the reference, when the author may; a failed
   * delete escapes.
   */
  function Orwell(author: Member, perms: Permissions, reference: Option<Reference>, fetched: Message, platform: Oracle): (r: Run)
    ensures PlatformCalls(r.effects) ==
      if RefersToMessage(reference) && MayDelete(author, perms, fetched) then [DeleteMessage(fetched)] else []
    ensures !RefersToMessage(reference) ==> r == Run([React(Confused), Send("No message referenced.")], None)
    ensures RefersToMessage(reference) && !MayDelete(author, perms, fetched) ==> r == Run(Denial(), None)
    ensures RefersToMessage(reference) && MayDelete(author, perms, fetched) ==>
      && r.effects == [DeleteMessage(fetched)]
      && (r.raised.None? <==> platform(DeleteMessage(fetched)) == Done)
  {
    if !RefersToMessage(reference) then Run([React(Confused), Send("No message referenced.")], None)
    else if MayDelete(author, perms, fetched) then
      var c := DeleteMessage(fetched);
      Run([c], Failure(platform, c))
    else Run(Denial(), None)
  }
}
