/**
 * The slice of the Discord platform that the bot's command handlers see.
 *
 * A handler does not change anything of its own: what it does is the ordered
 * trace of its effects (reactions added to the command message, messages sent,
 * and calls into the platform such as ban, kick or move_to). Every platform
 * call can fail; whether it does is decided by an oracle, a total function
 * from the call to its result, supplied by the caller.
 */
module Platform {

  datatype Option<+T> = None | Some(value: T)

  /** A guild channel. */
  datatype Channel = Channel(id: int, name: string)

  /**
   * A guild member as a command sees it. Two members are the same member when
   * their ids agree (discord.py compares members by id). `voice` is the
   * channel of the member's voice state, None when the member has no voice
   * state or the state has no channel.
   */
  datatype Member = Member(id: int, name: string, mention: string, nick: Option<string>, voice: Option<Channel>)

  /** The guild permission flags the commands consult. */
  datatype Permissions = Permissions(
    banMembers: bool,
    kickMembers: bool,
    moveMembers: bool,
    muteMembers: bool,
    deafenMembers: bool,
    changeNickname: bool,
    manageMessages: bool)

  /** A message that a command can fetch, pin, unpin or delete. */
  datatype Message = Message(id: int, authorId: int, pinned: bool)

  /** The reply reference of a command message. */
  datatype Reference = Reference(messageId: Option<int>)

  /** Python's `ref and ref.message_id`: a reference whose message id is present and non-zero. */
  predicate RefersToMessage(reference: Option<Reference>)
  {
    reference.Some? && reference.value.messageId.Some? && reference.value.messageId.value != 0
  }

  /** The reactions the commands add: U+1F44E, U+1F615 and U+26A0. */
  datatype Reaction = ThumbsDown | Confused | Warning

  /** The member edits the moderation commands request. */
  datatype Edit = SetMute(mute: bool) | SetDeafen(deafen: bool) | SetNick(nick: string)

  /** One observable step of a command. */
  datatype Effect =
    | React(reaction: Reaction)
    | Send(text: string)
    | BanMember(target: Member)
    | KickMember(target: Member)
    | MoveTo(target: Member, channel: Channel)
    | EditMember(target: Member, edit: Edit)
    | CreateVoiceChannel(name: string)
    | DeleteChannel(channel: Channel)
    | PinMessage(message: Message)
    | UnpinMessage(message: Message)
    | DeleteMessage(message: Message)

  /** A platform call's result: success, discord.Forbidden, or another discord.HTTPException. */
  datatype CallResult = Done | Forbidden | HttpError

  /** The oracle that decides every platform call. */
  type Oracle = Effect -> CallResult

  /** An exception that escapes a command handler. */
  datatype Raised = PlatformError(result: CallResult) | NameError

  /** What a command did: its trace, and the exception that ended it, if one did. */
  datatype Run = Run(effects: seq<Effect>, raised: Option<Raised>)

  /** The exception a platform call raises, if it fails. */
  function Failure(platform: Oracle, c: Effect): (r: Option<Raised>)
    ensures r.None? <==> platform(c) == Done
  {
    if platform(c) == Done then None else Some(PlatformError(platform(c)))
  }

  predicate IsPlatformCall(e: Effect)
  {
    !e.React? && !e.Send?
  }

  /** The platform calls of a trace, in order. */
  function PlatformCalls(effects: seq<Effect>): (calls: seq<Effect>)
    ensures forall e :: e in calls <==> e in effects && IsPlatformCall(e)
  {
    if effects == [] then []
    else (if IsPlatformCall(effects[0]) then [effects[0]] else []) + PlatformCalls(effects[1..])
  }

  /** A reply made only of reactions and messages contains no platform call. */
  lemma {:induction false} ReplyHasNoCalls(reply: seq<Effect>)
    requires forall e :: e in reply ==> !IsPlatformCall(e)
    ensures PlatformCalls(reply) == []
  {
    if reply != [] {
      assert reply[0] in reply;
      ReplyHasNoCalls(reply[1..]);
    }
  }

  /** A call followed by such a reply: the call is the only platform call. */
  lemma CallThenReply(c: Effect, reply: seq<Effect>)
    requires IsPlatformCall(c)
    requires forall e :: e in reply ==> !IsPlatformCall(e)
    ensures PlatformCalls([c] + reply) == [c]
  {
    ReplyHasNoCalls(reply);
    assert ([c] + reply)[1..] == reply;
  }

  const LackAuthority := "You lack this authority!"

  /** The reply to an author who lacks the command's permission: a thumbs-down and the denial text. */
  function Denial(): (d: seq<Effect>)
    ensures PlatformCalls(d) == []
    ensures Send(LackAuthority) in d
  {
    assert PlatformCalls([Send(LackAuthority)]) == [];
    [React(ThumbsDown), Send(LackAuthority)]
  }

  /** The characters Python's str.split() treats as whitespace. */
  predicate IsSpace(c: char)
  {
    || ('\t' <= c <= '\r')
    || ('\U{1C}' <= c <= ' ')
    || c == '\U{85}' || c == '\U{A0}' || c == '\U{1680}'
    || ('\U{2000}' <= c <= '\U{200A}')
    || c == '\U{2028}' || c == '\U{2029}' || c == '\U{202F}' || c == '\U{205F}' || c == '\U{3000}'
  }

  predicate StartsWord(s: string, i: int)
    requires 0 <= i < |s|
  {
    !IsSpace(s[i]) && (i == 0 || IsSpace(s[i - 1]))
  }

  /** len(s.split()): the number of maximal runs of non-whitespace characters. */
  function WordCount(s: string): (n: nat)
  {
    if s == [] then 0 else WordCount(s[..|s| - 1]) + (if StartsWord(s, |s| - 1) then 1 else 0)
  }

  /** Some character of s is not whitespace. */
  ghost predicate HasWord(s: string)
  {
    exists i | 0 <= i < |s| :: !IsSpace(s[i])
  }

  /** After some non-whitespace character comes whitespace and then non-whitespace again. */
  ghost predicate HasSecondWord(s: string)
  {
    exists i, j, k | 0 <= i < j < k < |s| :: !IsSpace(s[i]) && IsSpace(s[j]) && !IsSpace(s[k])
  }

  lemma {:induction false} WordCountPositive(s: string)
    ensures WordCount(s) >= 1 <==> HasWord(s)
  {
    if s != [] {
      var n := |s|;
      var t := s[..n - 1];
      WordCountPositive(t);
      if WordCount(s) >= 1 {
        if WordCount(t) >= 1 {
          var i :| 0 <= i < |t| && !IsSpace(t[i]);
          assert s[i] == t[i];
        } else {
          assert !IsSpace(s[n - 1]);
        }
      }
      if HasWord(s) {
        var i :| 0 <= i < n && !IsSpace(s[i]);
        if i < n - 1 {
          assert t[i] == s[i];
        } else if !StartsWord(s, n - 1) {
          assert t[n - 2] == s[n - 2];
        }
      }
    }
  }

  /** `len(content.split()) > 1` holds exactly when the text has a second word. */
  lemma {:induction false} WordCountAboveOne(s: string)
    ensures WordCount(s) > 1 <==> HasSecondWord(s)
  {
    if s != [] {
      var t := s[..|s| - 1];
      WordCountAboveOne(t);
      WordCountPositive(t);
      if StartsWord(s, |s| - 1) {
        SecondWordAtEnd(s);
      } else {
        SecondWordNotAtEnd(s);
      }
    }
  }

  /** When the last character starts a word, s has a second word iff the rest has a first. */
  lemma SecondWordAtEnd(s: string)
    requires s != [] && StartsWord(s, |s| - 1)
    ensures HasSecondWord(s) <==> HasWord(s[..|s| - 1])
  {
  }

  /** When the last character does not start a word, it adds no second word. */
  lemma SecondWordNotAtEnd(s: string)
    requires s != [] && !StartsWord(s, |s| - 1)
    ensures HasSecondWord(s) <==> HasSecondWord(s[..|s| - 1])
  {
  }

  /** The display names of a list of members, in order. */
  function Names(members: seq<Member>): (names: seq<string>)
    ensures |names| == |members|
    ensures forall i :: 0 <= i < |members| ==> names[i] == members[i].name
  {
    if members == [] then [] else [members[0].name] + Names(members[1..])
  }

  /**
   * The reply of a command that found no mention: `unrecognized` when the
   * message has more than the command word, "No users mentioned." otherwise.
   */
  function NoMentionReply(unrecognized: string, content: string): (effects: seq<Effect>)
    ensures HasSecondWord(content) ==> effects == [React(Confused), Send(unrecognized)]
    ensures !HasSecondWord(content) ==> effects == [React(Confused), Send("No users mentioned.")]
  {
    WordCountAboveOne(content);
    if WordCount(content) > 1 then [React(Confused), Send(unrecognized)]
    else [React(Confused), Send("No users mentioned.")]
  }
}
