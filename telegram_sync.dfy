/** The Telegram client wrapper: display names, chat-id coercion, the user
    lookup with its fallback record, the webhook payloads built for
    incoming and outgoing messages and for join/leave chat actions, and the
    outcome of `start`. Sending a payload is output and is left to the
    caller. */
module TelegramSync {
  import opened Python
  import opened Entities

  /** `format_user_name`: `None` counts as `""`; the joined name is stripped. */
  function FormatUserName(first: Option<string>, last: Option<string>): string {
    Strip(OrEmpty(first) + " " + OrEmpty(last))
  }

  /** A name that `strip` leaves alone. */
  predicate Trimmed(s: string) {
    s != [] && s[0] !in Whitespace && s[|s| - 1] !in Whitespace
  }

  lemma StripDropsTrailingSpace(s: string)
    requires Trimmed(s)
    ensures Strip(s + " ") == s
  {
    var t := s + " ";
    assert LStrip(t, Whitespace) == t;
    assert t[..|t| - 1] == s;
    assert RStrip(t, Whitespace) == RStrip(s, Whitespace);
    StripSetNoop(s, Whitespace);
  }

  lemma StripDropsLeadingSpace(s: string)
    requires Trimmed(s)
    ensures Strip(" " + s) == s
  {
    var t := " " + s;
    assert t[1..] == s;
    assert LStrip(t, Whitespace) == LStrip(s, Whitespace) == s;
    StripSetNoop(s, Whitespace);
  }

  /** What `format_user_name` yields for each combination of present and
      missing names: both missing gives `""`, one missing gives the other,
      both present gives "first last". */
  lemma FormatUserNameCases(first: Option<string>, last: Option<string>)
    requires TruthyStr(first) ==> Trimmed(first.value)
    requires TruthyStr(last) ==> Trimmed(last.value)
    ensures !TruthyStr(first) && !TruthyStr(last) ==> FormatUserName(first, last) == ""
    ensures TruthyStr(first) && !TruthyStr(last) ==> FormatUserName(first, last) == first.value
    ensures !TruthyStr(first) && TruthyStr(last) ==> FormatUserName(first, last) == last.value
    ensures TruthyStr(first) && TruthyStr(last) ==> FormatUserName(first, last) == first.value + " " + last.value
  {
    var f := OrEmpty(first);
    var l := OrEmpty(last);
    if !TruthyStr(first) && !TruthyStr(last) {
      assert f + " " + l == " ";
      assert LStrip(" ", Whitespace) == LStrip([], Whitespace);
    } else if TruthyStr(first) && !TruthyStr(last) {
      assert f + " " + l == f + " ";
      StripDropsTrailingSpace(f);
    } else if !TruthyStr(first) && TruthyStr(last) {
      assert f + " " + l == " " + l;
      StripDropsLeadingSpace(l);
    } else {
      var s := f + " " + l;
      assert s[0] == f[0] && s[|s| - 1] == l[|l| - 1];
      StripSetNoop(s, Whitespace);
    }
  }

  /** The dash set of `strip('-')`. */
  const Dash: set<char> := {'-'}

  /** The chat-id coercion in `send_message` and `send_photo`: a string whose
      `strip('-')` is all digits is converted with `int()`, and kept as is
      when `int()` raises `ValueError`; anything else passes through. */
  function CoerceChatId(c: ChatId): ChatId {
    if c.StrId? && IsDigits(StripSet(c.s, Dash)) then
      match ParseInt(c.s)
      case Some(v) => IntId(v)
      case None => c
    else c
  }

  /** Every character of a string whose `strip('-')` is all digits is a
      digit or a dash. */
  lemma DigitsAndDashes(s: string)
    requires IsDigits(StripSet(s, Dash))
    ensures forall i :: 0 <= i < |s| ==> IsDigit(s[i]) || s[i] == '-'
  {
    var l := LStrip(s, Dash);
    var r := RStrip(l, Dash);
    LStripSpec(s, Dash);
    RStripSpec(l, Dash);
    var a := |s| - |l|;
    assert AllIn(s[..a], Dash);
    assert AllIn(l[|r|..], Dash);
    forall i | 0 <= i < |s| ensures IsDigit(s[i]) || s[i] == '-' {
      if i < a {
        assert s[..a][i] == s[i];
      } else if i < a + |r| {
        assert r[i - a] == s[i];
      } else {
        assert l[|r|..][i - a - |r|] == s[i];
      }
    }
  }

  /** Over digits and dashes, `int()` accepts exactly the plain and the
      minus-signed digit strings. */
  lemma DashDigitParse(s: string)
    requires s != [] && forall i :: 0 <= i < |s| ==> IsDigit(s[i]) || s[i] == '-'
    ensures ParseInt(s).Some? <==> IsDigits(s) || (s[0] == '-' && IsDigits(s[1..]))
  {
    DigitOrDashNotSpace(s[0]);
    DigitOrDashNotSpace(s[|s| - 1]);
    StripSetNoop(s, Whitespace);
    ParseDashDigits(s);
  }

  /** `strip('-')` leaves digits alone and drops one leading minus. */
  lemma DashStripOfNumber(s: string)
    ensures IsDigits(s) ==> StripSet(s, Dash) == s
    ensures |s| > 1 && s[0] == '-' && IsDigits(s[1..]) ==> StripSet(s, Dash) == s[1..]
  {
    if IsDigits(s) {
      StripSetNoop(s, Dash);
    }
    if |s| > 1 && s[0] == '-' && IsDigits(s[1..]) {
      var b := s[1..];
      assert b[|b| - 1] == s[|s| - 1];
      assert b[0] !in Dash && b[|b| - 1] !in Dash;
      assert LStrip(s, Dash) == LStrip(b, Dash) == b;
      StripSetNoop(b, Dash);
    }
  }

  /** Exactly which strings the coercion turns into integers: plain digits,
      or one leading minus then digits. Stray or doubled dashes ("12-",
      "--5") keep the string, and so does every non-numeric name. */
  lemma CoerceChatIdSpec(s: string)
    ensures var r := CoerceChatId(StrId(s));
      (r.IntId? <==> IsDigits(s) || (|s| > 1 && s[0] == '-' && IsDigits(s[1..])))
      && (r.IntId? ==> ParseInt(s) == Some(r.i))
      && (r.StrId? ==> r == StrId(s))
  {
    var r := CoerceChatId(StrId(s));
    DashStripOfNumber(s);
    if IsDigits(StripSet(s, Dash)) {
      DigitsAndDashes(s);
      DashDigitParse(s);
      assert r.IntId? <==> ParseInt(s).Some?;
    } else {
      assert r == StrId(s);
    }
  }

  /** Integers survive being sent as their decimal text. */
  lemma CoerceDecimalText(i: int)
    ensures CoerceChatId(StrId(IntToStr(i))) == IntId(i)
  {
    var s := IntToStr(i);
    IntToStrRoundTrip(i);
    CoerceChatIdSpec(s);
    var n: nat := if i < 0 then -i else i;
    if i < 0 {
      assert s[1..] == NatToStr(n);
    }
  }

  /** A stray trailing dash keeps the text. */
  lemma CoerceKeepsStrayDash()
    ensures CoerceChatId(StrId("12-")) == StrId("12-")
  {
    var a := "12-";
    CoerceChatIdSpec(a);
    assert !IsDigit(a[2]);
  }

  /** A doubled minus keeps the text. */
  lemma CoerceKeepsDoubledMinus()
    ensures CoerceChatId(StrId("--5")) == StrId("--5")
  {
    var b := "--5";
    CoerceChatIdSpec(b);
    assert !IsDigit(b[0]) && b[1..][0] == '-';
  }

  /** A group id in text becomes the negative integer. */
  lemma CoerceNegativeGroupId()
    ensures CoerceChatId(StrId("-1001")) == IntId(-1001)
  {
    assert DigitChar(0) == '0' && DigitChar(1) == '1';
    assert NatToStr(1) == "1";
    assert NatToStr(10) == NatToStr(1) + "0";
    assert NatToStr(100) == NatToStr(10) + "0";
    assert NatToStr(1001) == NatToStr(100) + "1";
    assert IntToStr(-1001) == "-1001";
    CoerceDecimalText(-1001);
  }

  /** The `send_file` call `send_photo` makes. */
  datatype SendFileCall = SendFileCall(entity: ChatId, file: string, caption: Option<string>, parseMode: Option<string>)

  /** `send_photo`: the coerced chat id, and the caption and parse mode
      forwarded unchanged. */
  function SendPhoto(chat: ChatId, photoUrl: string, caption: Option<string>, parseMode: Option<string>): (call: SendFileCall)
    ensures call.file == photoUrl && call.caption == caption && call.parseMode == parseMode
    ensures call.entity == CoerceChatId(chat)
  {
    SendFileCall(CoerceChatId(chat), photoUrl, caption, parseMode)
  }

  /** The dictionary `get_user_info` returns; `id` is `None` when the caller
      passed `None`. */
  datatype UserInfo = UserInfo(id: Option<int>, firstName: Option<string>, lastName: Option<string>, username: Option<string>)

  /** `get_user_info`: the looked-up entity's attributes (a missing one reads
      as `''`), or, when the lookup fails, the caller's id with empty names. */
  function GetUserInfo(userId: Option<int>, lookup: Option<Entity>): (info: UserInfo)
    ensures lookup.None? ==> info == UserInfo(userId, Some(""), Some(""), Some(""))
    ensures lookup.Some? ==> info.id == Some(lookup.value.id)
  {
    match lookup
    case None => UserInfo(userId, Some(""), Some(""), Some(""))
    case Some(e) => UserInfo(Some(e.id), AttrOr(e.firstName, ""), AttrOr(e.lastName, ""), AttrOr(e.username, ""))
  }

  /** `str(x)` for an optional integer. */
  function OptIdStr(x: Option<int>): string {
    match x
    case None => "None"
    case Some(i) => IntToStr(i)
  }

  /** A new-message event as the handlers see it. `chatTitle` is `None`
      when the chat has no `title` attribute (a private chat). */
  datatype MessageEvent = MessageEvent(senderId: Option<int>, chatId: int, chatTitle: Option<string>,
                                       isPrivate: bool, text: string)

  /** The webhook body for a message (its timestamp is left out). */
  datatype MessagePayload = MessagePayload(eventType: string, userId: string, userName: string,
                                           username: Option<string>, chatId: string, chatName: string,
                                           isPrivate: bool, direction: string, message: string)

  function ChatTitle(title: Option<string>, default: string): string {
    match title
    case None => default
    case Some(t) => t
  }

  /** `handle_incoming_message`. */
  function IncomingPayload(ev: MessageEvent, lookup: Option<Entity>): (p: MessagePayload)
    ensures p.direction == "incoming" && p.eventType == "new_message"
    ensures p.chatId == IntToStr(ev.chatId) && p.message == ev.text && p.isPrivate == ev.isPrivate
    ensures p.username.Some?
    ensures p.chatName == ChatTitle(ev.chatTitle, "Direct Message")
    ensures ev.chatTitle.None? ==> p.chatName == "Direct Message"
  {
    var sender := GetUserInfo(ev.senderId, lookup);
    MessagePayload("new_message", OptIdStr(sender.id), FormatUserName(sender.firstName, sender.lastName),
                   Some(OrEmpty(sender.username)), IntToStr(ev.chatId), ChatTitle(ev.chatTitle, "Direct Message"),
                   ev.isPrivate, "incoming", ev.text)
  }

  /** Who sent an incoming message: the looked-up id, or the event's own
      sender id when the lookup fails (`str(None)` when there is none); the
      username is never `None`. */
  lemma IncomingSender(ev: MessageEvent, lookup: Option<Entity>)
    ensures var p := IncomingPayload(ev, lookup);
      && (lookup.Some? ==> p.userId == IntToStr(lookup.value.id))
      && (lookup.None? ==> p.userId == OptIdStr(ev.senderId) && p.userName == "" && p.username == Some(""))
      && (lookup.None? && ev.senderId.None? ==> p.userId == "None")
  {
    if lookup.None? {
      FormatUserNameCases(Some(""), Some(""));
    }
  }

  /** For a sender the lookup finds, the payload's names are the entity's
      own: `user_name` is the formatted first and last name and `username`
      its username, each read as `''` when absent or `None`. These are the
      same texts the chat list shows for a user. */
  lemma IncomingFoundSender(ev: MessageEvent, e: Entity)
    ensures var p := IncomingPayload(ev, Some(e));
      && p.userName == FormatUserName(Some(AttrText(e.firstName)), Some(AttrText(e.lastName)))
      && p.username == Some(AttrText(e.username))
      && (!AttrTruthy(e.username) ==> p.username == Some(""))
  {
    AttrOrText(e.firstName, "");
    AttrOrText(e.lastName, "");
    AttrOrText(e.username, "");
  }

  /** `handle_outgoing_message`: defaults first, then the peer's details for a
      private chat whose peer lookup succeeds. `peerUserId` is `None` when
      the message's peer has no `user_id`, which the handler swallows.
      Unlike the incoming payload, a peer without a username gives `None`. */
  method OutgoingPayload(ev: MessageEvent, peerUserId: Option<int>, lookup: Option<Entity>) returns (p: MessagePayload)
    ensures p.direction == "outgoing" && p.eventType == "new_message"
    ensures p.chatId == IntToStr(ev.chatId) && p.chatName == ChatTitle(ev.chatTitle, "Direct Message")
    ensures p.message == ev.text && p.isPrivate == ev.isPrivate
    ensures !(ev.isPrivate && peerUserId.Some?) ==>
      p.userId == IntToStr(ev.chatId) && p.userName == p.chatName && p.username == Some("")
    ensures ev.isPrivate && peerUserId.Some? ==>
      var info := GetUserInfo(peerUserId, lookup);
      p.userId == IntToStr(peerUserId.value) && p.userName == FormatUserName(info.firstName, info.lastName)
      && p.username == info.username
  {
    var chatTitle := ChatTitle(ev.chatTitle, "Direct Message");
    var userName := chatTitle;
    var username: Option<string> := Some("");
    var userId := IntToStr(ev.chatId);
    if ev.isPrivate && peerUserId.Some? {
      var peer := GetUserInfo(peerUserId, lookup);
      userName := FormatUserName(peer.firstName, peer.lastName);
      username := peer.username;
      userId := IntToStr(peerUserId.value);
    }
    p := MessagePayload("new_message", userId, userName, username, IntToStr(ev.chatId), chatTitle,
                        ev.isPrivate, "outgoing", ev.text);
  }

  /** A chat action event: the four flags Telethon sets, the listed user
      ids, and the single `user_id` (`None` when absent). */
  datatype ChatActionEvent = ChatActionEvent(userJoined: bool, userAdded: bool, userLeft: bool, userKicked: bool,
                                             chatId: int, chatTitle: Option<string>,
                                             userIds: seq<int>, userId: Option<int>)

  /** The `joined_user` / `left_user` object. */
  datatype ActionUser = ActionUser(id: string, firstName: Option<string>, lastName: Option<string>, username: Option<string>)

  datatype ActionPayload = ActionPayload(eventType: string, chatId: string, chatName: string, user: ActionUser)

  /** The ids a chat action reports on: the listed ones, else the single
      truthy `user_id`, else none. */
  function ActionUserIds(ev: ChatActionEvent): (ids: seq<int>)
    ensures ev.userIds != [] ==> ids == ev.userIds
    ensures ev.userIds == [] && ev.userId.Some? && ev.userId.value != 0 ==> ids == [ev.userId.value]
    ensures ev.userIds == [] && !(ev.userId.Some? && ev.userId.value != 0) ==> ids == []
  {
    if ev.userIds != [] then ev.userIds
    else if ev.userId.Some? && ev.userId.value != 0 then [ev.userId.value]
    else []
  }

  /** The payload for one user of a chat action. */
  function ActionPayloadFor(eventType: string, ev: ChatActionEvent, uid: int, lookup: map<int, Entity>): ActionPayload {
    var l := if uid in lookup then Some(lookup[uid]) else None;
    var info := GetUserInfo(Some(uid), l);
    ActionPayload(eventType, IntToStr(ev.chatId), ChatTitle(ev.chatTitle, "(Chat Desconhecido)"),
                  ActionUser(OptIdStr(info.id), info.firstName, info.lastName, info.username))
  }

  /** The chat actions `handle_chat_action` reports. */
  predicate ActionReported(ev: ChatActionEvent) {
    ev.userJoined || ev.userAdded || ev.userLeft || ev.userKicked
  }

  /** A join or add is checked first; a leave or kick is the other kind. */
  function ActionKind(ev: ChatActionEvent): string {
    if ev.userJoined || ev.userAdded then "user_joined" else "user_left"
  }

  /** `handle_chat_action`: one payload per reported user id, in order, for
      a join or add (checked first) or a leave or kick; `lookup` holds the
      entities `get_entity` finds. */
  method ChatActionPayloads(ev: ChatActionEvent, lookup: map<int, Entity>) returns (payloads: seq<ActionPayload>)
    ensures !ActionReported(ev) ==> payloads == []
    ensures ActionReported(ev) && ev.userIds != [] ==>
      |payloads| == |ev.userIds|
      && forall k :: 0 <= k < |ev.userIds| ==> payloads[k] == ActionPayloadFor(ActionKind(ev), ev, ev.userIds[k], lookup)
    ensures ActionReported(ev) && ev.userIds == [] && ev.userId.Some? && ev.userId.value != 0 ==>
      payloads == [ActionPayloadFor(ActionKind(ev), ev, ev.userId.value, lookup)]
    ensures ActionReported(ev) && ev.userIds == [] && !(ev.userId.Some? && ev.userId.value != 0) ==> payloads == []
    ensures ActionReported(ev) ==>
      var ids := ActionUserIds(ev);
      |payloads| == |ids|
      && forall k :: 0 <= k < |ids| ==> payloads[k] == ActionPayloadFor(ActionKind(ev), ev, ids[k], lookup)
  {
    payloads := [];
    if !ActionReported(ev) {
      return;
    }
    var kind := ActionKind(ev);
    var ids := ActionUserIds(ev);
    for k := 0 to |ids|
      invariant |payloads| == k
      invariant forall j :: 0 <= j < k ==> payloads[j] == ActionPayloadFor(kind, ev, ids[j], lookup)
    {
      var p := ActionPayloadFor(kind, ev, ids[k], lookup);
      payloads := payloads + [p];
    }
  }

  /** Each chat-action payload names the user it is about. */
  lemma ActionPayloadNamesUser(eventType: string, ev: ChatActionEvent, uid: int, lookup: map<int, Entity>)
    requires uid in lookup ==> lookup[uid].id == uid
    ensures var p := ActionPayloadFor(eventType, ev, uid, lookup);
      p.user.id == IntToStr(uid) && p.chatId == IntToStr(ev.chatId)
      && (uid !in lookup ==> p.user.firstName == Some("") && p.user.lastName == Some("") && p.user.username == Some(""))
  {
  }

  /** The `password` argument `start` hands to the client: its wrapper
      when a password callback was given, otherwise `None`. */
  datatype PasswordArg = NoPassword | PasswordWrapper

  function PasswordArgFor(hasPasswordCallback: bool): PasswordArg {
    if hasPasswordCallback then PasswordWrapper else NoPassword
  }

  /** Calling the wrapper: the callback's answer, or the `RuntimeError` it
      raises when there is no callback. */
  datatype WrapperResult = CallbackAnswer | MissingCallbackError

  function CallWrapper(hasPasswordCallback: bool): WrapperResult {
    if hasPasswordCallback then CallbackAnswer else MissingCallbackError
  }

  /** The wrapper is handed over only together with a callback, so the
      client can never make it raise its `RuntimeError`. */
  lemma WrapperHasCallback(hasPasswordCallback: bool)
    ensures PasswordArgFor(hasPasswordCallback) == PasswordWrapper ==> CallWrapper(hasPasswordCallback) == CallbackAnswer
    ensures PasswordArgFor(hasPasswordCallback) == NoPassword <==> !hasPasswordCallback
  {
  }

  /** The client calls `start` awaits, in order. */
  datatype ClientCall = ClientStart | IsUserAuthorized | GetMe

  /** What `start` reports: `True`, `False`, or the exception it re-raises. */
  datatype StartOutcome = Authorized | NotAuthorized | Raised

  /** The calls `start` made and what it reported. */
  datatype StartRun = StartRun(calls: seq<ClientCall>, outcome: StartOutcome)

  /** `start`: `raises` says which client calls raise and `authorized` what
      `is_user_authorized` answers. Every exception is logged and re-raised. */
  function StartResult(raises: ClientCall -> bool, authorized: bool): (r: StartRun)
    ensures r.calls != []
  {
    if raises(ClientStart) then StartRun([ClientStart], Raised)
    else if raises(IsUserAuthorized) then StartRun([ClientStart, IsUserAuthorized], Raised)
    else if !authorized then StartRun([ClientStart, IsUserAuthorized], NotAuthorized)
    else if raises(GetMe) then StartRun([ClientStart, IsUserAuthorized, GetMe], Raised)
    else StartRun([ClientStart, IsUserAuthorized, GetMe], Authorized)
  }

  /** The calls are made in order and stop at the first that raises; `start`
      raises exactly when its last call did, so no failure is turned into
      `False`; it returns `True` only after `get_me` returned, and `False`
      only when the account is not authorized. */
  lemma StartResultSpec(raises: ClientCall -> bool, authorized: bool)
    ensures var r := StartResult(raises, authorized);
      && r.calls <= [ClientStart, IsUserAuthorized, GetMe]
      && (forall k :: 0 <= k < |r.calls| - 1 ==> !raises(r.calls[k]))
      && (r.outcome == Raised <==> raises(r.calls[|r.calls| - 1]))
      && (GetMe in r.calls <==> !raises(ClientStart) && !raises(IsUserAuthorized) && authorized)
      && (r.outcome == Authorized <==> GetMe in r.calls && !raises(GetMe))
      && (r.outcome == NotAuthorized <==> !raises(ClientStart) && !raises(IsUserAuthorized) && !authorized)
  {
  }
}
