/** Sending from the asyncio server: the chat-id conversion of
    `send_message_logic`, and `send_photo_logic` with its parse-mode
    normalisation, its own chat-id coercion and its mapping of failures to
    HTTP status codes. The Telethon calls are taken as given outcomes. */
module SendPhoto {
  import opened Python
  import opened Entities

  /** An `HTTPException`: status code and detail text. */
  datatype HttpError = HttpError(status: int, detail: string)

  datatype Result<+T> = Ok(value: T) | Err(error: HttpError)

  /** `str(exc)` for an `HTTPException`: "<code>: <detail>". */
  function HttpErrorText(e: HttpError): string {
    IntToStr(e.status) + ": " + e.detail
  }

  /** `str(chat_id)` for the `str | int` request field. */
  function ChatText(c: ChatId): string {
    match c
    case IntId(i) => IntToStr(i)
    case StrId(s) => s
  }

  /** `int(chat_id)` in `send_message_logic`, keeping the original on
      `ValueError`. */
  function SendMessageTarget(c: ChatId): ChatId {
    match c
    case IntId(_) => c
    case StrId(s) => match ParseInt(s) case Some(v) => IntId(v) case None => c
  }

  /** The target is an integer exactly when the id was one or its text is
      a Python integer literal, and then it is that integer; other text is
      kept. Converting twice is converting once. */
  lemma SendMessageTargetSpec(c: ChatId)
    ensures var r := SendMessageTarget(c);
      && (r.IntId? <==> c.IntId? || ParseInt(c.s).Some?)
      && (c.StrId? && r.IntId? ==> ParseInt(c.s) == Some(r.i))
      && (r.StrId? ==> r == c)
      && SendMessageTarget(r) == r
  {
  }

  /** The decimal text of an integer is sent to that integer. */
  lemma SendMessageTargetDecimal(i: int)
    ensures SendMessageTarget(StrId(IntToStr(i))) == IntId(i)
  {
    IntToStrRoundTrip(i);
  }

  /** What the client's `send_message` or `send_file` did: the sent
      message's `id` attribute, or the error it raised. `text` is `str(e)`;
      `rpcMessage` is the error's `message` attribute, which Telegram RPC
      errors carry. */
  datatype SendOutcome =
    | Sent(messageId: Option<int>)
    | Forbidden(text: string)
    | UserIsBlocked(text: string)
    | Failed(text: string, rpcMessage: Option<string>)

  /** The `send_message` call that is made: the converted target and the
      text. */
  datatype MessageCall = MessageCall(target: ChatId, text: string)

  /** `send_message_logic`: the message goes to the converted chat id;
      `sendOf` is what the client does with a call, and any failure
      becomes a 500. */
  function SendMessageLogic(hasClient: bool, chat: ChatId, message: string,
                            sendOf: MessageCall -> SendOutcome): (r: Result<Option<int>>)
    ensures !hasClient ==> r == Err(HttpError(500, "Cliente Telegram não inicializado"))
    ensures var outcome := sendOf(MessageCall(SendMessageTarget(chat), message));
      && (hasClient && outcome.Sent? ==> r == Ok(outcome.messageId))
      && (hasClient && !outcome.Sent? ==> r.Err? && r.error.detail == "Erro ao enviar mensagem: " + outcome.text)
    ensures r.Err? ==> r.error.status == 500
  {
    if !hasClient then Err(HttpError(500, "Cliente Telegram não inicializado"))
    else match sendOf(MessageCall(SendMessageTarget(chat), message))
      case Sent(id) => Ok(id)
      case Forbidden(t) => Err(HttpError(500, "Erro ao enviar mensagem: " + t))
      case UserIsBlocked(t) => Err(HttpError(500, "Erro ao enviar mensagem: " + t))
      case Failed(t, _) => Err(HttpError(500, "Erro ao enviar mensagem: " + t))
  }

  /** Sending to the decimal text of an integer is sending to the integer. */
  lemma SendMessageDecimalText(hasClient: bool, i: int, message: string, sendOf: MessageCall -> SendOutcome)
    ensures SendMessageLogic(hasClient, StrId(IntToStr(i)), message, sendOf)
      == SendMessageLogic(hasClient, IntId(i), message, sendOf)
  {
    SendMessageTargetDecimal(i);
  }

  /** `parse_mode_str.lower()` if that is `markdown` or `html`, else `None`. */
  function NormaliseParseMode(p: Option<string>): (r: Option<string>)
    ensures r.Some? <==> TruthyStr(p) && (Lower(p.value) == "markdown" || Lower(p.value) == "html")
    ensures r.Some? ==> r.value == Lower(p.value)
    ensures r == None || r == Some("markdown") || r == Some("html")
  {
    if TruthyStr(p) && Lower(p.value) in ["markdown", "html"] then Some(Lower(p.value)) else None
  }

  /** Parse-mode names are accepted in any letter case. */
  lemma ParseModeAnyCase()
    ensures NormaliseParseMode(Some("HTML")) == Some("html")
    ensures NormaliseParseMode(Some("Markdown")) == Some("markdown")
    ensures NormaliseParseMode(Some("md")) == None
  {
    assert Lower("HTML") == "html";
    assert Lower("Markdown") == "markdown";
    assert Lower("md") == "md";
  }

  const Dash: set<char> := {'-'}

  /** `chat_id.strip().lstrip('-').isdigit()` then `int(chat_id)`, keeping the
      original when `int()` raises `ValueError`; an `int` passes through. */
  function CoerceEntityId(c: ChatId): ChatId {
    if c.StrId? && IsDigits(LStrip(Strip(c.s), Dash)) then
      match ParseInt(c.s)
      case Some(v) => IntId(v)
      case None => c
    else c
  }

  /** Digits after the leading minus signs: the whole text is digits and
      minus signs, and a second minus sign follows a first. */
  lemma DashesThenDigits(t: string)
    requires IsDigits(LStrip(t, Dash))
    ensures t != []
    ensures forall i :: 0 <= i < |t| ==> IsDigit(t[i]) || t[i] == '-'
    ensures |t| - |LStrip(t, Dash)| > 1 ==> t[1] == '-'
  {
    LStripSpec(t, Dash);
    var l := LStrip(t, Dash);
    var a := |t| - |l|;
    assert AllIn(t[..a], Dash);
    forall i | 0 <= i < |t| ensures IsDigit(t[i]) || t[i] == '-' {
      if i < a {
        assert t[..a][i] == t[i];
      } else {
        assert l[i - a] == t[i];
      }
    }
    if a > 1 {
      assert t[..a][1] == t[1];
    }
  }

  /** A plain or minus-signed digit string is unchanged by, or loses its one
      minus sign to, `lstrip('-')`. */
  lemma LStripOfNumber(t: string)
    ensures IsDigits(t) ==> LStrip(t, Dash) == t
    ensures |t| > 1 && t[0] == '-' && IsDigits(t[1..]) ==> LStrip(t, Dash) == t[1..]
  {
    if |t| > 1 && t[0] == '-' && IsDigits(t[1..]) {
      assert t[1..][0] == t[1];
      assert LStrip(t, Dash) == LStrip(t[1..], Dash);
    }
  }

  /** Behind the `lstrip('-').isdigit()` guard, `int()` of the stripped text
      succeeds exactly for a plain or minus-signed number: by the number of
      leading minus signs, none, one, or two and more. */
  lemma GuardedParse(t: string)
    requires IsDigits(LStrip(t, Dash))
    ensures ParseStripped(t).Some? <==> IsDigits(t) || (|t| > 1 && t[0] == '-' && IsDigits(t[1..]))
  {
    LStripSpec(t, Dash);
    var l := LStrip(t, Dash);
    var a := |t| - |l|;
    assert l == t[a..];
    if a == 0 {
      assert t == l;
      DigitsValue(t);
      assert IsDigit(t[0]);
    } else {
      assert t[..a][0] == t[0];
      assert !IsDigits(t);
      if a == 1 {
        assert t[1..] == l;
        DigitsValue(l);
      } else {
        assert t[..a][1] == t[1];
        assert t[1..][0] == '-';
        assert !DigitBody(t[1..]);
      }
    }
  }

  /** Exactly which strings become integers: after stripping blanks, plain
      digits or one leading minus then digits ("--5" keeps the text). */
  lemma CoerceEntityIdSpec(s: string)
    ensures var r := CoerceEntityId(StrId(s)); var t := Strip(s);
      (r.IntId? <==> IsDigits(t) || (|t| > 1 && t[0] == '-' && IsDigits(t[1..])))
      && (r.IntId? ==> ParseInt(s) == Some(r.i))
      && (r.StrId? ==> r == StrId(s))
  {
    var t := Strip(s);
    assert ParseInt(s) == ParseStripped(t);
    if IsDigits(LStrip(t, Dash)) {
      GuardedParse(t);
    } else {
      LStripOfNumber(t);
    }
  }

  lemma StripBlankFive()
    ensures Strip(" 5") == "5"
  {
    var s := " 5";
    assert s[0] in Whitespace;
    assert s[1..] == "5";
    assert '5' !in Whitespace;
    assert LStrip(s, Whitespace) == "5";
    assert RStrip("5", Whitespace) == "5";
  }

  lemma ParseBlankFive()
    ensures ParseInt(" 5") == Some(5)
  {
    StripBlankFive();
    assert NatToStr(5) == "5" by { assert DigitChar(5) == '5'; }
    NatToStrValue(5);
    ParseDigitsValue(NatToStr(5));
  }

  /** Unlike the client wrapper, this coercion strips surrounding blanks
      first, so " 5" is the integer 5 here. */
  lemma CoerceEntityIdBlanks()
    ensures CoerceEntityId(StrId(" 5")) == IntId(5)
  {
    StripBlankFive();
    ParseBlankFive();
    CoerceEntityIdSpec(" 5");
    assert IsDigits("5") by { assert IsDigit("5"[0]); }
  }

  /** What `get_entity` did. */
  datatype Lookup =
    | Found(entity: Entity)
    | LookupValueError(text: string)
    | LookupTypeError(text: string)
    | LookupError(text: string)

  const DownloadFailure: string := "Could not download file from URL"
  const EntityNotFound: string := "Entity not found"

  /** The catch-all at the end of `send_photo_logic`. */
  function CatchAll(chatText: string, photoUrl: string, text: string, rpcMessage: Option<string>): (e: HttpError)
    ensures e.status in {400, 404, 500}
    ensures e.status == 400 <==> Contains(text, DownloadFailure)
    ensures e.status == 404 <==> !Contains(text, DownloadFailure) && Contains(text, EntityNotFound)
  {
    if Contains(text, DownloadFailure) then
      HttpError(400, "Erro ao baixar imagem da URL fornecida: " + photoUrl)
    else if Contains(text, EntityNotFound) then
      HttpError(404, "Chat ID '" + chatText + "' não encontrado.")
    else
      var msg := match rpcMessage case Some(m) => m case None => text;
      HttpError(500, "Erro ao enviar foto: " + msg)
  }

  /** `f"{prefix}'{text}'{suffix}"` */
  function Quoted(prefix: string, text: string, suffix: string): string {
    prefix + ['\''] + text + ['\''] + suffix
  }

  const NotFoundSuffix: string := " não encontrado ou inválido."
  const BadTypeSuffix: string := " inválido para get_entity."

  /** The `HTTPException` each failed lookup raises inside the outer `try`. */
  function LookupException(chatText: string, l: Lookup): HttpError
    requires !l.Found?
  {
    match l
    case LookupValueError(_) => HttpError(404, Quoted("Chat ID ", chatText, NotFoundSuffix))
    case LookupTypeError(_) => HttpError(400, Quoted("Tipo de Chat ID ", chatText, BadTypeSuffix))
    case LookupError(t) => HttpError(500, Quoted("Erro ao verificar Chat ID ", chatText, ": " + t))
  }

  /** The `send_file` call that is made. */
  datatype PhotoCall = PhotoCall(entity: Entity, file: string, caption: string, parseMode: Option<string>)

  /** The call made once the lookup succeeds: the entity found, the URL,
      `caption or ''` and the normalised parse mode. */
  function PhotoCallOf(found: Entity, photoUrl: string, caption: Option<string>, parseMode: Option<string>): PhotoCall {
    PhotoCall(found, photoUrl, OrEmpty(caption), NormaliseParseMode(parseMode))
  }

  /** The caption is `""` exactly for a missing or empty one and the given
      text otherwise; the parse mode is `None`, "markdown" or "html", and
      set exactly for a name `lower()` turns into one of those. */
  lemma PhotoCallSpec(found: Entity, photoUrl: string, caption: Option<string>, parseMode: Option<string>)
    ensures var c := PhotoCallOf(found, photoUrl, caption, parseMode);
      && c.entity == found && c.file == photoUrl
      && (c.caption == "" <==> !TruthyStr(caption))
      && (TruthyStr(caption) ==> c.caption == caption.value)
      && (c.parseMode == None || c.parseMode == Some("markdown") || c.parseMode == Some("html"))
      && (c.parseMode.Some? <==> TruthyStr(parseMode) && Lower(parseMode.value) in ["markdown", "html"])
  {
  }

  /** `send_photo_logic`, as written. `lookupOf` is what `get_entity` does
      with the coerced id and `sendOf` what `send_file` does with its call.
      The lookup's own `HTTPException` is caught again by the final
      `except Exception`; an `HTTPException` has no `message` attribute, so
      its text "<code>: <detail>" is what that handler inspects. */
  function SendPhotoLogic(clientConnected: bool, chat: ChatId, photoUrl: string, caption: Option<string>,
                          parseMode: Option<string>, lookupOf: ChatId -> Lookup,
                          sendOf: PhotoCall -> SendOutcome): (r: Result<Option<int>>)
    ensures !clientConnected ==> r == Err(HttpError(400, "Cliente não conectado"))
    ensures var lookup := lookupOf(CoerceEntityId(chat));
      && (clientConnected && !lookup.Found? ==>
            r == Err(CatchAll(ChatText(chat), photoUrl, HttpErrorText(LookupException(ChatText(chat), lookup)), None)))
      && (clientConnected && lookup.Found? ==>
            var send := sendOf(PhotoCallOf(lookup.entity, photoUrl, caption, parseMode));
            && (send.Sent? ==> r == Ok(send.messageId))
            && (send.Forbidden? || send.UserIsBlocked? ==> r.Err? && r.error.status == 403)
            && (send.Forbidden? ==>
                  r.error.detail == "Permissão negada para enviar foto para '" + ChatText(chat) + "': " + send.text)
            && (send.UserIsBlocked? ==> r.error.detail == "Você foi bloqueado pelo usuário '" + ChatText(chat) + "'.")
            && (send.Failed? ==> r == Err(CatchAll(ChatText(chat), photoUrl, send.text, send.rpcMessage))))
  {
    if !clientConnected then Err(HttpError(400, "Cliente não conectado"))
    else
      var text := ChatText(chat);
      var lookup := lookupOf(CoerceEntityId(chat));
      if !lookup.Found? then
        Err(CatchAll(text, photoUrl, HttpErrorText(LookupException(text, lookup)), None))
      else match sendOf(PhotoCallOf(lookup.entity, photoUrl, caption, parseMode))
        case Sent(id) => Ok(id)
        case Forbidden(t) => Err(HttpError(403, "Permissão negada para enviar foto para '" + text + "': " + t))
        case UserIsBlocked(_) => Err(HttpError(403, "Você foi bloqueado pelo usuário '" + text + "'."))
        case Failed(t, m) => Err(CatchAll(text, photoUrl, t, m))
  }

  /** The decimal text of an integer is coerced to that integer. */
  lemma CoerceEntityIdDecimal(i: int)
    ensures CoerceEntityId(StrId(IntToStr(i))) == IntId(i)
  {
    var s := IntToStr(i);
    StripDecimal(i);
    IntToStrRoundTrip(i);
    CoerceEntityIdSpec(s);
    var n: nat := if i < 0 then -i else i;
    if i < 0 {
      assert s[1..] == NatToStr(n);
    }
  }

  /** Sending a photo to the decimal text of an integer looks up and sends
      to the integer, and any error names the same text. */
  lemma SendPhotoDecimalText(connected: bool, i: int, photoUrl: string, caption: Option<string>,
                             parseMode: Option<string>, lookupOf: ChatId -> Lookup, sendOf: PhotoCall -> SendOutcome)
    ensures SendPhotoLogic(connected, StrId(IntToStr(i)), photoUrl, caption, parseMode, lookupOf, sendOf)
      == SendPhotoLogic(connected, IntId(i), photoUrl, caption, parseMode, lookupOf, sendOf)
  {
    CoerceEntityIdDecimal(i);
    assert ChatText(StrId(IntToStr(i))) == ChatText(IntId(i));
  }

  /** The parse mode reaches the call through its normalisation, and a
      missing caption is sent as the empty one: "HTML" sends like "html",
      and no caption like `""`. */
  lemma SendPhotoNormalisedInputs(connected: bool, chat: ChatId, photoUrl: string,
                                  lookupOf: ChatId -> Lookup, sendOf: PhotoCall -> SendOutcome)
    ensures SendPhotoLogic(connected, chat, photoUrl, None, Some("HTML"), lookupOf, sendOf)
      == SendPhotoLogic(connected, chat, photoUrl, Some(""), Some("html"), lookupOf, sendOf)
  {
    ParseModeAnyCase();
    assert Lower("html") == "html";
  }

  /** A chat-id text that mentions neither catch-all marker. */
  predicate PlainChatText(t: string) {
    !Contains(t, DownloadFailure) && !Contains(t, EntityNotFound)
  }

  lemma ShortNotContains(s: string, m: string)
    requires |s| < |m|
    ensures !Contains(s, m)
  {
  }

  /** A quoted chat-id text contains a marker only when the chat id or the
      surrounding text does. */
  lemma QuotedPlain(prefix: string, chatText: string, suffix: string, m: string)
    requires '\'' !in m
    requires !Contains(prefix, m) && !Contains(chatText, m) && !Contains(suffix, m)
    ensures !Contains(Quoted(prefix, chatText, suffix), m)
  {
    ContainsAround(chatText, '\'', suffix, m);
    assert Quoted(prefix, chatText, suffix) == prefix + ['\''] + (chatText + ['\''] + suffix);
    ContainsAround(prefix, '\'', chatText + ['\''] + suffix, m);
  }

  /** Text in front of a quotation stays in front of it. */
  lemma QuotedAfter(head: string, prefix: string, chatText: string, suffix: string)
    ensures head + Quoted(prefix, chatText, suffix) == Quoted(head + prefix, chatText, suffix)
  {
  }

  /** The two status codes in decimal. */
  lemma StatusDigits()
    ensures IntToStr(400) == "400" && IntToStr(404) == "404"
  {
    assert NatToStr(4) == "4" by { assert DigitChar(4) == '4'; }
    assert NatToStr(40) == "40" by { assert DigitChar(0) == '0'; }
    assert NatToStr(400) == NatToStr(40) + [DigitChar(0)];
    assert NatToStr(404) == NatToStr(40) + [DigitChar(4)];
  }

  lemma NotFoundText(c: string)
    ensures HttpErrorText(HttpError(404, Quoted("Chat ID ", c, NotFoundSuffix)))
      == Quoted("404: Chat ID ", c, NotFoundSuffix)
  {
    StatusDigits();
    QuotedAfter("404: ", "Chat ID ", c, NotFoundSuffix);
    assert "404" + ": " == "404: ";
    assert "404: " + "Chat ID " == "404: Chat ID ";
  }

  /** Neither catch-all marker occurs in the 404 text of an unresolved chat. */
  lemma NotFoundPartsPlain()
    ensures !Contains(NotFoundSuffix, DownloadFailure) && !Contains(NotFoundSuffix, EntityNotFound)
    ensures !Contains("404: Chat ID ", DownloadFailure) && !Contains("404: Chat ID ", EntityNotFound)
  {
    assert 'C' !in NotFoundSuffix;
    NoFirstCharNotContains(NotFoundSuffix, DownloadFailure);
    assert 'E' !in NotFoundSuffix;
    NoFirstCharNotContains(NotFoundSuffix, EntityNotFound);
    var p := "404: Chat ID ";
    ShortNotContains(p, DownloadFailure);
    ShortNotContains(p, EntityNotFound);
  }

  lemma NotFoundTextPlain(c: string)
    requires PlainChatText(c)
    ensures !Contains(Quoted("404: Chat ID ", c, NotFoundSuffix), DownloadFailure)
    ensures !Contains(Quoted("404: Chat ID ", c, NotFoundSuffix), EntityNotFound)
  {
    var p := "404: Chat ID ";
    NotFoundPartsPlain();
    QuotedPlain(p, c, NotFoundSuffix, DownloadFailure);
    QuotedPlain(p, c, NotFoundSuffix, EntityNotFound);
  }

  lemma BadTypeText(c: string)
    ensures HttpErrorText(HttpError(400, Quoted("Tipo de Chat ID ", c, BadTypeSuffix)))
      == Quoted("400: Tipo de Chat ID ", c, BadTypeSuffix)
  {
    StatusDigits();
    QuotedAfter("400: ", "Tipo de Chat ID ", c, BadTypeSuffix);
    assert "400" + ": " == "400: ";
    assert "400: " + "Tipo de Chat ID " == "400: Tipo de Chat ID ";
  }

  lemma BadTypePartsPlain()
    ensures !Contains(BadTypeSuffix, DownloadFailure) && !Contains(BadTypeSuffix, EntityNotFound)
    ensures !Contains("400: Tipo de Chat ID ", DownloadFailure) && !Contains("400: Tipo de Chat ID ", EntityNotFound)
  {
    assert 'C' !in BadTypeSuffix && 'E' !in BadTypeSuffix;
    NoFirstCharNotContains(BadTypeSuffix, DownloadFailure);
    NoFirstCharNotContains(BadTypeSuffix, EntityNotFound);
    var p := "400: Tipo de Chat ID ";
    ShortNotContains(p, DownloadFailure);
    assert 'E' !in p;
    NoFirstCharNotContains(p, EntityNotFound);
  }

  /** Neither catch-all marker occurs in the 400 text of a badly typed chat. */
  lemma BadTypeTextPlain(c: string)
    requires PlainChatText(c)
    ensures !Contains(Quoted("400: Tipo de Chat ID ", c, BadTypeSuffix), DownloadFailure)
    ensures !Contains(Quoted("400: Tipo de Chat ID ", c, BadTypeSuffix), EntityNotFound)
  {
    var p := "400: Tipo de Chat ID ";
    BadTypePartsPlain();
    QuotedPlain(p, c, BadTypeSuffix, DownloadFailure);
    QuotedPlain(p, c, BadTypeSuffix, EntityNotFound);
  }

  /** The effect of the double catch: a chat that `get_entity` cannot
      resolve (`ValueError`) is answered with 500, not the 404 the lookup
      raised, its detail quoting the 404 text. */
  lemma NotFoundBecomes500(chat: ChatId, photoUrl: string, caption: Option<string>, parseMode: Option<string>,
                           lookupOf: ChatId -> Lookup, sendOf: PhotoCall -> SendOutcome)
    requires PlainChatText(ChatText(chat))
    requires lookupOf(CoerceEntityId(chat)).LookupValueError?
    ensures SendPhotoLogic(true, chat, photoUrl, caption, parseMode, lookupOf, sendOf)
      == Err(HttpError(500, "Erro ao enviar foto: " + Quoted("404: Chat ID ", ChatText(chat), NotFoundSuffix)))
  {
    NotFoundText(ChatText(chat));
    NotFoundTextPlain(ChatText(chat));
  }

  /** Likewise a `TypeError` from the lookup turns its 400 into a 500. */
  lemma BadTypeBecomes500(chat: ChatId, photoUrl: string, caption: Option<string>, parseMode: Option<string>,
                          lookupOf: ChatId -> Lookup, sendOf: PhotoCall -> SendOutcome)
    requires PlainChatText(ChatText(chat))
    requires lookupOf(CoerceEntityId(chat)).LookupTypeError?
    ensures SendPhotoLogic(true, chat, photoUrl, caption, parseMode, lookupOf, sendOf)
      == Err(HttpError(500, "Erro ao enviar foto: " + Quoted("400: Tipo de Chat ID ", ChatText(chat), BadTypeSuffix)))
  {
    BadTypeText(ChatText(chat));
    BadTypeTextPlain(ChatText(chat));
  }
}
