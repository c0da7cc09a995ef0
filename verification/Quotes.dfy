/** Replies in internal/wabridge/messages.go: unwrapping a message, building the
    quote of an outbound reply, and reading one back. Messages are values: what
    attachQuote sets in place is here a new message. */
module Quotes {
  import opened Base
  import opened Tables
  import opened Text
  import opened Previews
  import Coordinates

  /** What every content type has of text (or caption), file name, position,
      place and reply context. */
  datatype Content = Content(text: string, filename: string, lat: int, lng: int, place: string,
                             context: Option<Context>)

  /** Any other content type, with what classifyMessage says of it. */
  datatype Other = Other(kind: string, body: string, context: Option<Context>)

  datatype Context = Context(stanzaId: string, participant: string, quoted: Option<Msg>)

  /** A Message: at most one content of a type, and the eight kinds of wrapper. */
  datatype Msg = Msg(
    conversation: Option<string>,
    extendedText: Option<Content>, image: Option<Content>, video: Option<Content>, audio: Option<Content>,
    document: Option<Content>, sticker: Option<Content>, location: Option<Content>, other: Option<Other>,
    deviceSent: Option<Msg>, ephemeral: Option<Msg>, viewOnce: Option<Msg>, viewOnceV2: Option<Msg>,
    viewOnceV2Extension: Option<Msg>, documentWithCaption: Option<Msg>, associatedChild: Option<Msg>,
    edited: Option<Msg>)

  const NOTHING := Msg(None, None, None, None, None, None, None, None, None, None, None, None, None, None, None, None,
                       None)

  const UNWRAP_MAX: nat := 8
  const QUOTED_PREVIEW_MAX := 255
  const MAX_ID_LEN := 64
  const MAX_JID_LEN := 64

  // --------------------------------------------------------------- unwrapping

  /** The wrapper unwrapMessage takes off. */
  function Inner(m: Msg): (r: Option<Msg>)
    ensures r.Some? ==> r.value < m
  {
    if m.deviceSent.Some? then m.deviceSent
    else if m.ephemeral.Some? then m.ephemeral
    else if m.viewOnce.Some? then m.viewOnce
    else if m.viewOnceV2.Some? then m.viewOnceV2
    else if m.viewOnceV2Extension.Some? then m.viewOnceV2Extension
    else if m.documentWithCaption.Some? then m.documentWithCaption
    else if m.associatedChild.Some? then m.associatedChild
    else m.edited
  }

  function Depth(m: Msg): nat {
    if Inner(m).None? then 0 else 1 + Depth(Inner(m).value)
  }

  function Peel(m: Msg, n: nat): Msg {
    if n == 0 || Inner(m).None? then m else Peel(Inner(m).value, n - 1)
  }

  function Unwrapped(m: Msg): Msg {
    Peel(m, UNWRAP_MAX)
  }

  /** unwrapMessage */
  method UnwrapMessage(message: Option<Msg>) returns (r: Option<Msg>)
    ensures message.None? ==> r.None?
    ensures message.Some? ==>
              r == Some(Unwrapped(message.value)) && (Inner(r.value).None? <==> Depth(message.value) <= 8)
  {
    var msg := message;
    var i := 0;
    while i < 8 && msg.Some?
      invariant 0 <= i <= 8 && (msg.Some? <==> message.Some?)
      invariant msg.Some? ==> Peel(msg.value, UNWRAP_MAX - i) == Unwrapped(message.value)
    {
      var inner := Inner(msg.value);
      if inner.None? {
        PeelDepth(message.value, UNWRAP_MAX);
        return msg;
      }
      msg := inner;
      i := i + 1;
    }
    if message.Some? {
      PeelDepth(message.value, UNWRAP_MAX);
    }
    return msg;
  }

  lemma {:induction false} PeelDepth(m: Msg, n: nat)
    ensures Depth(Peel(m, n)) == if Depth(m) <= n then 0 else Depth(m) - n
    decreases n
  {
    if n > 0 && Inner(m).Some? {
      PeelDepth(Inner(m).value, n - 1);
    }
  }

  /** Unwrapping twice is unwrapping once, for exactly the messages with at most
      eight wrappers. */
  lemma {:induction false} UnwrapIsStable(m: Msg)
    ensures Unwrapped(Unwrapped(m)) == Unwrapped(m) <==> Depth(m) <= 8
  {
    PeelDepth(m, UNWRAP_MAX);
    PeelDepth(Unwrapped(m), UNWRAP_MAX);
  }

  datatype Wrapper =
    | DeviceSent | Ephemeral | ViewOnce | ViewOnceV2 | ViewOnceV2Extension
    | DocumentWithCaption | AssociatedChild | Edited

  function Layer(w: Wrapper, m: Msg): (r: Msg)
    ensures Inner(r) == Some(m)
  {
    match w
    case DeviceSent => NOTHING.(deviceSent := Some(m))
    case Ephemeral => NOTHING.(ephemeral := Some(m))
    case ViewOnce => NOTHING.(viewOnce := Some(m))
    case ViewOnceV2 => NOTHING.(viewOnceV2 := Some(m))
    case ViewOnceV2Extension => NOTHING.(viewOnceV2Extension := Some(m))
    case DocumentWithCaption => NOTHING.(documentWithCaption := Some(m))
    case AssociatedChild => NOTHING.(associatedChild := Some(m))
    case Edited => NOTHING.(edited := Some(m))
  }

  function Wrapped(layers: seq<Wrapper>, m: Msg): Msg {
    if layers == [] then m else Layer(layers[0], Wrapped(layers[1..], m))
  }

  /** Wrapping is what peeling takes off. */
  lemma {:induction false} PeelWrapped(layers: seq<Wrapper>, m: Msg, n: nat)
    ensures Peel(Wrapped(layers, m), |layers| + n) == Peel(m, n)
    decreases layers
  {
    if layers != [] {
      PeelWrapped(layers[1..], m, n);
    }
  }

  lemma {:induction false} PeelEnough(m: Msg, n: nat)
    requires Depth(m) <= n
    ensures Peel(m, n) == Peel(m, Depth(m))
    decreases n
  {
    if Inner(m).Some? {
      PeelEnough(Inner(m).value, n - 1);
    }
  }

  // ------------------------------------------------------------------- labels

  /** quoteLabel */
  function QuoteLabel(kind: string, body: string, filename: string): string {
    if kind == "location" then PIN + "Ubicaci\U{F3}n"
    else if kind == "contact" then if body != "" then "\U{1F464} " + body else "\U{1F464} Contacto"
    else if Trim(body) != "" then body
    else if kind == "image" then "\U{1F4F7} Foto"
    else if kind == "video" then "\U{1F3A5} Video"
    else if kind == "audio" then "\U{1F3A4} Audio"
    else if kind == "document" then if filename != "" then "\U{1F4C4} " + filename else "\U{1F4C4} Documento"
    else if kind == "sticker" then "Sticker"
    else if kind == "revoked" then "Mensaje eliminado"
    else ""
  }

  /** What a quote shows of a message: never the coordinates of a place; else its
      text when there is something to see in it, and its kind when not. */
  lemma {:induction false} QuoteLabelsAre(kind: string, body: string, filename: string)
    ensures var shown := QuoteLabel(kind, body, filename);
      if kind == "location" then shown == "\U{1F4CD} Ubicaci\U{F3}n"
      else if kind == "contact" then shown == "\U{1F464} " + if body == "" then "Contacto" else body
      else if exists k :: 0 <= k < |body| && !IsSpace(body[k]) then shown == body
      else
        && (kind == "image" ==> shown == "\U{1F4F7} Foto") && (kind == "video" ==> shown == "\U{1F3A5} Video")
        && (kind == "audio" ==> shown == "\U{1F3A4} Audio") && (kind == "sticker" ==> shown == "Sticker")
        && (kind == "document" ==> shown == "\U{1F4C4} " + if filename == "" then "Documento" else filename)
        && (kind == "revoked" ==> shown == "Mensaje eliminado") && (kind == "text" ==> shown == "")
  {
    InkShows(body);
  }

  /** A label is empty or shows something. */
  lemma {:induction false} LabelsShow(kind: string, body: string, filename: string)
    ensures var shown := QuoteLabel(kind, body, filename); shown != "" ==> Trim(shown) != ""
  {
    var shown := QuoteLabel(kind, body, filename);
    if shown != "" && !IsSpace(shown[0]) {
      InkStays(shown);
    }
  }

  /** The label of a stored row. */
  function RowLabel(row: MessageRow): string {
    QuoteLabel(row.kind, row.body.Or(""), row.filename.Or(""))
  }

  /** What lookupQuote puts into wa_messages.quoted_preview. */
  function StoredPreview(row: MessageRow): Option<string> {
    NullString(TruncateRunes(RowLabel(row), QUOTED_PREVIEW_MAX))
  }

  // ------------------------------------------------------------------ reading

  datatype Class = Class(kind: string, body: string, filename: string, place: string)

  /** classifyMessage, as far as a quote looks. */
  function Classify(message: Msg): Class {
    var m := Unwrapped(message);
    if m.conversation.Or("") != "" then Class("text", m.conversation.value, "", "")
    else if m.extendedText.Some? then Class("text", m.extendedText.value.text, "", "")
    else if m.image.Some? then Class("image", m.image.value.text, "", "")
    else if m.video.Some? then Class("video", m.video.value.text, "", "")
    else if m.audio.Some? then Class("audio", "", "", "")
    else if m.document.Some? then Class("document", m.document.value.text, m.document.value.filename, "")
    else if m.sticker.Some? then Class("sticker", "", "", "")
    else if m.location.Some? then
      var l := m.location.value;
      Class("location", Coordinates.Print(l.lat, l.lng), "", Trim(l.place))
    else if m.other.Some? then Class(m.other.value.kind, m.other.value.body, "", "")
    else Class("other", if m == NOTHING then "" else "[proto: " + SetFields(m) + "]", "", "")
  }

  /** Through up to eight wrappers each content is told for what it is. */
  lemma {:induction false} KindsAreTold(layers: seq<Wrapper>, c: Content, text: string)
    requires |layers| <= 8 && text != ""
    ensures Classify(Wrapped(layers, NOTHING.(conversation := Some(text)))) == Class("text", text, "", "")
    ensures Classify(Wrapped(layers, NOTHING.(extendedText := Some(c)))) == Class("text", c.text, "", "")
    ensures Classify(Wrapped(layers, NOTHING.(image := Some(c)))) == Class("image", c.text, "", "")
    ensures Classify(Wrapped(layers, NOTHING.(video := Some(c)))) == Class("video", c.text, "", "")
    ensures Classify(Wrapped(layers, NOTHING.(audio := Some(c)))) == Class("audio", "", "", "")
    ensures Classify(Wrapped(layers, NOTHING.(document := Some(c)))) == Class("document", c.text, c.filename, "")
    ensures Classify(Wrapped(layers, NOTHING.(sticker := Some(c)))) == Class("sticker", "", "", "")
    ensures Classify(Wrapped(layers, NOTHING.(location := Some(c))))
         == Class("location", Coordinates.Print(c.lat, c.lng), "", Trim(c.place))
  {
    WrapsOff(layers, NOTHING.(conversation := Some(text)));
    WrapsOff(layers, NOTHING.(extendedText := Some(c)));
    WrapsOff(layers, NOTHING.(image := Some(c)));
    WrapsOff(layers, NOTHING.(video := Some(c)));
    WrapsOff(layers, NOTHING.(audio := Some(c)));
    WrapsOff(layers, NOTHING.(document := Some(c)));
    WrapsOff(layers, NOTHING.(sticker := Some(c)));
    WrapsOff(layers, NOTHING.(location := Some(c)));
  }

  lemma {:induction false} WrapsOff(layers: seq<Wrapper>, m: Msg)
    requires |layers| <= UNWRAP_MAX && Inner(m).None?
    ensures Unwrapped(Wrapped(layers, m)) == m
  {
    PeelWrapped(layers, m, UNWRAP_MAX - |layers|);
  }

  /** The populated fields, for a message with no content to show. */
  function SetFields(m: Msg): string {
    (if m.conversation.Some? then "conversation " else "") + (if Inner(m).Some? then "wrapper" else "")
  }

  /** The preview of a class of message. */
  function ClassPreview(c: Class): string {
    if c.kind == "system" || (c.kind == "other" && "[proto:" <= c.body) then ""
    else if c.kind == "location" && c.place != "" then TruncateRunes(LocationLabel(c.place), QUOTED_PREVIEW_MAX)
    else TruncateRunes(QuoteLabel(c.kind, c.body, c.filename), QUOTED_PREVIEW_MAX)
  }

  /** quotedPreview */
  function QuotedPreview(quoted: Option<Msg>): string {
    if quoted.None? then "" else ClassPreview(Classify(Unwrapped(quoted.value)))
  }

  function ContextIn(c: Option<Content>): Option<Context> {
    if c.Some? then c.value.context else None
  }

  /** The first content with a context. */
  function ContextHere(m: Msg): Option<Context> {
    Coalesce(ContextIn(m.extendedText), Coalesce(ContextIn(m.image),
    Coalesce(ContextIn(m.video), Coalesce(ContextIn(m.audio),
    Coalesce(ContextIn(m.document), Coalesce(ContextIn(m.sticker), Coalesce(ContextIn(m.location),
    if m.other.Some? then m.other.value.context else None)))))))
  }

  /** contextInfoOf */
  function ContextInfoOf(message: Option<Msg>): Option<Context> {
    if message.None? then None else ContextHere(Unwrapped(message.value))
  }

  /** The length of a text in bytes, as UTF-8. */
  function ByteLen(s: string): nat {
    if s == "" then 0
    else
      var c := s[0] as int;
      ByteLen(s[1..]) + if c < 0x80 then 1 else if c < 0x800 then 2 else if c < 0x1_0000 then 3 else 4
  }

  datatype QuoteInfo = QuoteInfo(messageId: Option<string>, preview: Option<string>, senderJid: Option<string>)

  const NO_QUOTE := QuoteInfo(None, None, None)

  /** quoteFromContext */
  function QuoteFromContext(ci: Option<Context>): QuoteInfo {
    var id := if ci.Some? then ci.value.stanzaId else "";
    if id == "" || ByteLen(id) > MAX_ID_LEN then NO_QUOTE
    else
      var p := ci.value.participant;
      QuoteInfo(
        NullString(id),
        NullString(QuotedPreview(ci.value.quoted)),
        if p != "" && ByteLen(p) <= MAX_JID_LEN then NullString(p) else None)
  }

  // ----------------------------------------------------------------- building

  /** buildQuoteContext */
  function BuildQuoteContext(id: string, participant: string, row: MessageRow): Context {
    Context(id, participant, Some(NOTHING.(conversation := Some(RowLabel(row)))))
  }

  function With(c: Option<Content>, ci: Context): Option<Content>
    requires c.Some?
  {
    Some(c.value.(context := Some(ci)))
  }

  /** attachQuote */
  function AttachQuote(message: Option<Msg>, context: Option<Context>): Option<Msg> {
    if message.None? || context.None? then message
    else
      var m, ci := message.value, context.value;
      if m.conversation.Some? then
        Some(NOTHING.(extendedText := Some(Content(m.conversation.value, "", 0, 0, "", Some(ci)))))
      else if m.extendedText.Some? then Some(m.(extendedText := With(m.extendedText, ci)))
      else if m.image.Some? then Some(m.(image := With(m.image, ci)))
      else if m.video.Some? then Some(m.(video := With(m.video, ci)))
      else if m.audio.Some? then Some(m.(audio := With(m.audio, ci)))
      else if m.document.Some? then Some(m.(document := With(m.document, ci)))
      else if m.location.Some? then Some(m.(location := With(m.location, ci)))
      else if m.documentWithCaption.Some? && m.documentWithCaption.value.document.Some? then
        var inner := m.documentWithCaption.value;
        Some(m.(documentWithCaption := Some(inner.(document := With(inner.document, ci)))))
      else message
  }

  /** The outbound shapes: text, an unwrapped message with content of a type that is
      supported, or a document with its caption. */
  predicate Sendable(m: Msg) {
    || m.conversation.Some?
    || (Inner(m).None? && SomeContent(m) && ContextIn(m.sticker).None?)
    || (m.documentWithCaption.Some? && m == Layer(DocumentWithCaption, m.documentWithCaption.value)
        && Inner(m.documentWithCaption.value).None? && OnlyDocument(m.documentWithCaption.value))
  }

  predicate SomeContent(m: Msg) {
    m.extendedText.Some? || m.image.Some? || m.video.Some? || m.audio.Some? || m.document.Some? || m.location.Some?
  }

  predicate OnlyDocument(m: Msg) {
    m.document.Some? && m.extendedText.None? && m.image.None? && m.video.None? && m.audio.None?
  }

  // --------------------------------------------------------------- round trip

  /** The context comes back out of the message it was attached to, also
      through more wrappers, up to eight in all. */
  lemma {:induction false} ContextComesBack(m: Msg, ci: Context, layers: seq<Wrapper>)
    requires Sendable(m)
    requires |layers| + (if m.conversation.Some? then 0 else Depth(m)) <= 8
    ensures AttachQuote(Some(m), Some(ci)).Some?
    ensures ContextInfoOf(Some(Wrapped(layers, AttachQuote(Some(m), Some(ci)).value))) == Some(ci)
  {
    var sent := AttachQuote(Some(m), Some(ci)).value;
    if m.conversation.None? && Inner(m).Some? {
      CaptionedContext(m, ci);
    } else {
      BareContext(m, ci);
    }
    PeelWrapped(layers, sent, UNWRAP_MAX - |layers|);
    PeelEnough(sent, UNWRAP_MAX - |layers|);
  }

  lemma {:induction false} BareContext(m: Msg, ci: Context)
    requires m.conversation.Some? || (Inner(m).None? && SomeContent(m) && ContextIn(m.sticker).None?)
    ensures var sent := AttachQuote(Some(m), Some(ci));
      sent.Some? && Inner(sent.value).None? && ContextHere(sent.value) == Some(ci)
  {
  }

  lemma {:induction false} CaptionedContext(m: Msg, ci: Context)
    requires m.documentWithCaption.Some? && m == Layer(DocumentWithCaption, m.documentWithCaption.value)
    requires Inner(m.documentWithCaption.value).None? && OnlyDocument(m.documentWithCaption.value)
    ensures var sent := AttachQuote(Some(m), Some(ci));
      sent.Some? && Depth(sent.value) == 1 && ContextHere(Peel(sent.value, 1)) == Some(ci)
  {
    var sent := AttachQuote(Some(m), Some(ci)).value;
    assert Inner(sent) == sent.documentWithCaption;
  }

  /** A quote leaves what is sent as it is. */
  lemma {:induction false} ContentStays(m: Msg, ci: Context)
    requires Sendable(m) && m.conversation != Some("") && (m.conversation.Some? ==> Inner(m).None?)
    ensures AttachQuote(Some(m), Some(ci)).Some?
    ensures Classify(AttachQuote(Some(m), Some(ci)).value) == Classify(m)
  {
    var sent := AttachQuote(Some(m), Some(ci)).value;
    if m.conversation.None? && Inner(m).Some? {
      CaptionedContext(m, ci);
      assert Inner(sent) == sent.documentWithCaption;
      OffOnce(sent);
      OffOnce(m);
    } else {
      BareContext(m, ci);
      assert Unwrapped(sent) == sent && Unwrapped(m) == m;
    }
  }

  lemma {:induction false} OffOnce(m: Msg)
    requires Inner(m).Some? && Inner(Inner(m).value).None?
    ensures Unwrapped(m) == Inner(m).value
  {
    assert Peel(Inner(m).value, UNWRAP_MAX - 1) == Inner(m).value;
  }

  /** The synthesized quote reads as the row's own preview. */
  lemma {:induction false} PreviewComesBack(id: string, participant: string, row: MessageRow)
    ensures QuotedPreview(BuildQuoteContext(id, participant, row).quoted) ==
              TruncateRunes(RowLabel(row), 255)
  {
    var shown := RowLabel(row);
    LabelsShow(row.kind, row.body.Or(""), row.filename.Or(""));
    var m := NOTHING.(conversation := Some(shown));
    assert Unwrapped(m) == m;
    if shown == "" {
      assert Classify(m).kind == "other" && "[proto:" <= Classify(m).body;
    }
  }

  /** A reply is read back as it was built: its target, its author, and exactly
      the preview that was stored with it. */
  lemma {:induction false} QuoteRoundTrip(m: Msg, id: string, participant: string, row: MessageRow,
                                          layers: seq<Wrapper>)
    requires Sendable(m)
    requires |layers| + (if m.conversation.Some? then 0 else Depth(m)) <= 8
    ensures var sent := AttachQuote(Some(m), Some(BuildQuoteContext(id, participant, row)));
      sent.Some? && QuoteFromContext(ContextInfoOf(Some(Wrapped(layers, sent.value)))) ==
        if 1 <= ByteLen(id) <= 64
        then QuoteInfo(Some(id), StoredPreview(row),
                       if 1 <= ByteLen(participant) <= 64 then Some(participant) else None)
        else NO_QUOTE
  {
    ContextComesBack(m, BuildQuoteContext(id, participant, row), layers);
    PreviewComesBack(id, participant, row);
  }

  // ---------------------------------------------- quoting what was received

  /** The descriptor of a message's media, and whether its file was kept. */
  function MediaOf(c: Class, kept: bool): Option<Media> {
    if c.kind in {"image", "video", "audio", "document", "sticker", "location"}
    then Some(Media(c.filename, kept, c.place)) else None
  }

  /** The stored row of a message of this class, with its file kept. */
  function RowOf(c: Class, chat: Jid, sender: string, fromMe: bool, at: int): MessageRow {
    StoredRow(chat, sender, fromMe, c.kind, c.body, MediaOf(c, true), at)
  }

  /** Neither a named place nor a message nobody can show. */
  predicate Plain(c: Class) {
    (c.kind == "location" ==> c.place in {"", "Ubicaci\U{F3}n"}) && !(c.kind == "other" && "[proto:" <= c.body)
  }

  /** A customer who quotes a message and an operator who quotes its stored row
      see the same preview, except for a named place (the operator's quote never
      names it) and a message nobody can show. */
  lemma {:induction false} QuotedAsStored(m: Msg, chat: Jid, sender: string, fromMe: bool, at: int)
    requires Depth(m) <= UNWRAP_MAX && Classify(m).kind != "system"
    ensures NullString(QuotedPreview(Some(m))) == StoredPreview(RowOf(Classify(m), chat, sender, fromMe, at))
            <==> Plain(Classify(m))
  {
    WholePreview(m);
    FilesAreDocuments(m);
    PlacesAreTrimmed(m);
    ClassAsStored(Classify(m), chat, sender, fromMe, at);
  }

  /** The preview unwraps twice, the handler once. */
  lemma {:induction false} WholePreview(m: Msg)
    requires Depth(m) <= UNWRAP_MAX
    ensures QuotedPreview(Some(m)) == ClassPreview(Classify(m))
  {
    UnwrapIsStable(m);
  }

  lemma {:induction false} ClassAsStored(c: Class, chat: Jid, sender: string, fromMe: bool, at: int)
    requires c.kind != "system" && Trim(c.place) == c.place && (c.filename != "" ==> c.kind == "document")
    ensures NullString(ClassPreview(c)) == StoredPreview(RowOf(c, chat, sender, fromMe, at)) <==> Plain(c)
  {
    RowIsLabelled(c, chat, sender, fromMe, at);
    if c.kind == "other" && "[proto:" <= c.body {
      assert c.body[0] == '[';
      InkStays(c.body);
    } else if c.kind == "location" && c.place != "" {
      NamedPlace(c.place);
    }
  }

  lemma {:induction false} RowIsLabelled(c: Class, chat: Jid, sender: string, fromMe: bool, at: int)
    requires c.filename != "" ==> c.kind == "document"
    ensures RowLabel(RowOf(c, chat, sender, fromMe, at)) == QuoteLabel(c.kind, c.body, c.filename)
  {
  }

  lemma {:induction false} FilesAreDocuments(m: Msg)
    ensures Classify(m).filename != "" ==> Classify(m).kind == "document"
  {
  }

  lemma {:induction false} PlacesAreTrimmed(m: Msg)
    ensures Trim(Classify(m).place) == Classify(m).place
  {
    if Unwrapped(m).location.Some? {
      TrimIsStable(Unwrapped(m).location.value.place);
    }
  }

  lemma {:induction false} NamedPlace(place: string)
    requires place != "" && Trim(place) == place
    ensures TruncateRunes(LocationLabel(place), QUOTED_PREVIEW_MAX) == PIN + "Ubicaci\U{F3}n"
            <==> place == "Ubicaci\U{F3}n"
  {
    var bare := PIN + "Ubicaci\U{F3}n";
    assert |bare| == 11;
    assert (PIN + place)[2..] == place && bare[2..] == "Ubicaci\U{F3}n";
  }
}
