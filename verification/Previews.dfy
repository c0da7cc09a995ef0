/** The chat-list labels of internal/wabridge: what the live path shows for a
    message, and what a recomputation shows for the stored row. */
module Previews {
  import opened Base
  import opened Tables
  import opened Text

  /** The part of mediaDescriptor the labels need. `kept` says whether the file
      was downloaded and uploaded, which is when its name is stored. */
  datatype Media = Media(filename: string, kept: bool, place: string)

  const PREVIEW_MAX := 160
  const LOCATION_NAME_MAX := 255
  const PIN := "\U{1F4CD} "

  /** locationLabel */
  function LocationLabel(name: string): string {
    var place := Trim(name);
    if place != "" then Truncate(PIN + place, PREVIEW_MAX) else PIN + "Ubicaci\U{F3}n"
  }

  /** previewFor */
  function PreviewFor(kind: string, body: string, media: Option<Media>): string {
    if kind == "location" then LocationLabel(if media.Some? then media.value.place else "")
    else if body != "" then Truncate(body, PREVIEW_MAX)
    else if kind == "image" then "\U{1F4F7} Imagen"
    else if kind == "video" then "\U{1F3A5} Video"
    else if kind == "audio" then "\U{1F3A4} Audio"
    else if kind == "document" then
      if media.Some? && media.value.filename != "" then "\U{1F4C4} " + media.value.filename else "\U{1F4C4} Documento"
    else if kind == "sticker" then "Sticker"
    else if kind == "contact" then "\U{1F464} Contacto"
    else if kind == "revoked" then "Mensaje eliminado"
    else ""
  }

  /** What the chat list shows: a place by its name, a text as far as it fits,
      and a message without text by its kind. */
  lemma LabelsAre(kind: string, body: string, media: Option<Media>)
    ensures var shown := PreviewFor(kind, body, media);
      if kind == "location" then
        && (media.None? ==> shown == "\U{1F4CD} Ubicaci\U{F3}n")
        && (media.Some? && Trim(media.value.place) == "" ==> shown == "\U{1F4CD} Ubicaci\U{F3}n")
        && (media.Some? && 0 < |Trim(media.value.place)| <= 158 ==> shown == "\U{1F4CD} " + Trim(media.value.place))
      else if body != "" then
        shown == if |body| <= 160 then body else body[..160] + "\U{2026}"
      else
        && (kind == "image" ==> shown == "\U{1F4F7} Imagen") && (kind == "video" ==> shown == "\U{1F3A5} Video")
        && (kind == "audio" ==> shown == "\U{1F3A4} Audio") && (kind == "sticker" ==> shown == "Sticker")
        && (kind == "contact" ==> shown == "\U{1F464} Contacto") && (kind == "revoked" ==> shown == "Mensaje eliminado")
        && (kind == "document" && (media.None? || media.value.filename == "") ==> shown == "\U{1F4C4} Documento")
        && (kind == "document" && media.Some? && media.value.filename != "" ==>
              shown == "\U{1F4C4} " + media.value.filename)
        && (kind == "text" ==> shown == "")
  {
  }

  /** A deleted message is shown as one, whatever it was. */
  lemma DeletedShows(m: MessageRow)
    requires m.revokedAt.Some?
    ensures TailPreview(m) == "Mensaje eliminado"
  {
  }

  /** tailPreview */
  function TailPreview(m: MessageRow): string {
    if m.revokedAt.Some? then "Mensaje eliminado"
    else
      var media := if m.filename.Some? || m.place.Some?
                   then Some(Media(m.filename.Or(""), true, m.place.Or(""))) else None;
      PreviewFor(m.kind, m.body.Or(""), media)
  }

  /** The row handleMessage stores for an ordinary message. */
  function StoredRow(chat: Jid, sender: string, fromMe: bool, kind: string, body: string, media: Option<Media>,
                     at: int): MessageRow {
    MessageRow(
      chat, NullString(sender), fromMe, kind, NullString(body),
      if media.Some? && media.value.kept then NullString(media.value.filename) else None,
      None,
      if media.Some? then NullString(TruncateRunes(media.value.place, LOCATION_NAME_MAX)) else None,
      at, Some(if fromMe then "sent" else "received"),
      None, None, None)
  }

  /** The stored row is shown as the live message was, whenever its file name
      was stored and its place name fits the column. */
  lemma PreviewsAgree(chat: Jid, sender: string, fromMe: bool, kind: string, body: string, media: Option<Media>,
                      at: int)
    requires media.Some? ==>
              (media.value.kept || media.value.filename == "") && |media.value.place| <= LOCATION_NAME_MAX
    ensures TailPreview(StoredRow(chat, sender, fromMe, kind, body, media, at)) == PreviewFor(kind, body, media)
  {
  }

  /** A document whose file could not be stored loses its name in a
      recomputation: exactly then, and when no caption hides it, the labels differ. */
  lemma LostNameShows(chat: Jid, sender: string, fromMe: bool, body: string, media: Media, at: int)
    requires !media.kept && |media.place| <= LOCATION_NAME_MAX
    ensures TailPreview(StoredRow(chat, sender, fromMe, "document", body, Some(media), at)) ==
              PreviewFor("document", body, Some(media))
            <==> body != "" || media.filename in {"", "Documento"}
  {
    if body == "" && media.filename != "" {
      var live := "\U{1F4C4} " + media.filename;
      assert PreviewFor("document", body, Some(media)) == live;
      assert live[2..] == media.filename;
      assert "\U{1F4C4} Documento"[2..] == "Documento";
    }
  }
}
