/**
 The pure part of the reply router: which kind of content an admin's message
 is re-sent as (the first present kind in a fixed priority order) and the one
 call that re-sends it to the selected user.
 */
module Replies {
  import opened Platform

  const ANSWER_PREFIX: string := "Ответ от админа:\n\n"

  /** What an admin message is re-sent as: plain text, or one attachment kind. */
  datatype Content = PlainText | Attachment(kind: MediaKind)

  /**
   Priority of the kinds: plain text without a caption first, then photo,
   video, document, audio, voice, animation, sticker and video note.
   */
  function Rank(c: Content): nat {
    match c
    case PlainText => 0
    case Attachment(k) => 1 + KindRank(k)
  }

  /** Whether the message can be re-sent as c. */
  predicate Present(m: Message, c: Content) {
    match c
    case PlainText => Truthy(m.text) && !Truthy(m.caption)
    case Attachment(k) => FileIdOf(m, k).Some?
  }

  /** Kinds whose re-sent copy carries a caption (stickers and video notes have none). */
  predicate Captioned(k: MediaKind) {
    k != Sticker && k != VideoNote
  }

  /**
   First match wins: the chosen content is present in the message and every
   kind of higher priority is absent; nothing is chosen only when no kind is
   present.
   */
  function ChooseContent(m: Message): (r: Option<Content>)
    ensures r.Some? ==> Present(m, r.value)
    ensures r.Some? ==> forall c :: Rank(c) < Rank(r.value) ==> !Present(m, c)
    ensures r.None? ==> forall c :: !Present(m, c)
  {
    if Truthy(m.text) && !Truthy(m.caption) then Some(PlainText)
    else if m.photo != [] then Some(Attachment(Photo))
    else if m.video.Some? then Some(Attachment(Video))
    else if m.document.Some? then Some(Attachment(Document))
    else if m.audio.Some? then Some(Attachment(Audio))
    else if m.voice.Some? then Some(Attachment(Voice))
    else if m.animation.Some? then Some(Attachment(Animation))
    else if m.sticker.Some? then Some(Attachment(Sticker))
    else if m.videoNote.Some? then Some(Attachment(VideoNote))
    else None
  }

  /**
   The call that re-sends the message as c to the target user: the text, or
   the attachment with the admin's caption (or "") after the reply prefix.
   */
  function ReplyOf(target: int, m: Message, c: Content): (r: Send)
    requires Present(m, c)
    ensures c == PlainText ==>
      r.SendText? && r.chat == target && r.keyboard.None?
      && ANSWER_PREFIX <= r.text && r.text[|ANSWER_PREFIX|..] == m.text.value
    ensures c.Attachment? ==>
      r.SendMedia? && r.chat == target && r.kind == c.kind && FileIdOf(m, c.kind) == Some(r.fileId)
    ensures c.Attachment? && Captioned(c.kind) ==>
      r.caption.Some? && ANSWER_PREFIX <= r.caption.value
      && r.caption.value[|ANSWER_PREFIX|..] == OrEmpty(m.caption)
    ensures c.Attachment? && !Captioned(c.kind) ==> r.caption.None?
  {
    match c
    case PlainText => SendText(target, ANSWER_PREFIX + m.text.value, None)
    case Attachment(k) =>
      var caption := if Captioned(k) then Some(ANSWER_PREFIX + OrEmpty(m.caption)) else None;
      SendMedia(target, k, FileIdOf(m, k).value, caption)
  }
}
