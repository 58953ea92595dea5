/**
 The chat platform as the relay bot sees it: inbound messages, the media items
 it buffers, the inline keyboard it attaches, and the outbound calls it makes.
 Platform calls themselves are not modelled; each call the bot makes becomes a
 `Send` record appended to an outbound log.
 */
module Platform {

  datatype Option<+T> = None | Some(value: T)

  /** Python truthiness of an optional string: present and non-empty. */
  predicate Truthy(s: Option<string>) {
    s.Some? && s.value != ""
  }

  /** `s or ""` for an optional string. */
  function OrEmpty(s: Option<string>): (r: string)
    ensures Truthy(s) ==> r == s.value
    ensures !Truthy(s) ==> r == ""
  {
    match s
    case Some(v) => v
    case None => ""
  }

  /** The kinds of content a message can carry and the bot can re-send. */
  datatype MediaKind = Photo | Video | Document | Audio | Voice | Animation | Sticker | VideoNote

  /**
   An inbound message. `photo` lists the file ids of the photo's sizes, the
   largest last (an empty list means no photo); the other media fields hold the
   attachment's file id. `stamp` is the message date already shifted to the
   admins' time zone and formatted, which the bot only pastes into headers.
   */
  datatype Message = Message(
    chatId: int,
    fromId: int,
    stamp: string,
    text: Option<string>,
    caption: Option<string>,
    photo: seq<string>,
    video: Option<string>,
    document: Option<string>,
    audio: Option<string>,
    voice: Option<string>,
    animation: Option<string>,
    sticker: Option<string>,
    videoNote: Option<string>,
    mediaGroupId: Option<string>)

  /**
   The priority of the attachment kinds when a message is re-sent: the order
   of the declaration above.
   */
  function KindRank(k: MediaKind): nat {
    match k
    case Photo => 0
    case Video => 1
    case Document => 2
    case Audio => 3
    case Voice => 4
    case Animation => 5
    case Sticker => 6
    case VideoNote => 7
  }

  /** The file id of a message's attachment of kind k, if it has one (a photo's largest size). */
  function FileIdOf(m: Message, k: MediaKind): Option<string> {
    match k
    case Photo => if m.photo != [] then Some(m.photo[|m.photo| - 1]) else None
    case Video => m.video
    case Document => m.document
    case Audio => m.audio
    case Voice => m.voice
    case Animation => m.animation
    case Sticker => m.sticker
    case VideoNote => m.videoNote
  }

  /** One entry of an album: an input-media object with its optional caption. */
  datatype AlbumItem = AlbumItem(kind: MediaKind, fileId: string, caption: Option<string>)

  datatype Button = Button(title: string, data: string)

  /** An inline keyboard: rows of buttons. */
  type Keyboard = seq<seq<Button>>

  /** One outbound platform call, in the order the bot makes them. */
  datatype Send =
    | SendText(chat: int, text: string, keyboard: Option<Keyboard>)
    | SendMediaGroup(chat: int, media: seq<AlbumItem>)
    | SendMedia(chat: int, kind: MediaKind, fileId: string, caption: Option<string>)
      /** `message.answer` / `message.reply`: a plain acknowledgement in a chat */
    | Answer(chat: int, text: string)
      /** `callback.answer`: the pop-up reply to a pressed button */
    | AnswerCallback(text: string, alert: bool)
}
