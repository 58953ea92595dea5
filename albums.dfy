/**
 The pure steps of the album aggregator: what one album part adds to its
 key's buffer, what a buffer built from several parts holds, and which calls a
 flush makes for a non-empty buffer.
 */
module Albums {
  import opened Platform
  import opened Texts

  /** An album is identified by its chat and its media-group id. */
  type Key = (int, string)

  const PLACEHOLDER: string := "📎 Пользователь отправил альбом"
  const ALBUM_HEADER: string := "📩 Новое анонимное сообщение (альбом)\n🕓 "

  function AlbumKey(m: Message): Key
    requires m.mediaGroupId.Some?
  {
    (m.chatId, m.mediaGroupId.value)
  }

  predicate IsAlbumKind(k: MediaKind) {
    k == Photo || k == Video || k == Document || k == Audio || k == Animation
  }

  /**
   The item a part would add as the first one of its album: its attachment,
   photo (largest size) before video, document, audio and animation, carrying
   the part's caption or "". Voice notes, stickers, video notes and text-only
   parts contribute nothing.
   */
  function Contribution(m: Message): (r: Option<AlbumItem>)
    ensures r.None? ==> forall k :: IsAlbumKind(k) ==> FileIdOf(m, k).None?
    ensures r.Some? ==>
      && IsAlbumKind(r.value.kind)
      && FileIdOf(m, r.value.kind) == Some(r.value.fileId)
      && r.value.caption == Some(OrEmpty(m.caption))
    ensures r.Some? ==>
      forall k :: IsAlbumKind(k) && KindRank(k) < KindRank(r.value.kind) ==> FileIdOf(m, k).None?
  {
    var caption := Some(OrEmpty(m.caption));
    if m.photo != [] then Some(AlbumItem(Photo, m.photo[|m.photo| - 1], caption))
    else if m.video.Some? then Some(AlbumItem(Video, m.video.value, caption))
    else if m.document.Some? then Some(AlbumItem(Document, m.document.value, caption))
    else if m.audio.Some? then Some(AlbumItem(Audio, m.audio.value, caption))
    else if m.animation.Some? then Some(AlbumItem(Animation, m.animation.value, caption))
    else None
  }

  /** At most the first item of a buffer carries a caption, and the first one always does. */
  predicate CaptionOnFirst(media: seq<AlbumItem>) {
    && (|media| > 0 ==> media[0].caption.Some?)
    && forall i :: 0 < i < |media| ==> media[i].caption.None?
  }

  /**
   The buffer after one part: the old items untouched, followed by the part's
   item when it has an album attachment; the item keeps its caption only when
   the buffer was empty.
   */
  function AppendPart(media: seq<AlbumItem>, m: Message): (r: seq<AlbumItem>)
    ensures Contribution(m).None? ==> r == media
    ensures Contribution(m).Some? ==> |r| == |media| + 1 && r[..|media|] == media
    ensures Contribution(m).Some? ==>
      var it := Contribution(m).value;
      r[|media|] == AlbumItem(it.kind, it.fileId, if media == [] then it.caption else None)
    ensures CaptionOnFirst(media) ==> CaptionOnFirst(r)
  {
    match Contribution(m)
    case None => media
    case Some(it) => media + [if media == [] then it else it.(caption := None)]
  }

  /** The buffer a sequence of parts for one key builds, starting from nothing. */
  function Collect(parts: seq<Message>): seq<AlbumItem> {
    if parts == [] then [] else AppendPart(Collect(parts[..|parts| - 1]), parts[|parts| - 1])
  }

  /** The items the parts contribute, in arrival order, each with its own caption. */
  function Contributions(parts: seq<Message>): seq<AlbumItem> {
    if parts == [] then []
    else
      var rest := Contributions(parts[..|parts| - 1]);
      match Contribution(parts[|parts| - 1])
      case None => rest
      case Some(it) => rest + [it]
  }

  /**
   A buffer filled by any sequence of parts holds exactly the items those
   parts contribute, in arrival order, and only the first of them keeps its
   caption: a caption on any later part is dropped.
   */
  lemma {:induction false} CollectInArrivalOrder(parts: seq<Message>)
    ensures |Collect(parts)| == |Contributions(parts)|
    ensures forall i :: 0 < i < |Collect(parts)| ==>
      Collect(parts)[i] == Contributions(parts)[i].(caption := None)
    ensures |Collect(parts)| > 0 ==> Collect(parts)[0] == Contributions(parts)[0]
    ensures CaptionOnFirst(Collect(parts))
  {
    if parts != [] {
      var init := parts[..|parts| - 1];
      CollectInArrivalOrder(init);
    }
  }

  predicate AllAlbumParts(parts: seq<Message>) {
    forall i :: 0 <= i < |parts| ==> parts[i].mediaGroupId.Some?
  }

  /** The parts that belong to one album, in arrival order. */
  function PartsOf(parts: seq<Message>, key: Key): seq<Message>
    requires AllAlbumParts(parts)
  {
    if parts == [] then []
    else
      var last := parts[|parts| - 1];
      PartsOf(parts[..|parts| - 1], key) + if AlbumKey(last) == key then [last] else []
  }

  /**
   The whole buffer table after parts for any keys arrive, with no flush in
   between: each part updates its own key's entry, created empty if missing.
   */
  function Buffers(parts: seq<Message>): map<Key, seq<AlbumItem>>
    requires AllAlbumParts(parts)
  {
    if parts == [] then map[]
    else
      var table := Buffers(parts[..|parts| - 1]);
      var last := parts[|parts| - 1];
      var key := AlbumKey(last);
      table[key := AppendPart(if key in table then table[key] else [], last)]
  }

  /**
   Interleaved albums do not mix: a key has an entry exactly when one of its
   parts arrived, and that entry is what its own parts alone would build.
   */
  lemma {:induction false} BuffersAreIndependent(parts: seq<Message>, key: Key)
    requires AllAlbumParts(parts)
    ensures key in Buffers(parts) <==> PartsOf(parts, key) != []
    ensures key in Buffers(parts) ==> Buffers(parts)[key] == Collect(PartsOf(parts, key))
  {
    if parts != [] {
      var init := parts[..|parts| - 1];
      var last := parts[|parts| - 1];
      BuffersAreIndependent(init, key);
      if AlbumKey(last) == key {
        var own := PartsOf(parts, key);
        assert own[..|own| - 1] == PartsOf(init, key) && own[|own| - 1] == last;
        assert Collect(own) == AppendPart(Collect(PartsOf(init, key)), last);
        assert Buffers(parts)[key] == AppendPart(if key in Buffers(init) then Buffers(init)[key] else [], last);
      } else {
        assert PartsOf(parts, key) == PartsOf(init, key);
      }
    }
  }

  /**
   The batch a flush posts: the buffer with the placeholder put on its first
   item when that item's caption is missing or empty.
   */
  function WithPlaceholder(media: seq<AlbumItem>): (r: seq<AlbumItem>)
    requires media != []
    ensures |r| == |media| && r[1..] == media[1..]
    ensures r[0].kind == media[0].kind && r[0].fileId == media[0].fileId
    ensures Truthy(r[0].caption)
    ensures Truthy(media[0].caption) ==> r == media
    ensures !Truthy(media[0].caption) ==> r[0].caption == Some(PLACEHOLDER)
  {
    if Truthy(media[0].caption) then media
    else [media[0].(caption := Some(PLACEHOLDER))] + media[1..]
  }

  function AlbumHeader(stamp: string): string {
    ALBUM_HEADER + stamp
  }

  /**
   The calls a flush of a non-empty buffer makes: one media-group post of the
   whole batch to the admin chat, then, unless that post failed, one
   notification whose body is the batch's first caption, with the reply
   keyboard bound to the user.
   */
  function FlushSends(adminChat: int, media: seq<AlbumItem>, stamp: string, userId: int,
                      mediaGroupFails: bool): (r: seq<Send>)
    requires media != []
    ensures |r| == if mediaGroupFails then 1 else 2
    ensures r[0] == SendMediaGroup(adminChat, WithPlaceholder(media))
    ensures !mediaGroupFails ==>
      && r[1].SendText? && r[1].chat == adminChat
      && r[1].keyboard == Some(ReplyKeyboard(userId))
      && r[1].text != AlbumHeader(stamp)
      && AlbumHeader(stamp) <= r[1].text
      && CaptionBody(AlbumHeader(stamp), r[1].text) == WithPlaceholder(media)[0].caption
  {
    var batch := WithPlaceholder(media);
    var body := if Truthy(batch[0].caption) then batch[0].caption.value else PLACEHOLDER;
    [SendMediaGroup(adminChat, batch)]
    + if mediaGroupFails then []
      else [SendText(adminChat, AdminCaption(AlbumHeader(stamp), body), Some(ReplyKeyboard(userId)))]
  }
}
