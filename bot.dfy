/**
 The bot's in-memory state and the handlers that change it: the album buffer
 and its timer flags, the per-admin reply targets, and the outbound log of
 every platform call the handlers make (whether or not the platform accepts
 it). A failing call is an input of the handler that makes it; the flush timer
 is a task the environment runs later by calling Flush.
 */
module Bot {
  import opened Platform
  import opened Texts
  import opened Albums
  import opened Replies

  const RECEIVED: string := "Сообщение получено, спасибо! 🌄"
  const NOT_HERE: string := "Недоступно здесь."
  const REPLY_PROMPT: string := "Напиши ответ пользователю ниже одним сообщением. «Отмена» — чтобы выйти."
  const REPLY_ON: string := "Режим ответа включён."
  const CANCELLED: string := "Отмена."
  const SENT_OK: string := "✅ Отправлено пользователю."
  const SENT_FAILED: string := "❌ Ошибка при отправке. Попробуй ещё раз."

  /** A scheduled flush: the album key and the sender and date of the part that scheduled it. */
  datatype FlushTask = FlushTask(key: Key, userId: int, stamp: string)

  class Relay {
    /** The admin chat that receives every notification and reply control. */
    const adminChat: int
    /** admin id -> the user that admin is replying to */
    var replyTargets: map<int, int>
    var albumBuffer: map<Key, seq<AlbumItem>>
    var albumTimerRunning: map<Key, bool>
    /** every outbound platform call so far, in order */
    ghost var outbox: seq<Send>
    /** the flush task scheduled for each key and not yet run */
    ghost var pending: map<Key, FlushTask>

    /**
     A key has a buffer exactly when its flush is pending, every flag that is
     stored is set, each pending key has one scheduled task for that key, and
     in every buffer only the first item has a caption.
     */
    ghost predicate Valid()
      reads this
    {
      && adminChat != 0
      && albumBuffer.Keys == albumTimerRunning.Keys
      && (forall key :: key in albumTimerRunning ==> albumTimerRunning[key])
      && pending.Keys == albumTimerRunning.Keys
      && (forall key :: key in pending ==> pending[key].key == key)
      && (forall key :: key in albumBuffer ==> CaptionOnFirst(albumBuffer[key]))
    }

    /** Startup: the admin chat is configured and non-zero; all state is empty. */
    constructor (adminChat: int)
      requires adminChat != 0
      ensures Valid() && this.adminChat == adminChat
      ensures replyTargets == map[] && albumBuffer == map[] && albumTimerRunning == map[]
      ensures outbox == [] && pending == map[]
    {
      this.adminChat := adminChat;
      replyTargets := map[];
      albumBuffer := map[];
      albumTimerRunning := map[];
      outbox := [];
      pending := map[];
    }

    /**
     One part of an album arrives: the sender is acknowledged, the part's item
     is appended to its key's buffer (created empty if missing), and a flush is
     scheduled when none is pending for the key. Nothing else changes.
     */
    method OnAlbumPart(m: Message) returns (scheduled: Option<FlushTask>)
      requires Valid() && m.mediaGroupId.Some?
      modifies this
      ensures Valid()
      ensures var before := if AlbumKey(m) in old(albumBuffer) then old(albumBuffer)[AlbumKey(m)] else [];
              albumBuffer == old(albumBuffer)[AlbumKey(m) := AppendPart(before, m)]
      ensures albumTimerRunning == old(albumTimerRunning)[AlbumKey(m) := true]
      ensures scheduled.Some? <==> !(AlbumKey(m) in old(albumTimerRunning) && old(albumTimerRunning)[AlbumKey(m)])
      ensures scheduled.Some? ==> scheduled.value == FlushTask(AlbumKey(m), m.fromId, m.stamp)
      ensures pending == if scheduled.Some? then old(pending)[AlbumKey(m) := scheduled.value] else old(pending)
      ensures replyTargets == old(replyTargets)
      ensures outbox == old(outbox) + [Answer(m.chatId, RECEIVED)]
    {
      outbox := outbox + [Answer(m.chatId, RECEIVED)];
      var key := AlbumKey(m);
      var media := if key in albumBuffer then albumBuffer[key] else [];
      assert CaptionOnFirst(media);
      albumBuffer := albumBuffer[key := AppendPart(media, m)];
      if !(key in albumTimerRunning && albumTimerRunning[key]) {
        albumTimerRunning := albumTimerRunning[key := true];
        scheduled := Some(FlushTask(key, m.fromId, m.stamp));
        pending := pending[key := scheduled.value];
      } else {
        assert albumTimerRunning == albumTimerRunning[key := true];
        scheduled := None;
      }
    }

    /**
     A scheduled flush fires, once: the key's buffer and flag are removed; an
     empty buffer (every part had an unsupported kind) makes no call, a
     non-empty one posts the batch and then the notification.
     */
    method Flush(task: FlushTask, mediaGroupFails: bool)
      requires Valid() && task.key in pending && pending[task.key] == task
      modifies this
      ensures Valid()
      ensures pending == old(pending) - {task.key}
      ensures albumBuffer == old(albumBuffer) - {task.key}
      ensures albumTimerRunning == old(albumTimerRunning) - {task.key}
      ensures replyTargets == old(replyTargets)
      ensures var media := if task.key in old(albumBuffer) then old(albumBuffer)[task.key] else [];
              outbox == old(outbox) + if media == [] then []
                                      else FlushSends(adminChat, media, task.stamp, task.userId, mediaGroupFails)
    {
      var media := if task.key in albumBuffer then albumBuffer[task.key] else [];
      albumBuffer := albumBuffer - {task.key};
      albumTimerRunning := albumTimerRunning - {task.key};
      pending := pending - {task.key};
      if media == [] {
        return;
      }
      outbox := outbox + FlushSends(adminChat, media, task.stamp, task.userId, mediaGroupFails);
    }

    /**
     The "Reply" button is pressed in chat chatId by admin fromId. Outside the
     admin chat it is refused; otherwise the user id in the button's data
     becomes the admin's target, replacing any earlier one. Data whose id does
     not parse raises before anything changes.
     */
    method CbReply(chatId: int, fromId: int, data: string)
      requires Valid()
      modifies this
      ensures Valid()
      ensures albumBuffer == old(albumBuffer) && albumTimerRunning == old(albumTimerRunning) && pending == old(pending)
      ensures chatId != adminChat ==>
        replyTargets == old(replyTargets) && outbox == old(outbox) + [AnswerCallback(NOT_HERE, true)]
      ensures chatId == adminChat && ParseReplyData(data).None? ==>
        replyTargets == old(replyTargets) && outbox == old(outbox)
      ensures chatId == adminChat && ParseReplyData(data).Some? ==>
        && replyTargets == old(replyTargets)[fromId := ParseReplyData(data).value]
        && outbox == old(outbox) + [Answer(chatId, REPLY_PROMPT), AnswerCallback(REPLY_ON, false)]
    {
      if chatId != adminChat {
        outbox := outbox + [AnswerCallback(NOT_HERE, true)];
        return;
      }
      match ParseReplyData(data) {
        case None =>
        case Some(target) =>
          replyTargets := replyTargets[fromId := target];
          outbox := outbox + [Answer(chatId, REPLY_PROMPT), AnswerCallback(REPLY_ON, false)];
      }
    }

    /** The "Cancel" button: the admin's target is dropped, whoever pressed it and wherever. */
    method CbCancel(fromId: int)
      requires Valid()
      modifies this
      ensures Valid()
      ensures replyTargets == old(replyTargets) - {fromId}
      ensures albumBuffer == old(albumBuffer) && albumTimerRunning == old(albumTimerRunning) && pending == old(pending)
      ensures outbox == old(outbox) + [AnswerCallback(CANCELLED, false)]
    {
      replyTargets := replyTargets - {fromId};
      outbox := outbox + [AnswerCallback(CANCELLED, false)];
    }

    /**
     A message in the admin chat. With no target (or target 0) it is ignored.
     Otherwise its content, chosen first-match-wins, is re-sent to the target
     in one call, the admin is told the outcome, and the target is dropped
     exactly when that call went through.
     */
    method OnAdminChatMessage(m: Message, sendFails: bool) returns (sentOk: bool)
      requires Valid() && m.chatId == adminChat
      modifies this
      ensures Valid()
      ensures albumBuffer == old(albumBuffer) && albumTimerRunning == old(albumTimerRunning) && pending == old(pending)
      ensures m.fromId !in old(replyTargets) || old(replyTargets)[m.fromId] == 0 ==>
        !sentOk && replyTargets == old(replyTargets) && outbox == old(outbox)
      ensures m.fromId in old(replyTargets) && old(replyTargets)[m.fromId] != 0 ==>
        var target := old(replyTargets)[m.fromId];
        var content := ChooseContent(m);
        && sentOk == (content.Some? && !sendFails)
        && replyTargets == (if sentOk then old(replyTargets) - {m.fromId} else old(replyTargets))
        && outbox == old(outbox)
                     + (if content.Some? then [ReplyOf(target, m, content.value)] else [])
                     + [Answer(adminChat, if sentOk then SENT_OK else SENT_FAILED)]
    {
      if !(m.fromId in replyTargets && replyTargets[m.fromId] != 0) {
        return false;
      }
      var target := replyTargets[m.fromId];
      sentOk := false;
      match ChooseContent(m) {
        case None =>
        case Some(content) =>
          outbox := outbox + [ReplyOf(target, m, content)];
          sentOk := !sendFails;
      }
      if sentOk {
        outbox := outbox + [Answer(m.chatId, SENT_OK)];
        replyTargets := replyTargets - {m.fromId};
      } else {
        outbox := outbox + [Answer(m.chatId, SENT_FAILED)];
      }
    }
  }

  // ---------------------------------------------------------------------
  // Clients: what callers can conclude from the handlers' contracts alone

  function Part(chat: int, from: int, caption: Option<string>, photo: seq<string>,
                document: Option<string>, group: string): Message
  {
    Message(chat, from, "01.02.2025 10:00", None, caption, photo,
            None, document, None, None, None, None, None, Some(group))
  }

  /**
   Two parts of one album, a captionless photo then a document captioned
   "hi": one flush posts both items in order and one notification; the
   document's caption is dropped and the placeholder stands in for the
   photo's empty one. A part arriving after the flush starts a fresh album
   with a fresh flush.
   */
  method AlbumOfTwoParts() {
    var relay := new Relay(-100);
    var p1 := Part(55, 7, None, ["small", "large"], None, "g1");
    var p2 := Part(55, 7, Some("hi"), [], Some("doc"), "g1");
    var t1 := relay.OnAlbumPart(p1);
    var t2 := relay.OnAlbumPart(p2);
    assert t1.Some? && t2.None?;
    assert relay.albumBuffer[(55, "g1")] == [AlbumItem(Photo, "large", Some("")), AlbumItem(Document, "doc", None)];
    relay.Flush(t1.value, false);
    var batch := [AlbumItem(Photo, "large", Some(PLACEHOLDER)), AlbumItem(Document, "doc", None)];
    assert relay.outbox[2] == SendMediaGroup(-100, batch);
    assert relay.outbox[3] == SendText(-100, AlbumHeader(p1.stamp) + "\n\n" + PLACEHOLDER, Some(ReplyKeyboard(7)));
    assert |relay.outbox| == 4;
    var t3 := relay.OnAlbumPart(p2);
    assert t3.Some? && relay.albumBuffer[(55, "g1")] == [AlbumItem(Document, "doc", Some("hi"))];
  }

  /** An album whose only part has no album attachment is flushed without any call. */
  method AlbumWithoutMedia() {
    var relay := new Relay(-100);
    var voice := Part(55, 7, None, [], None, "g2").(voice := Some("v"));
    var t := relay.OnAlbumPart(voice);
    assert t.Some? && relay.albumBuffer[(55, "g2")] == [];
    relay.Flush(t.value, false);
    assert relay.outbox == [Answer(55, RECEIVED)] && (55, "g2") !in relay.albumBuffer;
  }

  /**
   An admin selects user 42 and sends "ok": exactly one text goes to 42 and
   the admin is back to idle, so a voice note sent next goes nowhere.
   */
  method ReplyThenIdle() {
    var relay := new Relay(-100);
    relay.CbReply(-100, 1, ReplyData(42));
    ReplyDataRoundTrip(42);
    assert relay.replyTargets == map[1 := 42];
    var text := Message(-100, 1, "", Some("ok"), None, [], None, None, None, None, None, None, None, None);
    var ok := relay.OnAdminChatMessage(text, false);
    assert ok && relay.replyTargets == map[];
    assert relay.outbox[2] == SendText(42, ANSWER_PREFIX + "ok", None);
    var voice := text.(text := None, voice := Some("v"));
    var before := relay.outbox;
    ok := relay.OnAdminChatMessage(voice, false);
    assert !ok && relay.outbox == before;
  }
}
