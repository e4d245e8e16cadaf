/**
 * How the writer's keys meet the readers: the files the worker stores are the files the
 * `/file/` route serves, the `chat_rel:` and `chat_index:` keys it writes are the ones the
 * chat list and the index page walk, and the backfill program finds every logged message.
 *
 * The day bucket of the index is where writer and readers disagree: `handle_message`
 * divides the message date, which Telegram gives in seconds, by the milliseconds of a day,
 * while the index page multiplies the bucket by the seconds of a day and the backfill
 * divides by them. `WriterDayMisplaced` shows the writer's bucket as written; the bucket
 * meant, `IndexDay`, is the backfill's, and is proved to name the message's own day.
 */
module Agreement {
  import opened Wrappers
  import opened Text
  import opened Store
  import TH = TelegramHandler
  import GF = GetFile
  import CI = ChatIndex
  import Chats
  import BF = Backfill

  // ================================================================ files

  /** The kind of stored file a known request type looks up */
  function EntryTypeOf(t: GF.FileRequestType): TH.FileEntryType {
    match t
    case User => TH.UserFile
    case VideoThumb => TH.VideoThumbFile
    case _ => TH.ChatFile
  }

  /** The key the route looks up is the key the worker stored the file under */
  lemma FileKeyAgrees(t: GF.FileRequestType, fileId: string)
    requires t != GF.Unknown
    ensures GF.FileKey(t, fileId) == TH.BuildFileKey(EntryTypeOf(t), fileId)
  {
  }

  /**
   * A stored file is served, with status 200 and its bytes, under every request type of its
   * kind: user pictures as `user`, video thumbnails as `video_thumb`, chat files as `image`,
   * `document` or `video`.
   */
  lemma StoredFileServed(entries: map<string, Bytes>, t: GF.FileRequestType, fileId: string,
                         guessFormat: Bytes -> Option<GF.ImageFormat>)
    requires t != GF.Unknown
    requires TH.BuildFileKey(EntryTypeOf(t), fileId) in entries
    ensures var r := GF.GetFile(entries, GF.RequestTypeName(t), fileId, guessFormat);
      && r.Response?
      && r.status == 200
      && r.body == GF.FileBody(entries[TH.BuildFileKey(EntryTypeOf(t), fileId)])
  {
    GF.ParseRequestTypeExact(GF.RequestTypeName(t), t);
    FileKeyAgrees(t, fileId);
  }

  // ================================================================ chats and days

  /** A chat whose `chat_rel:` key the worker wrote is on the chat list, and only then */
  lemma WrittenChatListed(keys: seq<string>, chat: int)
    ensures IntToString(chat) in Chats.ChatIds(Chats.RelKeys(keys)) <==> TH.ChatRelKey(chat) in keys
  {
    IntToStringNoColon(chat);
    Chats.ListedChats(keys, IntToString(chat));
  }

  /**
   * A `chat_index:` key the worker wrote is walked by its chat's index page exactly when it is
   * stored, and the page reads back the day that was written.
   */
  lemma WrittenDayListed(keys: seq<string>, chat: int, day: int)
    requires IsI64(day)
    ensures TH.ChatIndexKey(chat, day) in CI.IndexKeys(keys, IntToString(chat)) <==> TH.ChatIndexKey(chat, day) in keys
    ensures CI.KeyDay(TH.ChatIndexKey(chat, day)) == Some(day)
  {
    var key := TH.ChatIndexKey(chat, day);
    var p := CI.IndexPrefix(IntToString(chat));
    assert key == p + IntToString(day);
    assert key[..|p|] == p;
    assert key[|p|] == IntToString(day)[0];
    CI.IndexKeysExact(keys, IntToString(chat), key);
    IntToStringNoColon(chat);
    IntToStringNoColon(day);
    assert key == "chat_index" + ":" + IntToString(chat) + ":" + IntToString(day);
    SplitThree("chat_index", IntToString(chat), IntToString(day));
    ParseIntToString(day);
  }

  // ================================================================ the day bucket

  /**
   * The bucket the index page is built for: the day of a date in seconds, 86 400 seconds to a
   * day, rounded toward zero as the backfill computes it. For dates since the epoch the page's
   * label for the bucket, the bucket times 86 400 seconds, is the midnight that starts the
   * message's day.
   */
  function IndexDay(date: int): (day: int)
    ensures date >= 0 ==> day * 86_400 <= date < day * 86_400 + 86_400
    ensures IsI64(date) ==> IsI64(day)
  {
    BF.BackfillDay(date)
  }

  /**
   * As written, `handle_message` files a message of 13 September 2020 (1 600 000 000 seconds)
   * under bucket 18, which the index page shows as 19 January 1970; its own day is 18 518.
   */
  lemma WriterDayMisplaced()
    ensures TH.WriterDay(1_600_000_000) == 18
    ensures IndexDay(1_600_000_000) == 18_518
    ensures !(TH.WriterDay(1_600_000_000) * 86_400 <= 1_600_000_000 < TH.WriterDay(1_600_000_000) * 86_400 + 86_400)
  {
  }

  /**
   * The backfill walks every message the worker logged and writes it the index key of the
   * intended bucket, which the index page then lists under the message's day.
   */
  lemma MessageBackfilled(keys: seq<string>, chat: int, date: int)
    requires IsI64(date)
    ensures TH.ChatKey(chat, date) in BF.MessageKeys(keys) <==> TH.ChatKey(chat, date) in keys
    ensures BF.BackfillKey(TH.ChatKey(chat, date)) == Some(TH.ChatIndexKey(chat, IndexDay(date)))
    ensures CI.KeyDay(TH.ChatIndexKey(chat, IndexDay(date))) == Some(IndexDay(date))
  {
    var key := TH.ChatKey(chat, date);
    assert key == BF.ChatPrefix + (IntToString(chat) + ":" + IntToString(date));
    assert key[..|BF.ChatPrefix|] == BF.ChatPrefix;
    assert key[|BF.ChatPrefix|] == IntToString(chat)[0];
    BF.MessageKeysExact(keys, key);
    IntToStringNoColon(chat);
    assert key == BF.ChatPrefix + IntToString(chat) + ":" + IntToString(date);
    BF.BackfillKeyOfMessage(IntToString(chat), date);
    WrittenDayListed(keys, chat, IndexDay(date));
  }
}
