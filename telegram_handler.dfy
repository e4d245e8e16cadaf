/**
 * The Telegram worker: for every incoming message it fetches the attached files that are
 * small enough, stores them under `file:` keys, turns the message into a `LogItem`, and
 * writes the item and three index entries under the `chat:`, `chat_index:`, `chat_rel:`
 * and `chat_ref:` keys.
 *
 * The network (resolving a file id to a download path, downloading it), the image
 * integrity check and the JSON serializer are parameters: `filePath`, `download`,
 * `isImage` and `encode`.
 */
module TelegramHandler {
  import opened Wrappers
  import opened Text
  import opened Store
  import T = Telegram

  /** Attachments above this many bytes are not downloaded (50 MiB) */
  const MaxFileSize: int := 1024 * 1024 * 50

  // ================================================================ file keys

  datatype FileEntryType = ChatFile | VideoThumbFile | UserFile

  /** `build_file_key`: the store key of a downloaded file */
  function BuildFileKey(entryType: FileEntryType, fileId: string): (key: string)
    ensures StartsWith(key, "file:")
  {
    match entryType
    case ChatFile => "file:chat:" + fileId
    case VideoThumbFile => "file:video_thumb:" + fileId
    case UserFile => "file:user:" + fileId
  }

  /** Reads a file key back: the entry type from the prefix, the file id from the rest */
  function ParseFileKey(key: string): Option<(FileEntryType, string)> {
    if StartsWith(key, "file:chat:") then Some((ChatFile, key[10..]))
    else if StartsWith(key, "file:video_thumb:") then Some((VideoThumbFile, key[17..]))
    else if StartsWith(key, "file:user:") then Some((UserFile, key[10..]))
    else None
  }

  /** Stripping the prefix of a file key recovers the entry type and the file id */
  lemma FileKeyRoundTrip(entryType: FileEntryType, fileId: string)
    ensures ParseFileKey(BuildFileKey(entryType, fileId)) == Some((entryType, fileId))
  {
    var key := BuildFileKey(entryType, fileId);
    match entryType
    case ChatFile =>
      assert key[..10] == "file:chat:";
      assert key[10..] == fileId;
    case VideoThumbFile =>
      assert key[5] == 'v';
      assert !StartsWith(key, "file:chat:") by { assert "file:chat:"[5] == 'c'; }
      assert key[..17] == "file:video_thumb:";
      assert key[17..] == fileId;
    case UserFile =>
      assert key[5] == 'u';
      assert !StartsWith(key, "file:chat:") by { assert "file:chat:"[5] == 'c'; }
      assert !StartsWith(key, "file:video_thumb:") by { assert "file:video_thumb:"[5] == 'v'; }
      assert key[..10] == "file:user:";
      assert key[10..] == fileId;
  }

  /** Different entry types or different ids never share a file key */
  lemma FileKeyInjective(t1: FileEntryType, id1: string, t2: FileEntryType, id2: string)
    requires BuildFileKey(t1, id1) == BuildFileKey(t2, id2)
    ensures t1 == t2 && id1 == id2
  {
    FileKeyRoundTrip(t1, id1);
    FileKeyRoundTrip(t2, id2);
  }

  // ================================================================ the biggest photo

  function Area(p: T.PhotoSize): int {
    p.width * p.height
  }

  predicate NonNegativeAreas(photos: seq<T.PhotoSize>) {
    forall i :: 0 <= i < |photos| ==> Area(photos[i]) >= 0
  }

  /**
   * The state of `find_biggest_photo`'s loop after it has seen `photos`: the index of the
   * photo it holds (-1 for none yet) and `last_size`. A photo is taken when `last_size` is
   * 0 or when its area is strictly larger than `last_size`.
   */
  function BiggestScan(photos: seq<T.PhotoSize>): (st: (int, int))
    ensures -1 <= st.0 < |photos|
    ensures st.0 == -1 <==> photos == []
    ensures st.0 >= 0 ==> st.1 == Area(photos[st.0])
    ensures st.0 == -1 ==> st.1 == 0
    decreases |photos|
  {
    if photos == [] then (-1, 0)
    else
      var prev := BiggestScan(photos[..|photos| - 1]);
      var p := photos[|photos| - 1];
      if prev.1 == 0 || Area(p) > prev.1 then (|photos| - 1, Area(p)) else prev
  }

  /** The index of the photo `find_biggest_photo` returns */
  function BiggestIndex(photos: seq<T.PhotoSize>): (i: nat)
    requires |photos| > 0
    ensures i < |photos|
  {
    BiggestScan(photos).0
  }

  /** The photo `find_biggest_photo` returns (it unwraps, so the list must not be empty) */
  function BiggestPhoto(photos: seq<T.PhotoSize>): T.PhotoSize
    requires |photos| > 0
  {
    photos[BiggestIndex(photos)]
  }

  /**
   * With sizes that are not negative, the chosen photo has the largest area; among photos
   * of the same positive area the earliest is chosen (the comparison is strict); when every
   * area is 0 the last photo is chosen.
   */
  lemma {:induction false} BiggestPhotoIsLargest(photos: seq<T.PhotoSize>)
    requires |photos| > 0 && NonNegativeAreas(photos)
    ensures forall j :: 0 <= j < |photos| ==> Area(photos[j]) <= Area(BiggestPhoto(photos))
    ensures Area(BiggestPhoto(photos)) > 0 ==>
      forall j :: 0 <= j < BiggestIndex(photos) ==> Area(photos[j]) < Area(BiggestPhoto(photos))
    ensures Area(BiggestPhoto(photos)) == 0 ==> BiggestIndex(photos) == |photos| - 1
    decreases |photos|
  {
    var pre := photos[..|photos| - 1];
    if pre != [] {
      assert NonNegativeAreas(pre) by {
        forall j | 0 <= j < |pre| ensures Area(pre[j]) >= 0 { assert pre[j] == photos[j]; }
      }
      BiggestPhotoIsLargest(pre);
      assert forall j :: 0 <= j < |pre| ==> pre[j] == photos[j];
    }
  }

  /** `find_biggest_photo` */
  method FindBiggestPhoto(photos: seq<T.PhotoSize>) returns (biggest: T.PhotoSize)
    requires |photos| > 0
    ensures biggest == BiggestPhoto(photos)
  {
    var photo: Option<T.PhotoSize> := None;
    var lastSize := 0;
    for i := 0 to |photos|
      invariant lastSize == BiggestScan(photos[..i]).1
      invariant photo == if BiggestScan(photos[..i]).0 == -1 then None
                         else Some(photos[BiggestScan(photos[..i]).0])
    {
      assert photos[..i + 1][..i] == photos[..i];
      var size := photos[i];
      if lastSize == 0 {
        photo := Some(size);
        lastSize := size.width * size.height;
        continue;
      }
      if size.width * size.height > lastSize {
        photo := Some(size);
        lastSize := size.width * size.height;
      }
    }
    assert photos[..|photos|] == photos;
    biggest := photo.value;
  }

  // ================================================================ which files are fetched

  /** The size filter: a size must be known and at most `MaxFileSize` */
  predicate SizeAllowed(size: Option<int>) {
    size.Some? && size.value <= MaxFileSize
  }

  /** A photo is kept when its size passes the filter and its download path is found */
  predicate PhotoKept(p: T.PhotoSize, filePath: string -> Option<string>) {
    SizeAllowed(p.fileSize) && filePath(p.fileId).Some?
  }

  /** The (file id, download path) pairs `extract_file_paths` collects from a list of photos */
  function PhotoRefs(photos: seq<T.PhotoSize>, filePath: string -> Option<string>): seq<(string, string)>
    decreases |photos|
  {
    if photos == [] then []
    else
      var p := photos[|photos| - 1];
      PhotoRefs(photos[..|photos| - 1], filePath)
        + if PhotoKept(p, filePath) then [(p.fileId, filePath(p.fileId).value)] else []
  }

  /** The (file id, download path) pairs `extract_file_paths` collects from a message */
  function FileRefs(kind: T.MessageKind, filePath: string -> Option<string>): (refs: seq<(string, string)>)
    ensures !(kind.Audio? || kind.Voice? || kind.Photo?) ==> refs == []
    ensures kind.Audio? ==> |refs| <= 1 && (refs != [] <==>
      SizeAllowed(kind.audio.fileSize) && filePath(kind.audio.fileId).Some?)
    ensures kind.Voice? ==> |refs| <= 1 && (refs != [] <==>
      SizeAllowed(kind.voice.fileSize) && filePath(kind.voice.fileId).Some?)
  {
    match kind
    case Audio(a) =>
      if SizeAllowed(a.fileSize) && filePath(a.fileId).Some? then [(a.fileId, filePath(a.fileId).value)] else []
    case Voice(v) =>
      if SizeAllowed(v.fileSize) && filePath(v.fileId).Some? then [(v.fileId, filePath(v.fileId).value)] else []
    case Photo(photos, _) => PhotoRefs(photos, filePath)
    case _ => []
  }

  /** Photo refs keep the input order: the refs of a concatenation are the concatenated refs */
  lemma {:induction false} PhotoRefsAppend(a: seq<T.PhotoSize>, b: seq<T.PhotoSize>, filePath: string -> Option<string>)
    ensures PhotoRefs(a + b, filePath) == PhotoRefs(a, filePath) + PhotoRefs(b, filePath)
    decreases |b|
  {
    if b == [] {
      assert a + b == a;
    } else {
      assert (a + b)[..|a + b| - 1] == a + b[..|b| - 1];
      assert (a + b)[|a + b| - 1] == b[|b| - 1];
      PhotoRefsAppend(a, b[..|b| - 1], filePath);
    }
  }

  /**
   * A photo's ref is collected exactly when the photo passes the size filter and has a
   * download path; oversized or size-less photos are skipped one by one.
   */
  lemma {:induction false} PhotoRefsExact(photos: seq<T.PhotoSize>, filePath: string -> Option<string>)
    ensures forall r :: r in PhotoRefs(photos, filePath) ==>
      exists p :: p in photos && PhotoKept(p, filePath) && r == (p.fileId, filePath(p.fileId).value)
    ensures forall p :: p in photos && PhotoKept(p, filePath) ==>
      (p.fileId, filePath(p.fileId).value) in PhotoRefs(photos, filePath)
    decreases |photos|
  {
    if photos != [] {
      var pre := photos[..|photos| - 1];
      PhotoRefsExact(pre, filePath);
      assert forall p :: p in photos <==> p in pre || p == photos[|photos| - 1];
    }
  }

  /** `extract_file_paths` */
  method ExtractFilePaths(kind: T.MessageKind, filePath: string -> Option<string>)
    returns (fileRefs: seq<(string, string)>)
    ensures fileRefs == FileRefs(kind, filePath)
  {
    fileRefs := [];
    match kind {
      case Audio(data) =>
        if !SizeAllowed(data.fileSize) {
          return;
        }
        match filePath(data.fileId) {
          case Some(x) => fileRefs := fileRefs + [(data.fileId, x)];
          case None => return;
        }
      case Voice(data) =>
        if !SizeAllowed(data.fileSize) {
          return;
        }
        match filePath(data.fileId) {
          case Some(x) => fileRefs := fileRefs + [(data.fileId, x)];
          case None => return;
        }
      case Photo(data, _) =>
        for i := 0 to |data|
          invariant fileRefs == PhotoRefs(data[..i], filePath)
        {
          assert data[..i + 1][..i] == data[..i];
          var photo := data[i];
          if !SizeAllowed(photo.fileSize) {
            continue;
          }
          match filePath(photo.fileId) {
            case Some(x) => fileRefs := fileRefs + [(photo.fileId, x)];
            case None => continue;
          }
        }
        assert data[..|data|] == data;
      case _ =>
    }
  }

  /** The (file id, bytes) pairs whose download succeeded, in the order of `refs` */
  function Downloaded(refs: seq<(string, string)>, download: string -> Option<Bytes>): (files: seq<(string, Bytes)>)
    ensures |files| <= |refs|
    decreases |refs|
  {
    if refs == [] then []
    else
      var r := refs[|refs| - 1];
      Downloaded(refs[..|refs| - 1], download)
        + if download(r.1).Some? then [(r.0, download(r.1).value)] else []
  }

  /**
   * The downloaded files are exactly the downloads of the collected refs that succeeded:
   * every file is one of them, and every ref whose download succeeds is kept.
   */
  lemma {:induction false} DownloadedFromRefs(refs: seq<(string, string)>, download: string -> Option<Bytes>)
    ensures forall f :: f in Downloaded(refs, download) ==>
      exists r :: r in refs && f.0 == r.0 && download(r.1) == Some(f.1)
    ensures forall r :: r in refs && download(r.1).Some? ==> (r.0, download(r.1).value) in Downloaded(refs, download)
    decreases |refs|
  {
    if refs != [] {
      var pre := refs[..|refs| - 1];
      var last := refs[|refs| - 1];
      DownloadedFromRefs(pre, download);
      assert forall r :: r in pre ==> r in refs;
      assert last in refs;
      forall r | r in refs && download(r.1).Some?
        ensures (r.0, download(r.1).value) in Downloaded(refs, download)
      {
        if r != last {
          assert r in pre;
        }
      }
    }
  }

  /** Downloads keep the order of the refs: the files of two batches are those of each, in turn */
  lemma {:induction false} DownloadedAppend(a: seq<(string, string)>, b: seq<(string, string)>,
                                            download: string -> Option<Bytes>)
    ensures Downloaded(a + b, download) == Downloaded(a, download) + Downloaded(b, download)
    decreases |b|
  {
    if b == [] {
      assert a + b == a;
    } else {
      assert (a + b)[..|a + b| - 1] == a + b[..|b| - 1];
      DownloadedAppend(a, b[..|b| - 1], download);
    }
  }

  /** `get_files`: downloads every collected file, skipping failed downloads */
  method GetFiles(refs: seq<(string, string)>, download: string -> Option<Bytes>)
    returns (files: seq<(string, Bytes)>)
    ensures files == Downloaded(refs, download)
  {
    files := [];
    for i := 0 to |refs|
      invariant files == Downloaded(refs[..i], download)
    {
      assert refs[..i + 1][..i] == refs[..i];
      var (fileId, path) := refs[i];
      match download(path) {
        case Some(bytes) => files := files + [(fileId, bytes)];
        case None => continue;
      }
    }
    assert refs[..|refs|] == refs;
  }

  /** The file ids of downloaded files, in order */
  function FileIds(files: seq<(string, Bytes)>): seq<string> {
    seq(|files|, i requires 0 <= i < |files| => files[i].0)
  }

  /** The writes `process_files` performs, one `file:chat:` entry per downloaded file */
  function FileWrites(files: seq<(string, Bytes)>): seq<(string, Bytes)> {
    seq(|files|, i requires 0 <= i < |files| => (BuildFileKey(ChatFile, files[i].0), files[i].1))
  }

  /**
   * `process_files`: downloads the message's files and stores each under its `file:chat:`
   * key; the first failed write aborts. On success the stored ids come back in fetch order.
   */
  method ProcessFiles(db: Db, kind: T.MessageKind, filePath: string -> Option<string>,
                      download: string -> Option<Bytes>)
    returns (ids: Option<seq<string>>)
    modifies db
    ensures var files := Downloaded(FileRefs(kind, filePath), download);
      && (ids.Some? ==>
            && ids.value == FileIds(files)
            && db.entries == ApplyPuts(old(db.entries), FileWrites(files)))
      && (ids.None? ==>
            exists n :: (0 <= n < |files|
              && db.entries == ApplyPuts(old(db.entries), FileWrites(files)[..n])))
  {
    var refs := ExtractFilePaths(kind, filePath);
    var files := GetFiles(refs, download);
    var writes := FileWrites(files);
    for i := 0 to |files|
      invariant db.entries == ApplyPuts(old(db.entries), writes[..i])
    {
      assert writes[..i + 1][..i] == writes[..i];
      var ok := db.Put(BuildFileKey(ChatFile, files[i].0), files[i].1);
      if !ok {
        return None;
      }
    }
    assert writes[..|files|] == writes;
    ids := Some(FileIds(files));
  }

  /**
   * `process_photosize` (its `file_id` argument is `None` at every call site): downloads a
   * thumbnail, checks that it is an image, and stores it under its `file:video_thumb:` key.
   * The file id comes back only when all of this succeeded.
   */
  method ProcessPhotosize(db: Db, photo: T.PhotoSize, filePath: string -> Option<string>,
                          download: string -> Option<Bytes>, isImage: Bytes -> bool)
    returns (thumbId: Option<string>)
    modifies db
    ensures thumbId.Some? ==> thumbId.value == photo.fileId
    ensures thumbId.Some? ==>
      && filePath(photo.fileId).Some?
      && download(filePath(photo.fileId).value).Some?
      && isImage(download(filePath(photo.fileId).value).value)
    ensures db.entries == if thumbId.None? then old(db.entries)
      else old(db.entries)[BuildFileKey(VideoThumbFile, photo.fileId) := download(filePath(photo.fileId).value).value]
  {
    thumbId := None;
    match filePath(photo.fileId) {
      case None =>
      case Some(path) =>
        match download(path) {
          case None =>
          case Some(file) =>
            if isImage(file) {
              var ok := db.Put(BuildFileKey(VideoThumbFile, photo.fileId), file);
              if ok {
                thumbId := Some(photo.fileId);
              }
            }
        }
    }
  }

  // ================================================================ log items

  datatype MediaType =
    | Image(width: int, height: int)
    | Video(duration: int, width: int, height: int, thumbFileId: Option<string>, mimeType: Option<string>)
    | Audio(duration: int, performer: Option<string>, title: Option<string>, mimeType: Option<string>)
    | Voice(duration: int, mimeType: Option<string>)
    | VideoNote(duration: int, thumbFileId: Option<string>)
    | Document(fileName: Option<string>, mimeType: Option<string>)
    | Sticker(emoji: Option<string>, setName: Option<string>)

  datatype MembershipType = Left | Joined

  /** The special kinds, kept without their copied payloads (the source spells `PinnnedMessage`) */
  datatype SpecialType = Contact | Location | Venue | Poll | PinnnedMessage

  datatype ChatType = NewTitle(title: string) | NewPhoto(fileId: Option<string>) | DeletePhoto

  /** `LogItemMessageEntityKind`: a text mention keeps the user id as text */
  datatype EntityKind =
    | Mention | Hashtag | BotCommand | Url | Email | Bold | Italic | Code | Pre
    | TextLink(url: string)
    | TextMention(userId: string)
    | Unknown
  {
    function Name(): string {
      match this
      case Mention => "Mention"
      case Hashtag => "Hashtag"
      case BotCommand => "BotCommand"
      case Url => "Url"
      case Email => "Email"
      case Bold => "Bold"
      case Italic => "Italic"
      case Code => "Code"
      case Pre => "Pre"
      case TextLink(_) => "TextLink"
      case TextMention(_) => "TextMention"
      case Unknown => "Unknown"
    }
  }

  datatype MessageEntity = MessageEntity(offset: int, length: int, kind: EntityKind)

  /** `LogItem`: what is stored, as JSON, under a message's `chat:` key */
  datatype LogItem =
    | Message(userId: string, time: int, text: string, entities: seq<MessageEntity>)
    | Media(userId: string, time: int, caption: Option<string>, mediaType: MediaType, files: seq<string>)
    | Special(userId: string, time: int, specialType: SpecialType)
    | Membership(userId: string, time: int, membershipType: MembershipType)
    | Chat(userId: string, time: int, chatType: ChatType)
    | Pin(userId: string, time: int, message: Option<string>, messageId: string)
    | Unimplemented(tag: string, userId: string, time: int)

  /** `map_entity_kind`: every kind goes to its namesake; `Unknown(_)` loses its payload */
  function MapEntityKind(kind: T.EntityKind): (r: EntityKind)
    ensures r.Name() == kind.Name()
    ensures kind.TextLink? ==> r.TextLink? && r.url == kind.url
    ensures kind.TextMention? ==> r.TextMention? && r.userId == IntToString(kind.user.id)
  {
    match kind
    case Mention => Mention
    case Hashtag => Hashtag
    case BotCommand => BotCommand
    case Url => Url
    case Email => Email
    case Bold => Bold
    case Italic => Italic
    case Code => Code
    case Pre => Pre
    case TextLink(v) => TextLink(v)
    case TextMention(v) => TextMention(IntToString(v.id))
    case Unknown(_) => Unknown
  }

  function MapEntity(e: T.MessageEntity): MessageEntity {
    MessageEntity(e.offset, e.length, MapEntityKind(e.kind))
  }

  /** The message kinds for which `run` fetches files; they are also the kinds logged as media */
  predicate FetchesFiles(kind: T.MessageKind) {
    kind.Audio? || kind.Voice? || kind.Photo? || kind.Document? || kind.Sticker? || kind.Video? || kind.VideoNote?
  }

  /** The kinds logged as `Unimplemented` */
  predicate IsUnimplementedKind(kind: T.MessageKind) {
    kind.GroupChatCreated? || kind.SupergroupChatCreated? || kind.ChannelChatCreated?
      || kind.MigrateToChatId? || kind.MigrateFromChatId? || kind.Unknown?
  }

  /** Telegram never sends an empty photo list; `find_biggest_photo` would panic on one */
  predicate WellFormedKind(kind: T.MessageKind) {
    (kind.Photo? ==> |kind.photos| > 0) && (kind.NewChatPhoto? ==> |kind.photos| > 0)
  }

  /**
   * The photo `build_log_item` hands to `process_photosize`, if any: a video's or a video
   * note's thumbnail, or the biggest size of a new chat photo.
   */
  function ThumbSource(kind: T.MessageKind): Option<T.PhotoSize>
    requires WellFormedKind(kind)
  {
    match kind
    case Video(v, _) => v.thumb
    case VideoNote(v) => v.thumb
    case NewChatPhoto(photos) => Some(BiggestPhoto(photos))
    case _ => None
  }

  /**
   * `build_log_item`. `files` are the ids `process_files` stored and `thumb` is what
   * `process_photosize` returned for `ThumbSource(kind)` (it is ignored when there is none).
   */
  function BuildLogItem(m: T.Message, files: seq<string>, thumb: Option<string>): LogItem
    requires WellFormedKind(m.kind)
  {
    var uid := IntToString(m.from);
    match m.kind
    case Text(data, entities) =>
      Message(uid, m.date, data, seq(|entities|, i requires 0 <= i < |entities| => MapEntity(entities[i])))
    case Audio(a) =>
      Media(uid, m.date, None, Audio(a.duration, a.performer, a.title, a.mimeType), files)
    case Document(d, caption) =>
      Media(uid, m.date, caption, Document(d.fileName, d.mimeType), files)
    case Photo(photos, caption) =>
      var photo := BiggestPhoto(photos);
      Media(uid, m.date, caption, Image(photo.width, photo.height), files)
    case Sticker(s) =>
      Media(uid, m.date, None, Sticker(s.emoji, s.setName), files)
    case Video(v, caption) =>
      var thumbFileId := if v.thumb.Some? then thumb else None;
      Media(uid, m.date, caption, Video(v.duration, v.width, v.height, thumbFileId, v.mimeType), files)
    case Voice(v) =>
      Media(uid, m.date, None, Voice(v.duration, v.mimeType), files)
    case VideoNote(v) =>
      var thumbFileId := if v.thumb.Some? then thumb else None;
      Media(uid, m.date, None, VideoNote(v.duration, thumbFileId), files)
    case Contact => Special(uid, m.date, Contact)
    case Location => Special(uid, m.date, Location)
    case Poll => Special(uid, m.date, Poll)
    case Venue => Special(uid, m.date, Venue)
    case NewChatMembers => Membership(uid, m.date, Joined)
    case LeftChatMember => Membership(uid, m.date, Left)
    case NewChatTitle(title) => Chat(uid, m.date, NewTitle(title))
    case NewChatPhoto(_) => Chat(uid, m.date, NewPhoto(thumb))
    case DeleteChatPhoto => Chat(uid, m.date, DeletePhoto)
    case PinnedMessage(text, id) => Pin(uid, m.date, text, IntToString(id))
    case GroupChatCreated => Unimplemented("GroupChatCreated", uid, m.date)
    case SupergroupChatCreated => Unimplemented("SupergroupChatCreated", uid, m.date)
    case ChannelChatCreated => Unimplemented("ChannelChatCreated", uid, m.date)
    case MigrateToChatId => Unimplemented("MigrateToChatId", uid, m.date)
    case MigrateFromChatId => Unimplemented("MigrateFromChatId", uid, m.date)
    case Unknown => Unimplemented("Unknown", uid, m.date)
  }

  /**
   * The item `build_log_item` makes of each message kind: its variant, the sender and time,
   * the text and entities of a text message, the caption, media type, files and thumbnail
   * of a media message, the membership type, and the tag of an unimplemented kind.
   */
  lemma BuildLogItemShape(m: T.Message, files: seq<string>, thumb: Option<string>)
    requires WellFormedKind(m.kind)
    ensures var r := BuildLogItem(m, files, thumb);
      && (r.userId == IntToString(m.from) && r.time == m.date)
      && (r.Message? <==> m.kind.Text?)
      && (r.Media? <==> FetchesFiles(m.kind))
      && (r.Special? <==> m.kind.Contact? || m.kind.Location? || m.kind.Poll? || m.kind.Venue?)
      && (r.Membership? <==> m.kind.NewChatMembers? || m.kind.LeftChatMember?)
      && (r.Chat? <==> m.kind.NewChatTitle? || m.kind.NewChatPhoto? || m.kind.DeleteChatPhoto?)
      && (r.Pin? <==> m.kind.PinnedMessage?)
      && (r.Unimplemented? <==> IsUnimplementedKind(m.kind))
      && (r.Unimplemented? ==> r.tag == m.kind.Name())
      && (r.Media? ==> r.files == files)
      && (m.kind.NewChatMembers? ==> r.membershipType == Joined)
      && (m.kind.LeftChatMember? ==> r.membershipType == Left)
      && (m.kind.Text? ==>
          && r.text == m.kind.data
          && |r.entities| == |m.kind.entities|
          && (forall i :: 0 <= i < |r.entities| ==>
                && r.entities[i].offset == m.kind.entities[i].offset
                && r.entities[i].length == m.kind.entities[i].length
                && r.entities[i].kind == MapEntityKind(m.kind.entities[i].kind)))
      && (m.kind.Photo? ==>
          && r.caption == m.kind.caption
          && r.mediaType == Image(BiggestPhoto(m.kind.photos).width, BiggestPhoto(m.kind.photos).height))
      && ((m.kind.Audio? || m.kind.Voice? || m.kind.Sticker? || m.kind.VideoNote?) ==> r.caption == None)
      && ((m.kind.Document? || m.kind.Video?) ==> r.caption == m.kind.caption)
      && (m.kind.Video? ==>
          && r.mediaType.Video?
          && r.mediaType.thumbFileId == (if m.kind.video.thumb.Some? then thumb else None))
      && (m.kind.VideoNote? ==>
          && r.mediaType.VideoNote?
          && r.mediaType.thumbFileId == (if m.kind.videoNote.thumb.Some? then thumb else None))
      && (m.kind.NewChatPhoto? ==> r.chatType == NewPhoto(thumb))
      && (m.kind.Audio? ==>
          r.mediaType == Audio(m.kind.audio.duration, m.kind.audio.performer, m.kind.audio.title, m.kind.audio.mimeType))
      && (m.kind.Voice? ==> r.mediaType == Voice(m.kind.voice.duration, m.kind.voice.mimeType))
      && (m.kind.Document? ==> r.mediaType == Document(m.kind.document.fileName, m.kind.document.mimeType))
      && (m.kind.Sticker? ==> r.mediaType == Sticker(m.kind.sticker.emoji, m.kind.sticker.setName))
  {
  }

  // ================================================================ the message entries

  /** `chat:{chat}:{date}`, the key of the logged item */
  function ChatKey(chat: int, date: int): string {
    "chat:" + IntToString(chat) + ":" + IntToString(date)
  }

  /** The day bucket `handle_message` writes: the date divided by 86 400 000, rounded toward zero */
  function WriterDay(date: int): int {
    TruncDiv(date, 86_400_000)
  }

  /** `chat_index:{chat}:{day}` */
  function ChatIndexKey(chat: int, day: int): string {
    "chat_index:" + IntToString(chat) + ":" + IntToString(day)
  }

  /** `chat_rel:{chat}` */
  function ChatRelKey(chat: int): string {
    "chat_rel:" + IntToString(chat)
  }

  /** `chat_ref:{chat}:{message id}` */
  function ChatRefKey(chat: int, messageId: int): string {
    "chat_ref:" + IntToString(chat) + ":" + IntToString(messageId)
  }

  /** The decimal text of a number, as bytes */
  function DecimalBytes(n: int): Bytes {
    var s := IntToString(n);
    assert forall i :: 0 <= i < |s| ==> s[i] as int < 128 by {
      forall i | 0 <= i < |s| ensures s[i] as int < 128 {
        assert IsDigit(s[i]) || s[i] == '-';
      }
    }
    AsciiBytes(s)
  }

  /**
   * The four writes of `handle_message`, in order: the item under its `chat:` key, a NUL
   * byte under the `chat_index:` and `chat_rel:` keys, and the date under the `chat_ref:` key.
   * The four keys are pairwise different, so no write of a message replaces another of its own.
   */
  function MessageWrites(m: T.Message, serialized: Bytes): (w: seq<(string, Bytes)>)
    ensures |w| == 4
    ensures forall i, j :: 0 <= i < j < 4 ==> w[i].0 != w[j].0
  {
    var w := [
      (ChatKey(m.chat, m.date), serialized),
      (ChatIndexKey(m.chat, WriterDay(m.date)), [0 as byte]),
      (ChatRelKey(m.chat), [0 as byte]),
      (ChatRefKey(m.chat, m.id), DecimalBytes(m.date))
    ];
    assert w[0].0[4] == ':' && w[1].0[4] == '_' && w[2].0[4] == '_' && w[3].0[4] == '_';
    assert w[1].0[5] == 'i' && w[2].0[5] == 'r' && w[3].0[5] == 'r';
    assert w[2].0[7] == 'l' && w[3].0[7] == 'f';
    w
  }

  /** After all four writes the store holds the item, the two markers and the date */
  lemma MessageWritesStored(entries: map<string, Bytes>, m: T.Message, serialized: Bytes)
    ensures var after := ApplyPuts(entries, MessageWrites(m, serialized));
      && KeysPresent(after, m)
      && after[ChatKey(m.chat, m.date)] == serialized
      && after[ChatIndexKey(m.chat, WriterDay(m.date))] == [0]
      && after[ChatRelKey(m.chat)] == [0]
      && after[ChatRefKey(m.chat, m.id)] == DecimalBytes(m.date)
  {
    var w := MessageWrites(m, serialized);
    ApplyPutsDistinct(entries, w, 0);
    ApplyPutsDistinct(entries, w, 1);
    ApplyPutsDistinct(entries, w, 2);
    ApplyPutsDistinct(entries, w, 3);
  }

  /**
   * The `chat:` key identifies an item by chat and second only: two messages of one chat
   * sent in the same second get the same key, and the later write replaces the earlier item.
   */
  lemma ChatKeyCollision(m1: T.Message, m2: T.Message)
    requires m1.chat == m2.chat && m1.date == m2.date && m1.id != m2.id
    ensures MessageWrites(m1, [])[0].0 == MessageWrites(m2, [])[0].0
    ensures MessageWrites(m1, [])[3].0 != MessageWrites(m2, [])[3].0 || !IsI64(m1.id) || !IsI64(m2.id)
  {
    if IsI64(m1.id) && IsI64(m2.id) && ChatRefKey(m1.chat, m1.id) == ChatRefKey(m2.chat, m2.id) {
      var p := "chat_ref:" + IntToString(m1.chat) + ":";
      assert ChatRefKey(m1.chat, m1.id) == p + IntToString(m1.id);
      assert ChatRefKey(m2.chat, m2.id) == p + IntToString(m2.id);
      assert IntToString(m1.id) == ChatRefKey(m1.chat, m1.id)[|p|..];
      IntToStringInjective(m1.id, m2.id);
    }
  }

  /**
   * `handle_message`: builds the log item and performs the four writes in order; the first
   * failed write aborts the rest.
   */
  method HandleMessage(db: Db, m: T.Message, files: seq<string>, thumb: Option<string>, encode: LogItem -> Bytes)
    returns (ok: bool)
    requires WellFormedKind(m.kind)
    modifies db
    ensures exists n :: (0 <= n <= 4
      && db.entries == ApplyPuts(old(db.entries), MessageWrites(m, encode(BuildLogItem(m, files, thumb)))[..n])
      && (ok <==> n == 4))
  {
    var logItem := BuildLogItem(m, files, thumb);
    var w := MessageWrites(m, encode(logItem));
    assert db.entries == ApplyPuts(old(db.entries), w[..0]);

    var messageKey := ChatKey(m.chat, m.date);
    ok := db.Put(messageKey, encode(logItem));
    if !ok { return; }
    assert w[..1][..0] == w[..0];
    assert db.entries == ApplyPuts(old(db.entries), w[..1]);

    var chatIndexKey := ChatIndexKey(m.chat, WriterDay(m.date));
    ok := db.Put(chatIndexKey, [0]);
    if !ok { return; }
    assert w[..2][..1] == w[..1];
    assert db.entries == ApplyPuts(old(db.entries), w[..2]);

    var chatKey := ChatRelKey(m.chat);
    ok := db.Put(chatKey, [0]);
    if !ok { return; }
    assert w[..3][..2] == w[..2];
    assert db.entries == ApplyPuts(old(db.entries), w[..3]);

    var messageRefKey := ChatRefKey(m.chat, m.id);
    ok := db.Put(messageRefKey, DecimalBytes(m.date));
    if !ok { return; }
    assert w[..4][..3] == w[..3];
    assert db.entries == ApplyPuts(old(db.entries), w[..4]);
  }

  /** The four keys of a message are in the store */
  predicate KeysPresent(entries: map<string, Bytes>, m: T.Message) {
    && ChatKey(m.chat, m.date) in entries
    && ChatIndexKey(m.chat, WriterDay(m.date)) in entries
    && ChatRelKey(m.chat) in entries
    && ChatRefKey(m.chat, m.id) in entries
  }

  /** The ids `run` hands to `build_log_item`: the stored files of a media message, none otherwise */
  function FetchedIds(kind: T.MessageKind, filePath: string -> Option<string>, download: string -> Option<Bytes>): seq<string> {
    if FetchesFiles(kind) then FileIds(Downloaded(FileRefs(kind, filePath), download)) else []
  }

  /** The file writes `run` makes for a message's kind: its downloaded media, if it is a media message */
  function MediaWrites(kind: T.MessageKind, filePath: string -> Option<string>, download: string -> Option<Bytes>): seq<(string, Bytes)> {
    if FetchesFiles(kind) then FileWrites(Downloaded(FileRefs(kind, filePath), download)) else []
  }

  /**
   * A thumbnail result `process_photosize` can give: none, or the id of the message's
   * thumbnail source once its path resolved, its download succeeded and it is an image
   */
  predicate ThumbFrom(kind: T.MessageKind, filePath: string -> Option<string>, download: string -> Option<Bytes>,
                      isImage: Bytes -> bool, thumb: Option<string>)
    requires WellFormedKind(kind)
  {
    thumb.Some? ==>
      && ThumbSource(kind).Some? && thumb.value == ThumbSource(kind).value.fileId
      && filePath(thumb.value).Some?
      && download(filePath(thumb.value).value).Some?
      && isImage(download(filePath(thumb.value).value).value)
  }

  /** The write of a stored thumbnail: its downloaded bytes under its `file:video_thumb:` key */
  function ThumbWrites(kind: T.MessageKind, filePath: string -> Option<string>, download: string -> Option<Bytes>,
                       thumb: Option<string>): seq<(string, Bytes)>
    requires WellFormedKind(kind)
  {
    match ThumbSource(kind)
    case Some(photo) =>
      if thumb.Some? && filePath(photo.fileId).Some? && download(filePath(photo.fileId).value).Some?
      then [(BuildFileKey(VideoThumbFile, photo.fileId), download(filePath(photo.fileId).value).value)]
      else []
    case None => []
  }

  /** A thumbnail named by the logged item is one whose bytes are written under its `file:video_thumb:` key */
  lemma ThumbStored(kind: T.MessageKind, filePath: string -> Option<string>, download: string -> Option<Bytes>,
                    isImage: Bytes -> bool, thumb: Option<string>)
    requires WellFormedKind(kind) && ThumbFrom(kind, filePath, download, isImage, thumb)
    ensures thumb.Some? ==>
      ThumbWrites(kind, filePath, download, thumb)
        == [(BuildFileKey(VideoThumbFile, thumb.value), download(filePath(thumb.value).value).value)]
    ensures thumb.None? ==> ThumbWrites(kind, filePath, download, thumb) == []
  {
  }

  /**
   * Every write `run` makes for one message, in order: the media files, the thumbnail if it
   * was stored, then the four writes of the serialised item `item`.
   */
  function UpdateWrites(m: T.Message, filePath: string -> Option<string>, download: string -> Option<Bytes>,
                        thumb: Option<string>, item: Bytes): seq<(string, Bytes)>
    requires WellFormedKind(m.kind)
  {
    MediaWrites(m.kind, filePath, download) + ThumbWrites(m.kind, filePath, download, thumb) + MessageWrites(m, item)
  }

  /**
   * The store `after` holds the first `n` of the writes `w` made to `before`, and the
   * handling succeeded exactly when every write was made.
   */
  ghost predicate PrefixApplied(after: map<string, Bytes>, before: map<string, Bytes>,
                                w: seq<(string, Bytes)>, ok: bool, n: nat) {
    && n <= |w|
    && after == ApplyPuts(before, w[..n])
    && (ok <==> n == |w|)
  }

  /**
   * The first half of `run`'s loop body: the files of a media message are fetched and
   * stored (a failed write ends the handling of the message), and a thumbnail is stored
   * while the item is built. On success the store holds the media writes and the thumbnail
   * write, and the returned ids are the stored files' ids.
   */
  method FetchAttachments(db: Db, m: T.Message, filePath: string -> Option<string>,
                          download: string -> Option<Bytes>, isImage: Bytes -> bool)
    returns (ok: bool, files: seq<string>, thumb: Option<string>)
    requires WellFormedKind(m.kind)
    modifies db
    ensures ThumbFrom(m.kind, filePath, download, isImage, thumb)
    ensures !FetchesFiles(m.kind) ==> ok && files == []
    ensures ok ==> files == FetchedIds(m.kind, filePath, download)
    ensures ok ==> db.entries == ApplyPuts(old(db.entries),
      MediaWrites(m.kind, filePath, download) + ThumbWrites(m.kind, filePath, download, thumb))
    ensures !ok ==> exists n :: (0 <= n < |MediaWrites(m.kind, filePath, download)|
      && db.entries == ApplyPuts(old(db.entries), MediaWrites(m.kind, filePath, download)[..n]))
  {
    files := [];
    thumb := None;
    if FetchesFiles(m.kind) {
      var stored := ProcessFiles(db, m.kind, filePath, download);
      if stored.None? {
        assert MediaWrites(m.kind, filePath, download) == FileWrites(Downloaded(FileRefs(m.kind, filePath), download));
        return false, files, thumb;
      }
      files := stored.value;
    }
    ghost var media := MediaWrites(m.kind, filePath, download);
    assert db.entries == ApplyPuts(old(db.entries), media);
    match ThumbSource(m.kind) {
      case Some(photo) =>
        thumb := ProcessPhotosize(db, photo, filePath, download, isImage);
        ghost var t := ThumbWrites(m.kind, filePath, download, thumb);
        ApplyPutsAppend(old(db.entries), media, t);
        assert t == [] || ApplyPuts(ApplyPuts(old(db.entries), media), t) == ApplyPuts(old(db.entries), media)[t[0].0 := t[0].1];
      case None =>
        assert media + [] == media;
    }
    ok := true;
  }

  /**
   * What handling message `m` leaves in the store: some thumbnail result `process_photosize`
   * can give, and a prefix of the message's writes (with the item built from the stored ids
   * and that thumbnail), all of them exactly when `ok`.
   */
  ghost predicate UpdateLogged(after: map<string, Bytes>, before: map<string, Bytes>, m: T.Message,
                               filePath: string -> Option<string>, download: string -> Option<Bytes>,
                               isImage: Bytes -> bool, encode: LogItem -> Bytes, ok: bool)
    requires WellFormedKind(m.kind)
  {
    exists thumb, n :: ThumbFrom(m.kind, filePath, download, isImage, thumb) && PrefixApplied(after, before,
      UpdateWrites(m, filePath, download, thumb, encode(BuildLogItem(m, FetchedIds(m.kind, filePath, download), thumb))), ok, n)
  }

  /**
   * The body of `run`'s loop for one message: files are fetched only for the media kinds,
   * the thumbnail (if any) is stored while the item is built, then the item is logged. The
   * store holds a prefix of the message's writes, all of them exactly when it succeeded.
   */
  method HandleUpdate(db: Db, m: T.Message, filePath: string -> Option<string>,
                      download: string -> Option<Bytes>, isImage: Bytes -> bool, encode: LogItem -> Bytes)
    returns (ok: bool)
    requires WellFormedKind(m.kind)
    modifies db
    ensures UpdateLogged(db.entries, old(db.entries), m, filePath, download, isImage, encode, ok)
    ensures old(db.entries).Keys <= db.entries.Keys
    ensures ok ==> KeysPresent(db.entries, m)
  {
    var fetched, files, thumb := FetchAttachments(db, m, filePath, download, isImage);
    if !fetched {
      FetchFailedOutcome(db.entries, old(db.entries), m, filePath, download, isImage, encode);
      return false;
    }
    ghost var mid := db.entries;
    ok := HandleMessage(db, m, files, thumb, encode);
    HandledOutcome(db.entries, mid, old(db.entries), m, filePath, download, isImage, thumb, encode, ok);
  }

  /** A failed fetch leaves a prefix of the media writes, which is a prefix of all the writes */
  lemma FetchFailedOutcome(after: map<string, Bytes>, before: map<string, Bytes>, m: T.Message,
                           filePath: string -> Option<string>, download: string -> Option<Bytes>,
                           isImage: Bytes -> bool, encode: LogItem -> Bytes)
    requires WellFormedKind(m.kind)
    requires exists n :: (0 <= n < |MediaWrites(m.kind, filePath, download)|
      && after == ApplyPuts(before, MediaWrites(m.kind, filePath, download)[..n]))
    ensures UpdateLogged(after, before, m, filePath, download, isImage, encode, false)
    ensures before.Keys <= after.Keys
  {
    var n :| 0 <= n < |MediaWrites(m.kind, filePath, download)|
      && after == ApplyPuts(before, MediaWrites(m.kind, filePath, download)[..n]);
    var item := encode(BuildLogItem(m, FetchedIds(m.kind, filePath, download), None));
    var w := UpdateWrites(m, filePath, download, None, item);
    assert w[..n] == MediaWrites(m.kind, filePath, download)[..n];
    assert ThumbFrom(m.kind, filePath, download, isImage, None) && PrefixApplied(after, before, w, false, n);
  }

  /**
   * A successful fetch followed by some of the four message writes is a prefix of all the
   * writes; when all four were made, the message's keys are in the store.
   */
  lemma HandledOutcome(after: map<string, Bytes>, mid: map<string, Bytes>, before: map<string, Bytes>, m: T.Message,
                       filePath: string -> Option<string>, download: string -> Option<Bytes>,
                       isImage: Bytes -> bool, thumb: Option<string>, encode: LogItem -> Bytes, ok: bool)
    requires WellFormedKind(m.kind) && ThumbFrom(m.kind, filePath, download, isImage, thumb)
    requires mid == ApplyPuts(before, MediaWrites(m.kind, filePath, download) + ThumbWrites(m.kind, filePath, download, thumb))
    requires exists k :: (0 <= k <= 4
      && after == ApplyPuts(mid, MessageWrites(m, encode(BuildLogItem(m, FetchedIds(m.kind, filePath, download), thumb)))[..k])
      && (ok <==> k == 4))
    ensures UpdateLogged(after, before, m, filePath, download, isImage, encode, ok)
    ensures before.Keys <= after.Keys
    ensures ok ==> KeysPresent(after, m)
  {
    var item := encode(BuildLogItem(m, FetchedIds(m.kind, filePath, download), thumb));
    var k :| 0 <= k <= 4 && after == ApplyPuts(mid, MessageWrites(m, item)[..k]) && (ok <==> k == 4);
    var a := MediaWrites(m.kind, filePath, download) + ThumbWrites(m.kind, filePath, download, thumb);
    MessageWritesPrefix(after, before, a, m, item, ok, k);
    assert ThumbFrom(m.kind, filePath, download, isImage, thumb) && PrefixApplied(after, before, UpdateWrites(m, filePath, download, thumb, item), ok, |a| + k);
  }

  /** `k` of the four writes of `item` made after the writes `a` are a prefix of `a` followed by the four */
  lemma MessageWritesPrefix(after: map<string, Bytes>, before: map<string, Bytes>, a: seq<(string, Bytes)>,
                            m: T.Message, item: Bytes, ok: bool, k: nat)
    requires k <= 4 && after == ApplyPuts(ApplyPuts(before, a), MessageWrites(m, item)[..k]) && (ok <==> k == 4)
    ensures PrefixApplied(after, before, a + MessageWrites(m, item), ok, |a| + k)
    ensures before.Keys <= after.Keys
    ensures ok ==> KeysPresent(after, m)
  {
    ApplyPutsPrefix(before, a, MessageWrites(m, item), k);
    if ok {
      assert MessageWrites(m, item)[..k] == MessageWrites(m, item);
      MessageWritesStored(ApplyPuts(before, a), m, item);
    }
  }

  /** The four keys of every message among the first `n` updates are in the store */
  predicate Logged(entries: map<string, Bytes>, updates: seq<T.Update>, n: nat) {
    forall i :: 0 <= i < n && i < |updates| && updates[i].MessageUpdate? ==> KeysPresent(entries, updates[i].message)
  }

  /** Keys are never removed, so what was logged stays logged */
  lemma LoggedGrows(e1: map<string, Bytes>, e2: map<string, Bytes>, updates: seq<T.Update>, n: nat)
    requires e1.Keys <= e2.Keys && Logged(e1, updates, n)
    ensures Logged(e2, updates, n)
  {
  }

  /** The next update is logged once its keys are stored */
  lemma LoggedNext(entries: map<string, Bytes>, updates: seq<T.Update>, i: nat)
    requires i < |updates| && Logged(entries, updates, i)
    requires updates[i].MessageUpdate? ==> KeysPresent(entries, updates[i].message)
    ensures Logged(entries, updates, i + 1)
  {
  }

  /**
   * What handling one update of the stream leaves in the store: for a message, a prefix of
   * its writes, complete exactly when `ok`; any other update leaves the store as it was.
   */
  ghost predicate StepLogged(after: map<string, Bytes>, before: map<string, Bytes>, u: T.Update,
                             filePath: string -> Option<string>, download: string -> Option<Bytes>,
                             isImage: Bytes -> bool, encode: LogItem -> Bytes, ok: bool)
    requires u.MessageUpdate? ==> WellFormedKind(u.message.kind)
  {
    match u
    case MessageUpdate(m) => UpdateLogged(after, before, m, filePath, download, isImage, encode, ok)
    case _ => after == before
  }

  /** Every one of the first `n` updates made exactly its own writes, from `trace[i]` to `trace[i + 1]` */
  ghost predicate TraceLogged(trace: seq<map<string, Bytes>>, updates: seq<T.Update>, n: nat,
                              filePath: string -> Option<string>, download: string -> Option<Bytes>,
                              isImage: Bytes -> bool, encode: LogItem -> Bytes)
    requires n < |trace| && n <= |updates|
    requires forall i :: 0 <= i < |updates| && updates[i].MessageUpdate? ==> WellFormedKind(updates[i].message.kind)
  {
    forall i :: 0 <= i < n ==> StepLogged(trace[i + 1], trace[i], updates[i], filePath, download, isImage, encode, true)
  }

  /** Recording one more store keeps the steps recorded so far, and adds a completed step */
  lemma TraceNext(trace: seq<map<string, Bytes>>, after: map<string, Bytes>, updates: seq<T.Update>, n: nat,
                  filePath: string -> Option<string>, download: string -> Option<Bytes>,
                  isImage: Bytes -> bool, encode: LogItem -> Bytes, ok: bool)
    requires |trace| == n + 1 && n < |updates|
    requires forall i :: 0 <= i < |updates| && updates[i].MessageUpdate? ==> WellFormedKind(updates[i].message.kind)
    requires TraceLogged(trace, updates, n, filePath, download, isImage, encode)
    requires StepLogged(after, trace[n], updates[n], filePath, download, isImage, encode, ok)
    ensures TraceLogged(trace + [after], updates, n, filePath, download, isImage, encode)
    ensures ok ==> TraceLogged(trace + [after], updates, n + 1, filePath, download, isImage, encode)
  {
    var t := trace + [after];
    assert forall i :: 0 <= i <= n ==> t[i] == trace[i];
  }

  /**
   * One step of `run`'s loop: a stream error stops it, another update is passed over, and a
   * message is handled and logged; earlier messages stay logged.
   */
  method LogUpdate(db: Db, updates: seq<T.Update>, i: nat, filePath: string -> Option<string>,
                   download: string -> Option<Bytes>, isImage: Bytes -> bool, encode: LogItem -> Bytes)
    returns (ok: bool)
    requires i < |updates|
    requires forall j :: 0 <= j < |updates| && updates[j].MessageUpdate? ==> WellFormedKind(updates[j].message.kind)
    requires Logged(db.entries, updates, i)
    modifies db
    ensures StepLogged(db.entries, old(db.entries), updates[i], filePath, download, isImage, encode, ok)
    ensures updates[i].MessageUpdate? ==>
      UpdateLogged(db.entries, old(db.entries), updates[i].message, filePath, download, isImage, encode, ok)
    ensures updates[i].StreamError? ==> !ok
    ensures updates[i].OtherUpdate? ==> ok
    ensures old(db.entries).Keys <= db.entries.Keys
    ensures Logged(db.entries, updates, if ok then i + 1 else i)
  {
    match updates[i] {
      case StreamError =>
        ok := false;
      case OtherUpdate =>
        ok := true;
        LoggedNext(db.entries, updates, i);
      case MessageUpdate(message) =>
        ghost var before := db.entries;
        ok := HandleUpdate(db, message, filePath, download, isImage, encode);
        LoggedGrows(before, db.entries, updates, i);
        if ok {
          LoggedNext(db.entries, updates, i);
        }
    }
  }

  /**
   * `run`: handles the updates of the stream in order until the stream reports an error or
   * handling a message fails. Returns how many updates were handled, and, as `trace`, the
   * store before each update and after the last one: every handled update made exactly its
   * own writes, and the update it stopped at made an incomplete prefix of them.
   */
  method Run(db: Db, updates: seq<T.Update>, filePath: string -> Option<string>,
             download: string -> Option<Bytes>, isImage: Bytes -> bool, encode: LogItem -> Bytes)
    returns (handled: nat, ghost trace: seq<map<string, Bytes>>)
    requires forall i :: 0 <= i < |updates| && updates[i].MessageUpdate? ==> WellFormedKind(updates[i].message.kind)
    modifies db
    ensures handled <= |updates|
    ensures forall i :: 0 <= i < handled ==> !updates[i].StreamError?
    ensures handled < |updates| ==> !updates[handled].OtherUpdate?
    ensures old(db.entries).Keys <= db.entries.Keys
    ensures forall i :: 0 <= i < handled && updates[i].MessageUpdate? ==> KeysPresent(db.entries, updates[i].message)
    ensures |trace| == (if handled < |updates| then handled + 2 else handled + 1)
    ensures trace[0] == old(db.entries) && trace[|trace| - 1] == db.entries
    ensures TraceLogged(trace, updates, handled, filePath, download, isImage, encode)
    ensures handled < |updates| ==>
      StepLogged(trace[handled + 1], trace[handled], updates[handled], filePath, download, isImage, encode, false)
  {
    handled := 0;
    trace := [db.entries];
    while handled < |updates|
      invariant handled <= |updates|
      invariant forall i :: 0 <= i < handled ==> !updates[i].StreamError?
      invariant old(db.entries).Keys <= db.entries.Keys
      invariant Logged(db.entries, updates, handled)
      invariant |trace| == handled + 1 && trace[0] == old(db.entries) && trace[handled] == db.entries
      invariant TraceLogged(trace, updates, handled, filePath, download, isImage, encode)
    {
      var ok := LogUpdate(db, updates, handled, filePath, download, isImage, encode);
      TraceNext(trace, db.entries, updates, handled, filePath, download, isImage, encode, ok);
      trace := trace + [db.entries];
      if !ok {
        return;
      }
      handled := handled + 1;
    }
  }
}
