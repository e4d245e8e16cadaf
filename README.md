# minuteman-bot, modelled in Dafny

minuteman-bot logs Telegram chats into a key-value store and serves the log as web pages.
The model covers four parts.

- **The Telegram worker** (`telegram_handler.rs`). For every message it downloads the
  attached files and stores them under `file:chat:{id}`, `file:video_thumb:{id}` or
  `file:user:{id}`. It then turns the message into a `LogItem` and writes four keys:
  - `chat:{chat}:{date}`, holding the serialised item;
  - `chat_index:{chat}:{day}` and `chat_rel:{chat}`, holding a zero byte;
  - `chat_ref:{chat}:{message id}`, holding the date.
- **The renderers.**
  - `/` (`chats.rs`) lists the chats found under `chat_rel:`.
  - `/chat/{chat}` (`chat_index.rs`) lists a chat's days found under `chat_index:{chat}:`,
    newest first.
  - `/chat/{chat}/{date}` (`chat_listing.rs`) shows one day of messages, walked downwards
    between two `chat:{chat}:` bounds.
  - `/file/{type}/{id}` (`get_file.rs`) serves a stored file with a guessed content type.
- **The navigation-bar builder** (`header.rs`).
- **The backfill program** (`examples/minuteman.rs`). It walks every `chat:` key and writes
  the `chat_index:` key of its day.

## How the model is built

- **The store** (`store.dfy`) is the class `Store.Db`. Its field `entries` maps string keys
  to byte strings. `Put` may fail, and on failure changes nothing.
- **Key order and range scans.** The store's key order is the byte order of the keys
  (`Text.Less`). A range scan is a function over the ordered key list: `Scan` and
  `ScanPrefix` walk forwards, `ScanDown` walks backwards.
- **Loops become methods.** Each renderer's loop is a method with invariants. It is proved
  equal to a function over the keys, and the properties are lemmas about that function.
- **The worker and the backfill** are methods on `Db`. Their postconditions state the new
  store contents in terms of `Store.ApplyPuts` and of the function `Backfill.RunPlan`.
- **Outside effects become function parameters.** These include the Telegram API (file
  paths and downloads), serialisation, JSON decoding, image-format guessing, chrono's date
  parsing and formatting, and chat-name and user-name lookups.
- **Rust's integer operations are written out.**
  - `i64` parsing is `Text.ParseI64`.
  - Decimal formatting is `Text.IntToString`.
  - `/` rounding toward zero is `Text.TruncDiv`.
  - `str::split` is `Text.Split`.
  - `trim_end_matches('0')` is `Text.TrimEndZeros`.

## Model

| member | source | states |
|---|---|---|
| TelegramHandler.BuildFileKey | src/workers/telegram_handler.rs:163-172 | every file key starts with `file:` |
| TelegramHandler.FileKeyRoundTrip | src/workers/telegram_handler.rs:163-172 | the entry type and file id can be read back from the key built from them |
| TelegramHandler.FileKeyInjective | src/workers/telegram_handler.rs:163-172 | two files with different types or ids never share a key |
| TelegramHandler.BiggestScan | src/workers/telegram_handler.rs:174-196 | the scan ends with no photo exactly when the list is empty; otherwise the kept area is that photo's width times height |
| TelegramHandler.BiggestPhotoIsLargest | src/workers/telegram_handler.rs:174-196 | the chosen photo has the largest area; it is the first of that area when the area is positive, and the last photo when every area is zero |
| TelegramHandler.FindBiggestPhoto | src/workers/telegram_handler.rs:174-196 | the loop returns the photo `BiggestPhoto` specifies |
| TelegramHandler.FileRefs | src/workers/telegram_handler.rs:58-122 | only audio, voice and photo messages yield file references; an audio or voice file is referenced exactly when its size is known and at most the limit and its path resolves |
| TelegramHandler.PhotoRefsAppend | src/workers/telegram_handler.rs:98-114 | the photo references of a concatenation are those of its parts, in order |
| TelegramHandler.PhotoRefsExact | src/workers/telegram_handler.rs:98-114 | a reference is produced exactly for each photo of allowed size whose path resolves, paired with that path |
| TelegramHandler.ExtractFilePaths | src/workers/telegram_handler.rs:58-122 | the loop returns the references `FileRefs` specifies |
| TelegramHandler.Downloaded | src/workers/telegram_handler.rs:124-145 | at most one file per reference |
| TelegramHandler.DownloadedFromRefs | src/workers/telegram_handler.rs:124-145 | a file is downloaded exactly for each reference whose download succeeds, under that reference's id and with the downloaded bytes |
| TelegramHandler.DownloadedAppend | src/workers/telegram_handler.rs:124-145 | the downloads of a concatenation of references are those of its parts, in order |
| TelegramHandler.GetFiles | src/workers/telegram_handler.rs:124-145 | the loop returns the files `Downloaded` specifies |
| TelegramHandler.ProcessFiles | src/workers/telegram_handler.rs:465-494 | on success every file is stored and their ids are returned; on a failed write the files before it are stored and no ids are returned |
| TelegramHandler.ProcessPhotosize | src/workers/telegram_handler.rs:496-534 | a thumbnail id is returned only for a downloaded image, which is then stored under its `file:video_thumb:` key; otherwise the store is unchanged |
| TelegramHandler.MapEntityKind | src/workers/telegram_handler.rs:536-565 | every entity kind keeps its name; text links keep their URL and mentions keep the user's id as text |
| TelegramHandler.BuildLogItemShape | src/workers/telegram_handler.rs:567-969 | the variant of `LogItem` chosen for each message kind, with its user id, time, text, entities, caption, the media type of every media kind (image size, audio, voice, document, sticker, video and video note thumbnail), the chat photo's thumbnail, membership type and unimplemented tag |
| TelegramHandler.MessageWrites | src/workers/telegram_handler.rs:986-1046 | a message makes four writes to four different keys |
| TelegramHandler.MessageWritesStored | src/workers/telegram_handler.rs:986-1046 | after the four writes the item is under `chat:`, a zero byte under `chat_index:` and `chat_rel:`, and the date under `chat_ref:` |
| TelegramHandler.ChatKeyCollision | src/workers/telegram_handler.rs:986-993 | two messages of one chat with the same date share their `chat:` key, so the later overwrites the earlier, while their `chat_ref:` keys differ |
| TelegramHandler.HandleMessage | src/workers/telegram_handler.rs:971-1049 | the store holds the first n of the four writes, and the call succeeds exactly when all four were made |
| TelegramHandler.FetchAttachments | src/workers/telegram_handler.rs:1065-1075 | only the seven media kinds fetch files; on success the returned ids are those of the downloaded files and the store holds the media writes and the thumbnail write, and on failure a proper prefix of the media writes; a returned thumbnail is the id of the message's thumbnail source, whose path resolved, whose download succeeded and which is an image |
| TelegramHandler.ThumbStored | src/workers/telegram_handler.rs:496-534 | a thumbnail the item names is written under its `file:video_thumb:` key with its downloaded bytes; no thumbnail means no such write |
| TelegramHandler.HandleUpdate | src/workers/telegram_handler.rs:1063-1083 | the store holds a prefix of the message's writes (media files, then the thumbnail, then the four writes of the item built from the stored ids and thumbnail, where a named thumbnail was downloaded, is an image and was stored), all of them exactly when the call succeeds; no key is removed, and on success the message's four keys are present |
| TelegramHandler.FetchFailedOutcome | src/workers/telegram_handler.rs:1065-1075 | a failed fetch leaves a prefix of the message's writes and reports failure |
| TelegramHandler.HandledOutcome | src/workers/telegram_handler.rs:1077-1082 | the fetch's writes followed by some of the four message writes are a prefix of the message's writes, complete exactly when all four were made, and then the four keys are present |
| TelegramHandler.MessageWritesPrefix | src/workers/telegram_handler.rs:986-1046 | earlier writes followed by the first k message writes are the first writes of the whole sequence |
| TelegramHandler.LogUpdate | src/workers/telegram_handler.rs:1058-1083 | one step of the loop: a stream error stops it and changes nothing, another update is passed over unchanged, and a message leaves a prefix of its own writes, complete exactly when it succeeds; earlier messages stay logged and this one is logged on success |
| TelegramHandler.TraceNext | src/workers/telegram_handler.rs:1058-1083 | a completed step extends the record of handled updates by one, keeping the steps before it |
| TelegramHandler.Run | src/workers/telegram_handler.rs:1051-1088 | the loop stops only at an update it cannot handle, and no update before it is a stream error; the store goes from its old contents to its new ones through one step per update, each handled update making exactly its own writes (none for an update other than a message) and the update it stopped at an incomplete prefix of them, so nothing else is written; every message handled before the stop has its four keys in the store, and no key is removed |
| GetFile.ParseRequestTypeExact | src/renderer/get_file.rs:23-34 | a known request type is parsed from its own name and from no other string |
| GetFile.FileKey | src/renderer/get_file.rs:62-71 | `user` and `video_thumb` look under their own prefix; every other type looks under `file:chat:` |
| GetFile.MimeOf | src/renderer/get_file.rs:107-121 | the twelve known image formats map to an `image/` type; any other format maps to none |
| GetFile.MimeOfInjective | src/renderer/get_file.rs:107-121 | no two known formats share a MIME type |
| GetFile.ContentType | src/renderer/get_file.rs:98-129 | the content type is the octet stream exactly when the request is not for an image or the format is unknown; otherwise it is the format's type |
| GetFile.GetFile | src/renderer/get_file.rs:36-136 | an unknown type is answered with 404 and a text body; otherwise not found exactly when no file is stored, and else 200 with the stored bytes and their content type |
| Agreement.FileKeyAgrees | src/renderer/get_file.rs:62-71 | the key the route looks up is the key the worker stored the file under (telegram_handler.rs:163-172) |
| Agreement.StoredFileServed | src/renderer/get_file.rs:36-136 | a stored file is served with status 200 and its own bytes under every request type of its kind |
| Header.RenderBarEmpty | src/components/header.rs:76-89 | an empty bar renders as an empty navigation `div` |
| Header.RenderBarAppend | src/components/header.rs:76-89 | appending an item appends its markup, preceded by ` \| ` unless it is the first |
| Header.HeaderBar.constructor | src/components/header.rs:32-36 | a new bar has no items |
| Header.HeaderBar.WithItem | src/components/header.rs:38-45 | the item is appended at the end |
| Header.HeaderBar.WithTitle | src/components/header.rs:47-58 | a title item is appended at the end |
| Header.HeaderBar.WithLink | src/components/header.rs:60-73 | a link item is appended at the end; its URL may be absent |
| Chats.KeyChat | src/renderer/chats.rs:42-50 | a key names a chat exactly when it splits into two `:`-parts; the chat is the second part, which contains no `:` |
| Chats.KeyChatOfRel | src/renderer/chats.rs:42-50 | `chat_rel:{id}` names the chat `id` |
| Chats.RelOfKeyChat | src/renderer/chats.rs:42-50 | a walked key that names a chat is `chat_rel:` followed by the chat's id |
| Chats.ChatIdsMember | src/renderer/chats.rs:41-67 | an id is shown exactly when one of the walked keys names it |
| Chats.ListedChats | src/renderer/chats.rs:31-67 | a chat is listed exactly when its `chat_rel:` key is stored |
| Chats.ChatIdsDistinct | src/renderer/chats.rs:41-67 | over distinct keys the listed chats are distinct |
| Chats.ChatsListedOnce | src/renderer/chats.rs:31-67 | every chat appears at most once on the page |
| Chats.EntryChat | src/renderer/chats.rs:42-50 | the parsing step returns the chat `KeyChat` specifies |
| Chats.AppendChatRows | src/renderer/chats.rs:41-67 | the loop appends exactly the lines of the listed chats, in order |
| Chats.RenderChats | src/renderer/chats.rs:6-76 | the page is the head, a line per listed chat and the footer |
| ChatIndex.IndexKeysExact | src/renderer/chat_index.rs:36-48 | the walk visits exactly the keys that start with `chat_index:{chat}:` and go on, if at all, with a character below 0x7F |
| ChatIndex.KeyDay | src/renderer/chat_index.rs:69-77 | a key has a day only when it splits into three parts and its last part parses as an `i64` |
| ChatIndex.Days | src/renderer/chat_index.rs:66-100 | at most one day per walked key |
| ChatIndex.IndexRowsSnoc | src/renderer/chat_index.rs:66-100 | one more key adds its day's row, labelled with the day times 86 400, or nothing |
| ChatIndex.IndexRowsShape | src/renderer/chat_index.rs:64-100 | row j links the j-th day of the walk, and only the first row carries the `latest` link |
| ChatIndex.EntryDay | src/renderer/chat_index.rs:67-77 | the parsing step returns the day `KeyDay` specifies |
| ChatIndex.AppendDayRows | src/renderer/chat_index.rs:64-100 | the loop appends exactly the rows of the walked days |
| ChatIndex.ChatIndexPage | src/renderer/chat_index.rs:12-109 | the page is the head, the navigation line, a row per day walked newest first, and the footer |
| ChatListing.ImageTags | src/renderer/chat_listing.rs:215-260 | a media row shows only its last file, as an image, and nothing when it has no files |
| ChatListing.RowOf | src/renderer/chat_listing.rs:187-299 | messages, media and membership changes add a row, and no other item does; a media row shows its caption or the no-caption note, then the image |
| ChatListing.EntryStep | src/renderer/chat_listing.rs:152-299 | keys without three parts or whose timestamp is no `i64` are skipped; for the others the page ends with its error page exactly when the clock cannot show the timestamp; otherwise a row is added exactly when the value is UTF-8 and decodes to a shown item, and that row is `RowOf` the item at the shown time |
| ChatListing.RenderEntry | src/renderer/chat_listing.rs:152-300 | the loop body does what `EntryStep` specifies |
| ChatListing.ScanRows | src/renderer/chat_listing.rs:150-302 | a walk that ends normally has at most one row per key |
| ChatListing.ScanRowsSnoc | src/renderer/chat_listing.rs:152-302 | one more key adds its row, is skipped, or ends the walk with an error page |
| ChatListing.AbortSticks | src/renderer/chat_listing.rs:168-173 | once the walk has ended with an error page, later keys change nothing |
| ChatListing.AbortSticksAt | src/renderer/chat_listing.rs:168-173 | a walk that ended within its first n keys ends the same way |
| ChatListing.ScanRowsAppend | src/renderer/chat_listing.rs:152-302 | rows come in key order: the rows of a walk are those of its first part followed by those of its second |
| ChatListing.ScanRowsAborts | src/renderer/chat_listing.rs:163-173 | the page is an error page exactly when some walked key has a timestamp the clock cannot show |
| ChatListing.Bound | src/renderer/chat_listing.rs:80-115 | a bound is `chat:{chat}:` followed by the millisecond timestamp without its trailing zeros |
| ChatListing.DayKeysOfChat | src/renderer/chat_listing.rs:112-124 | every walked key belongs to the chat and lies between the day's two bounds |
| ChatListing.ChatListingPage | src/renderer/chat_listing.rs:12-311 | `latest` resolves to the newest day, or to the no-days page when there is none; the rest is `DayPage` |
| ChatListing.ListingBar | src/renderer/chat_listing.rs:126-144 | the navigation bar built with the header builder has home, title, index, previous, next and latest |
| ChatListing.AppendRows | src/renderer/chat_listing.rs:150-302 | the loop returns the error page exactly when the walk aborts; otherwise it appends exactly the walk's rows |
| ChatListing.RenderDay | src/renderer/chat_listing.rs:53-311 | an unparsable date gives `invalid date`; otherwise the head, the walk's rows and the footer, or the walk's error page |
| Backfill.MessageKeysExact | examples/minuteman.rs:14-24 | the walk visits exactly the keys that start with `chat:` and go on, if at all, with a character below 0x7F |
| Backfill.MessageKeySplit | examples/minuteman.rs:31 | a `chat:` key splits into `chat` followed by the parts of its rest |
| Backfill.BackfillKey | examples/minuteman.rs:31-37 | a walked key gets an index key exactly when its last part parses as an `i64`; the index key starts with `chat_index:` |
| Backfill.BackfillKeyOfMessage | examples/minuteman.rs:31-37 | the key `chat:{chat}:{date}` gets `chat_index:{chat}:{date / 86 400}` |
| Backfill.WrittenKeysNotWalked | examples/minuteman.rs:14-39 | the keys written are never among the keys walked |
| Backfill.EntryStep | examples/minuteman.rs:27-39 | a UTF-8 value that does not decode panics; a decoding value whose date parses gets a write; anything else is skipped |
| Backfill.RunPlanShape | examples/minuteman.rs:26-43 | the walk panics exactly when some walked value is UTF-8 but does not decode; every write comes from a decoding walked key |
| Backfill.RunPlanFrame | examples/minuteman.rs:26-43 | the plan depends only on the walked keys' values |
| Backfill.RunPlanSnoc | examples/minuteman.rs:26-43 | one more key adds its write, is skipped, or panics, unless the walk has already panicked |
| Backfill.BackfilledWrite | examples/minuteman.rs:36-39 | a zero byte written under a planned key keeps the backfill relation |
| Backfill.RunWritesIndexKeys | examples/minuteman.rs:36-39 | every planned write is a `chat_index:` key |
| Backfill.BackfilledKeepsMessages | examples/minuteman.rs:36-39 | the backfill leaves every `chat:` entry as it was |
| Backfill.WalkEntry | examples/minuteman.rs:27-39 | one step does what `EntryStep` specifies, and changes the store only by its index key |
| Backfill.WalkAll | examples/minuteman.rs:26-43 | the loop panics as the plan says and leaves the store backfilled with the plan's writes |
| Backfill.Backfill | examples/minuteman.rs:9-44 | the program panics as the plan says; the store is backfilled, and its `chat:` entries are unchanged |
| Backfill.RunPlanPanicSticks | examples/minuteman.rs:28 | once a walk has panicked, later keys change nothing |
| Backfill.RerunSamePlan | examples/minuteman.rs:9-44 | a second run over the backfilled store walks the same keys and makes the same plan |
| Agreement.WrittenChatListed | src/renderer/chats.rs:31-67 | a chat is on the list exactly when the worker's `chat_rel:` key for it is stored (telegram_handler.rs:1015-1027) |
| Agreement.WrittenDayListed | src/renderer/chat_index.rs:36-77 | a `chat_index:` key of the worker's format is walked exactly when it is stored, and the page reads back its day (telegram_handler.rs:1002-1013) |
| Agreement.IndexDay | src/renderer/chat_index.rs:77 | for dates since the epoch, the bucket times 86 400 is the midnight that starts the date's day |
| Agreement.WriterDayMisplaced | src/workers/telegram_handler.rs:1002-1008 | the worker files a message of 1 600 000 000 seconds under bucket 18, not under its own day 18 518 |
| Agreement.MessageBackfilled | examples/minuteman.rs:26-39 | the backfill walks every logged message and writes the index key of its day, which the index page lists under that day |
| Store.Db.constructor | examples/minuteman.rs:10-12 | a store opened with some contents holds them |
| Store.Db.Put | src/workers/telegram_handler.rs:997-1000 | a successful put replaces the value under its key; a failed put changes nothing |
| Store.ApplyPuts | src/workers/telegram_handler.rs:986-1046 | the keys after a sequence of writes are the old keys plus the written ones |
| Store.ApplyPutsAppend | src/workers/telegram_handler.rs:1063-1083 | writes applied in two batches give the contents of the batches applied in one go |
| Store.ApplyPutsPrefix | src/workers/telegram_handler.rs:1063-1083 | all of one batch and then k writes of a second are the first writes of the two together |
| Store.ApplyPutsDistinct | src/workers/telegram_handler.rs:986-1046 | with distinct keys, each written key holds its written value |
| Store.Scan | examples/minuteman.rs:14-24 | a forward scan yields exactly the stored keys within the bounds, in order |
| Store.AscendingUnique | examples/minuteman.rs:14-24 | two ordered key lists with the same members are equal |
| Store.ScanDown | src/renderer/chat_index.rs:36-48 | a backward scan yields exactly the stored keys within the bounds, in reverse order |
| Store.ScanPrefix | src/renderer/chats.rs:29-39 | a prefix scan yields exactly the stored keys with the prefix, in order |
| Text.TruncDiv | examples/minuteman.rs:34 | `i64` division by a positive divisor rounds toward zero: the quotient lies within one divisor of the dividend on the side of zero |
| Text.ParseIntToString | src/renderer/chat_index.rs:77 | every `i64` printed in decimal parses back to itself |
| Text.IntToStringInjective | src/workers/telegram_handler.rs:986-993 | different `i64` values print differently |
| Text.JoinSplit | src/renderer/chats.rs:44 | joining the parts of a split with its separator gives back the string |
| Text.SplitJoin | src/renderer/chats.rs:44 | splitting parts that hold no separator, joined with it, gives back the parts |
| Text.SplitThree | src/renderer/chat_index.rs:69 | three parts without `:`, joined by `:`, split into those three |
| Text.TrimEndZeros | src/renderer/chat_listing.rs:94 | trimming leaves a prefix ending in no `0`, having removed only `0`s |
| Text.TrimEndZerosUnique | src/renderer/chat_listing.rs:94 | only one prefix has those properties |
| Text.BelowDelExact | src/renderer/chat_index.rs:38-39 | a key lies between a prefix and the prefix followed by 0x7F exactly when it starts with the prefix and goes on, if at all, with a character below 0x7F |

## Left out

- Network and Telegram I/O are parameters of the model. This covers the update stream,
  `get_file`, file paths and downloads. So are the chrono calls, serde serialisation and
  decoding, `image::guess_format` and the image decoding in `process_photosize`. The model
  does not say what these return.
- The worker has two steps that are not part of this model:
  - `process_user`, which fetches profile pictures and user metadata and writes `user:` keys
    (telegram_handler.rs:198-277);
  - the `spawn_worker` thread.
- Locking the shared store, and the lock errors it can return, are not modelled; each
  operation runs on its own snapshot or `Db`.
- `serde_json::to_string` failures are not modelled. The worker's `?` would return early
  from `handle_message`; the model treats serialisation as total.
- Keys that are not UTF-8 are not modelled, so the renderers' `String::from_utf8(key).unwrap()`
  panic cannot happen. The chat list's upper bound `chat_rel:\xff` is modelled as its effect
  on UTF-8 keys: every key with that prefix is walked.
- `i64` overflow is not modelled. This covers width × height in `find_biggest_photo`,
  day × 86 400 on the index page, and the millisecond timestamps of the day page. Integers
  are unbounded; parsed values are bounded by `Text.ParseI64`.
- The panic of `NaiveDateTime::from_timestamp` on the index page for a day out of chrono's
  range is not modelled; `dayLabel` is total.
- Photo dimensions are taken as non-negative, as Telegram sends them.
  TelegramHandler.BiggestPhotoIsLargest requires this.
- The counter `i` of the day page's loop is incremented but never read, so it is not
  modelled.
- The `f32` fields of locations and venues are carried as opaque values. The per-field
  copies into `LogItem::Special` are not stated field by field:
  TelegramHandler.BuildLogItemShape states only which variant each kind becomes.
- The `get_file` route is not registered by `main.rs`, so nothing serves it; it is modelled
  as the function it is.
- The day page reads the user id as optional, while the worker writes it as a string. The
  JSON decoder is a parameter, so the model does not relate the two.
- The `dbg!` output to stderr is not modelled (telegram_handler.rs:960, 1001, 1015, 1028,
  1046 and chat_listing.rs:263); it changes no state and no reply.
- HTML escaping is absent in the source and in the model. Chat names, captions and texts
  are placed verbatim.
- TelegramHandler.HandleMessage keeps the day bucket as written. It divides the date by
  86 400 000; see Findings.
- A photo or chat photo message whose list of sizes is empty is excluded by
  `WellFormedKind`, which requires those lists to be non-empty. The source would panic on
  `find_biggest_photo`'s `unwrap` (telegram_handler.rs:195); Telegram always sends sizes.
- A read error of the store in `get_file` is turned into "not found" by `.ok().flatten()`
  (get_file.rs:76-79). The model's store reads cannot fail, so that path is not modelled.
- TelegramHandler.Run stops at the first stream error or failed message, as the source's
  `?`s do. It does not model the error value returned.

## Findings

| source | as written | input that shows it | evidently intended | confidence | as-written member | corrected member |
|---|---|---|---|---|---|---|
| src/workers/telegram_handler.rs:1002-1008 | the `chat_index:` bucket is `message.date / 86400000`, but Telegram dates are seconds, so the divisor is the milliseconds of a day | a message dated 1 600 000 000 (13 September 2020) is filed under bucket 18, which the index page (chat_index.rs:77) multiplies by 86 400 and shows as 19 January 1970 | the bucket is `date / 86_400`, as the backfill program computes it (examples/minuteman.rs:34), so bucket × 86 400 is the midnight starting the message's day | high (not executed) | Agreement.WriterDayMisplaced | Agreement.IndexDay |
