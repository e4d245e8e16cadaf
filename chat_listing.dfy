/**
 * The `/chat/{chat}/{date}` page: one day of a chat's log. It resolves `latest` to the
 * newest logged day, derives the key range of that day from its start and end in
 * milliseconds, walks the range downwards and renders one table row per message, media
 * item or membership change.
 *
 * The chrono calls are parameters: `parseDate` gives the midnight of a `%Y-%m-%d` date in
 * milliseconds since the epoch, `clock` formats a seconds timestamp as `%H:%M:%S` (or
 * reports it out of range). The JSON decoder, the chat-name and user-name lookups and the
 * newest-day lookup are parameters too.
 */
module ChatListing {
  import opened Wrappers
  import opened Text
  import opened Store
  import H = Header

  datatype MembershipKind = Joined | Left

  /**
   * A stored item as the listing reads it. The listing treats the user id as optional;
   * every other kind of item is `OtherItem`.
   */
  datatype ListedItem =
    | Message(userId: Option<string>, text: string)
    | Media(userId: Option<string>, caption: Option<string>, files: seq<string>)
    | Membership(userId: Option<string>, membershipType: MembershipKind)
    | OtherItem

  // ================================================================ rows

  /** The shown name: the resolved user, or `Unknown` without a user id */
  function UserName(userId: Option<string>, resolveUser: string -> string): string {
    match userId
    case Some(id) => resolveUser(id)
    case None => "Unknown"
  }

  function ImageTag(fileId: string): string {
    "<img src=\"" + "/file/image/" + fileId + "\" style=\"max-height: 300px; max-width: 300px;\" loading=\"lazy\"/>"
  }

  /** The images of a media row: only the last file is shown, as an image */
  function ImageTags(files: seq<string>): (tags: seq<string>)
    ensures |tags| <= 1
    ensures tags == [] <==> files == []
    ensures files != [] ==> tags[0] == ImageTag(files[|files| - 1])
  {
    if files == [] then [] else [ImageTag(files[|files| - 1])]
  }

  const NoCaption: string := "<span class=\"note\">Message has no caption.</span>"

  /** A table row: its class, the time, the nick and the content cell's inside */
  function Row(cls: string, time: string, nick: string, content: string): string {
    "<tr class=\"" + cls + "\"><td class=\"time\"><a>" + time + "</a><td><td class=\"nick\">" + nick
      + "</td><td class=\"content\">" + content + "</td></tr>"
  }

  function MembershipClass(t: MembershipKind): string {
    match t
    case Joined => "join"
    case Left => "leave"
  }

  function MembershipReason(t: MembershipKind): string {
    match t
    case Joined => "joined the chat"
    case Left => "left the chat"
  }

  /** The row an item adds to the page, if any */
  function RowOf(item: ListedItem, time: string, resolveUser: string -> string): (row: Option<string>)
    ensures row.None? <==> item.OtherItem?
    ensures item.Media? ==> row.value == Row("message action", time, UserName(item.userId, resolveUser),
      item.caption.GetOr(NoCaption) + " <br/> " + Join(ImageTags(item.files), " "))
  {
    match item
    case Message(userId, text) =>
      Some(Row("message", time, UserName(userId, resolveUser), text))
    case Media(userId, caption, files) =>
      var mediaCaption := match caption case Some(c) => c case None => NoCaption;
      Some(Row("message action", time, UserName(userId, resolveUser),
               mediaCaption + " <br/> " + Join(ImageTags(files), " ")))
    case Membership(userId, t) =>
      Some(Row(MembershipClass(t), time, UserName(userId, resolveUser),
               "<span class=\"reason\">" + MembershipReason(t) + "</span>"))
    case OtherItem => None
  }

  // ================================================================ entries

  /** What one entry of the range does to the page */
  datatype Step = Skip | Emit(row: string) | Abort(page: string)

  /** The page shown when a timestamp is out of chrono's range */
  function ClockFailurePage(seconds: int): string {
    "failed to parse " + IntToString(seconds) + " as NaiveDateTime"
  }

  /**
   * One entry of the range: keys of other than three `:`-parts and timestamps that are
   * no `i64` are skipped; a timestamp the clock cannot show ends the page with an error;
   * values that are not UTF-8 or not an item are skipped; items other than messages,
   * media and membership changes add nothing.
   */
  function EntryStep(key: string, value: Bytes, clock: int -> Option<string>,
                     decode: Bytes -> Option<ListedItem>, resolveUser: string -> string): (s: Step)
    ensures Split(key, ':') == [] || |Split(key, ':')| != 3 ==> s == Skip
    ensures s.Abort? ==> exists seconds :: (ParseI64(Split(key, ':')[2]) == Some(seconds)
      && clock(seconds).None? && s.page == ClockFailurePage(seconds))
    ensures s.Emit? ==> ValidUtf8(value) && decode(value).Some? && !decode(value).value.OtherItem?
    ensures !s.Skip? ==> |Split(key, ':')| == 3 && ParseI64(Split(key, ':')[2]).Some?
    ensures var parts := Split(key, ':');
      |parts| == 3 && ParseI64(parts[2]).Some? ==>
        (s.Abort? <==> clock(ParseI64(parts[2]).value).None?)
    ensures var parts := Split(key, ':');
      (|parts| == 3 && ParseI64(parts[2]).Some? && clock(ParseI64(parts[2]).value).Some?
       && ValidUtf8(value) && decode(value).Some? && !decode(value).value.OtherItem?) ==> s.Emit?
    ensures s.Emit? ==>
      Some(s.row) == RowOf(decode(value).value, clock(ParseI64(Split(key, ':')[2]).value).value, resolveUser)
  {
    var parts := Split(key, ':');
    if |parts| != 3 then Skip
    else
      match ParseI64(parts[|parts| - 1])
      case None => Skip
      case Some(seconds) =>
        match clock(seconds)
        case None => Abort(ClockFailurePage(seconds))
        case Some(time) =>
          if !ValidUtf8(value) then Skip
          else
            match decode(value)
            case None => Skip
            case Some(item) =>
              match RowOf(item, time, resolveUser)
              case None => Skip
              case Some(row) => Emit(row)
  }

  /** The body of `chat_listing`'s loop for one entry: the row it adds, a skip, or an error page */
  method RenderEntry(key: string, value: Bytes, clock: int -> Option<string>,
                     decode: Bytes -> Option<ListedItem>, resolveUser: string -> string)
    returns (step: Step)
    ensures step == EntryStep(key, value, clock, decode, resolveUser)
  {
    var parts := Split(key, ':');
    if |parts| != 3 {
      return Skip;
    }
    var timestamp := parts[|parts| - 1];
    var seconds := ParseI64(timestamp);
    if seconds.None? {
      return Skip;
    }
    var clockTime := clock(seconds.value);
    if clockTime.None? {
      return Abort(ClockFailurePage(seconds.value));
    }
    if !ValidUtf8(value) {
      return Skip;
    }
    var msg := decode(value);
    if msg.None? {
      return Skip;
    }
    match msg.value {
      case Message(userId, text) =>
        var username := UserName(userId, resolveUser);
        step := Emit(Row("message", clockTime.value, username, text));
      case Media(userId, caption, files) =>
        var fileUris := ImageTags(files);
        var username := UserName(userId, resolveUser);
        var mediaCaption := if caption.Some? then caption.value else NoCaption;
        step := Emit(Row("message action", clockTime.value, username, mediaCaption + " <br/> " + Join(fileUris, " ")));
      case Membership(userId, t) =>
        var username := UserName(userId, resolveUser);
        step := Emit(Row(MembershipClass(t), clockTime.value, username,
                         "<span class=\"reason\">" + MembershipReason(t) + "</span>"));
      case OtherItem =>
        step := Skip;
    }
  }

  /** The rows of a walk so far, or the error page that ended it */
  datatype Outcome = Rows(rows: seq<string>) | Aborted(page: string)

  /** The outcome of walking the keys `ks` in order */
  function ScanRows(ks: seq<string>, entries: map<string, Bytes>, clock: int -> Option<string>,
                    decode: Bytes -> Option<ListedItem>, resolveUser: string -> string): (o: Outcome)
    requires forall k :: k in ks ==> k in entries
    ensures o.Rows? ==> |o.rows| <= |ks|
    decreases |ks|
  {
    if ks == [] then Rows([])
    else
      var prev := ScanRows(ks[..|ks| - 1], entries, clock, decode, resolveUser);
      var k := ks[|ks| - 1];
      if prev.Aborted? then prev
      else
        match EntryStep(k, entries[k], clock, decode, resolveUser)
        case Skip => prev
        case Emit(row) => Rows(prev.rows + [row])
        case Abort(page) => Aborted(page)
  }

  /** One more key: its step decides the outcome of a walk that has not ended yet */
  lemma ScanRowsSnoc(ks: seq<string>, k: string, entries: map<string, Bytes>, clock: int -> Option<string>,
                     decode: Bytes -> Option<ListedItem>, resolveUser: string -> string)
    requires forall j :: j in ks ==> j in entries
    requires k in entries
    ensures forall j :: j in ks + [k] ==> j in entries
    ensures ScanRows(ks, entries, clock, decode, resolveUser).Rows? ==>
      ScanRows(ks + [k], entries, clock, decode, resolveUser) ==
      match EntryStep(k, entries[k], clock, decode, resolveUser)
      case Skip => ScanRows(ks, entries, clock, decode, resolveUser)
      case Emit(row) => Rows(ScanRows(ks, entries, clock, decode, resolveUser).rows + [row])
      case Abort(page) => Aborted(page)
  {
    assert (ks + [k])[..|ks|] == ks;
  }

  /** Once a walk has ended with an error page, further keys change nothing */
  lemma {:induction false} AbortSticks(a: seq<string>, b: seq<string>, entries: map<string, Bytes>,
                                       clock: int -> Option<string>, decode: Bytes -> Option<ListedItem>,
                                       resolveUser: string -> string)
    requires forall k :: k in a + b ==> k in entries
    requires (forall k :: k in a ==> k in entries) && ScanRows(a, entries, clock, decode, resolveUser).Aborted?
    ensures ScanRows(a + b, entries, clock, decode, resolveUser) == ScanRows(a, entries, clock, decode, resolveUser)
    decreases |b|
  {
    if b == [] {
      assert a + b == a;
    } else {
      assert (a + b)[..|a + b| - 1] == a + b[..|b| - 1];
      AbortSticks(a, b[..|b| - 1], entries, clock, decode, resolveUser);
    }
  }

  /** A walk that ended within its first `n` keys ends the same way */
  lemma AbortSticksAt(ks: seq<string>, n: nat, entries: map<string, Bytes>, clock: int -> Option<string>,
                      decode: Bytes -> Option<ListedItem>, resolveUser: string -> string)
    requires n <= |ks| && forall k :: k in ks ==> k in entries
    requires (forall k :: k in ks[..n] ==> k in entries) && ScanRows(ks[..n], entries, clock, decode, resolveUser).Aborted?
    ensures ScanRows(ks, entries, clock, decode, resolveUser) == ScanRows(ks[..n], entries, clock, decode, resolveUser)
  {
    assert ks == ks[..n] + ks[n..];
    AbortSticks(ks[..n], ks[n..], entries, clock, decode, resolveUser);
  }

  /**
   * Rows come in key order: when neither part of a walk hits an error, the rows of the
   * whole walk are the rows of its first part followed by the rows of its second part.
   */
  lemma {:induction false} ScanRowsAppend(a: seq<string>, b: seq<string>, entries: map<string, Bytes>,
                                          clock: int -> Option<string>, decode: Bytes -> Option<ListedItem>,
                                          resolveUser: string -> string)
    requires forall k :: k in a + b ==> k in entries
    requires forall k :: k in a ==> k in entries
    requires forall k :: k in b ==> k in entries
    ensures ScanRows(a + b, entries, clock, decode, resolveUser).Rows? <==>
      ScanRows(a, entries, clock, decode, resolveUser).Rows? && ScanRows(b, entries, clock, decode, resolveUser).Rows?
    ensures ScanRows(a + b, entries, clock, decode, resolveUser).Rows? ==>
      ScanRows(a + b, entries, clock, decode, resolveUser).rows
        == ScanRows(a, entries, clock, decode, resolveUser).rows + ScanRows(b, entries, clock, decode, resolveUser).rows
    decreases |b|
  {
    if b == [] {
      assert a + b == a;
    } else {
      var b' := b[..|b| - 1];
      assert (a + b)[..|a + b| - 1] == a + b';
      assert (a + b)[|a + b| - 1] == b[|b| - 1];
      assert forall k :: k in b' ==> k in b;
      assert forall k :: k in a + b' ==> k in a + b;
      ScanRowsAppend(a, b', entries, clock, decode, resolveUser);
    }
  }

  /** The entry under `k` ends the page with an error */
  predicate StepAborts(k: string, entries: map<string, Bytes>, clock: int -> Option<string>,
                       decode: Bytes -> Option<ListedItem>, resolveUser: string -> string)
    requires k in entries
  {
    EntryStep(k, entries[k], clock, decode, resolveUser).Abort?
  }

  /**
   * A walk ends with an error page exactly when one of its keys has a timestamp the clock
   * cannot show; otherwise every key either adds its row or is skipped.
   */
  lemma {:induction false} ScanRowsAborts(ks: seq<string>, entries: map<string, Bytes>,
                                          clock: int -> Option<string>, decode: Bytes -> Option<ListedItem>,
                                          resolveUser: string -> string)
    requires forall k :: k in ks ==> k in entries
    ensures ScanRows(ks, entries, clock, decode, resolveUser).Aborted? <==>
      exists i :: 0 <= i < |ks| && StepAborts(ks[i], entries, clock, decode, resolveUser)
    decreases |ks|
  {
    if ks != [] {
      var pre := ks[..|ks| - 1];
      var last := ks[|ks| - 1];
      assert ks == pre + [last];
      assert forall i :: 0 <= i < |pre| ==> pre[i] == ks[i];
      ScanRowsAborts(pre, entries, clock, decode, resolveUser);
      if ScanRows(pre, entries, clock, decode, resolveUser).Aborted? {
        var i :| 0 <= i < |pre| && StepAborts(pre[i], entries, clock, decode, resolveUser);
        assert StepAborts(ks[i], entries, clock, decode, resolveUser);
        AbortSticks(pre, [last], entries, clock, decode, resolveUser);
      } else {
        ScanRowsSnoc(pre, last, entries, clock, decode, resolveUser);
        if StepAborts(last, entries, clock, decode, resolveUser) {
          assert StepAborts(ks[|ks| - 1], entries, clock, decode, resolveUser);
        } else {
          forall i | 0 <= i < |ks| ensures !StepAborts(ks[i], entries, clock, decode, resolveUser) {
            if i < |pre| {
              assert ks[i] == pre[i];
            }
          }
        }
      }
    }
  }

  // ================================================================ the page

  /** The page when `latest` is asked for and the chat has no logged day */
  function NoDaysPage(css: string, chatName: string, chatId: string): string {
    "<!DOCTYPE html><html lang=\"en\"><style>" + css + "</style><body><div class=\"navigation\"><span class=\"title\">"
      + chatName + "</span> | <span class=\"nolink\">index</span> | <a href=\"/chat/" + chatId + "/latest\">latest</a></div>"
  }

  /** The first parts of the page: doctype, style sheet and title */
  function Prelude(css: string, chatName: string, day: string): seq<string> {
    ["<!DOCTYPE html><html lang=\"en\">", "<style type=\"text/css\">", css, "</style>",
     "<head><title>" + chatName + " - " + day + "</title></head><body>"]
  }

  /** The navigation bar of a day page; `previous` and `next` have no link */
  function BarItems(chatName: string, day: string, chatId: string): seq<H.HeaderItem> {
    [H.Link("<- home", Some("/")),
     H.Title(chatName + " - " + day),
     H.Link("index", Some("/chat/" + chatId)),
     H.Link("previous", None),
     H.Link("next", None),
     H.Link("latest", Some("/chat/" + chatId + "/latest"))]
  }

  const TableOpen: string := "<div class=\"log\"><table class=\"log\"><tbody>"
  const Footer: string := "</ul></div></body></html>"

  const MillisPerDay: int := 86_400_000

  /** A range bound: `chat:{chat}:` and the millisecond timestamp without its trailing zeros */
  function Bound(chatId: string, millis: int): (b: string)
    ensures StartsWith(b, "chat:" + chatId + ":")
    ensures b[|"chat:" + chatId + ":"|..] == TrimEndZeros(IntToString(millis))
  {
    var p := "chat:" + chatId + ":";
    var b := p + TrimEndZeros(IntToString(millis));
    assert b[..|p|] == p;
    b
  }

  /** The day shown: the asked date, or the newest logged day for `latest` */
  function ResolvedDay(date: string, latestDay: Option<string>): Option<string> {
    if date == "latest" then latestDay else Some(date)
  }

  /** The keys a day page walks, newest first */
  function DayKeys(keys: seq<string>, chatId: string, startMillis: int): seq<string> {
    ScanDown(keys, Bound(chatId, startMillis), Bound(chatId, startMillis + MillisPerDay))
  }

  /** `chat_listing` over a snapshot of the store */
  function ListingPage(keys: seq<string>, entries: map<string, Bytes>, chatId: string, date: string,
                       latestDay: Option<string>, chatName: string, css: string,
                       parseDate: string -> Option<int>, clock: int -> Option<string>,
                       decode: Bytes -> Option<ListedItem>, resolveUser: string -> string): string
    requires forall k :: k in keys ==> k in entries
  {
    match ResolvedDay(date, latestDay)
    case None => NoDaysPage(css, chatName, chatId)
    case Some(day) => DayPage(keys, entries, chatId, day, chatName, css, parseDate, clock, decode, resolveUser)
  }

  /** The page of a resolved day */
  function DayPage(keys: seq<string>, entries: map<string, Bytes>, chatId: string, day: string,
                   chatName: string, css: string,
                   parseDate: string -> Option<int>, clock: int -> Option<string>,
                   decode: Bytes -> Option<ListedItem>, resolveUser: string -> string): string
    requires forall k :: k in keys ==> k in entries
  {
    match parseDate(day)
    case None => "invalid date"
    case Some(startMillis) =>
      WalkPage(ScanRows(DayKeys(keys, chatId, startMillis), entries, clock, decode, resolveUser),
               PageHead(css, chatName, day, chatId))
  }

  /** Everything before the rows: prelude, navigation bar and table opener */
  function PageHead(css: string, chatName: string, day: string, chatId: string): seq<string> {
    Prelude(css, chatName, day) + [H.RenderBar(BarItems(chatName, day, chatId)), TableOpen]
  }

  /** The page after a walk: the error page, or the head, the rows and the footer */
  function WalkPage(o: Outcome, head: seq<string>): string {
    match o
    case Aborted(page) => page
    case Rows(rows) => Join(head + rows + [Footer], "")
  }

  /**
   * Every key a day page walks belongs to the chat: it starts with `chat:{chat}:` and lies
   * between the two bounds.
   */
  lemma DayKeysOfChat(keys: seq<string>, chatId: string, startMillis: int, k: string)
    ensures k in DayKeys(keys, chatId, startMillis) ==>
      && k in keys && StartsWith(k, "chat:" + chatId + ":")
      && InRange(k, Bound(chatId, startMillis), Bound(chatId, startMillis + MillisPerDay))
  {
    if k in DayKeys(keys, chatId, startMillis) {
      var p := "chat:" + chatId + ":";
      var lower := Bound(chatId, startMillis);
      var upper := Bound(chatId, startMillis + MillisPerDay);
      assert lower == p + lower[|p|..];
      assert upper == p + upper[|p|..];
      BetweenExtensions(k, p, lower[|p|..], upper[|p|..]);
    }
  }

  /** `chat_listing`: renders the page of one day of a chat */
  method ChatListingPage(keys: seq<string>, entries: map<string, Bytes>, chatId: string, date: string,
                         latestDay: Option<string>, chatName: string, css: string,
                         parseDate: string -> Option<int>, clock: int -> Option<string>,
                         decode: Bytes -> Option<ListedItem>, resolveUser: string -> string)
    returns (page: string)
    requires forall k :: k in keys ==> k in entries
    ensures page == ListingPage(keys, entries, chatId, date, latestDay, chatName, css, parseDate, clock, decode, resolveUser)
  {
    var day := date;
    if date == "latest" {
      match latestDay {
        case Some(d) => day := d;
        case None => return NoDaysPage(css, chatName, chatId);
      }
    }
    page := RenderDay(keys, entries, chatId, day, chatName, css, parseDate, clock, decode, resolveUser);
  }

  /** The navigation bar of a day page, built with the header builder */
  method ListingBar(chatName: string, day: string, chatId: string) returns (html: string)
    ensures html == H.RenderBar(BarItems(chatName, day, chatId))
  {
    var bar := new H.HeaderBar();
    bar.WithLink("<- home", Some("/"));
    bar.WithTitle(chatName + " - " + day);
    bar.WithLink("index", Some("/chat/" + chatId));
    bar.WithLink("previous", None);
    bar.WithLink("next", None);
    bar.WithLink("latest", Some("/chat/" + chatId + "/latest"));
    assert bar.items == BarItems(chatName, day, chatId);
    html := bar.ToString();
  }

  /**
   * `chat_listing`'s loop: walks `iter`, appending a row per shown entry to `out`, until a
   * timestamp the clock cannot show ends the page with an error page.
   */
  method AppendRows(out: seq<string>, iter: seq<string>, entries: map<string, Bytes>, clock: int -> Option<string>,
                    decode: Bytes -> Option<ListedItem>, resolveUser: string -> string)
    returns (out': seq<string>, errorPage: Option<string>)
    requires forall k :: k in iter ==> k in entries
    ensures errorPage.Some? <==> ScanRows(iter, entries, clock, decode, resolveUser).Aborted?
    ensures errorPage.Some? ==> errorPage.value == ScanRows(iter, entries, clock, decode, resolveUser).page
    ensures errorPage.None? ==> out' == out + ScanRows(iter, entries, clock, decode, resolveUser).rows
  {
    out' := out;
    errorPage := None;
    for i := 0 to |iter|
      invariant ScanRows(iter[..i], entries, clock, decode, resolveUser).Rows?
      invariant out' == out + ScanRows(iter[..i], entries, clock, decode, resolveUser).rows
    {
      TakeSnoc(iter, i);
      var step := RenderEntry(iter[i], entries[iter[i]], clock, decode, resolveUser);
      ScanRowsSnoc(iter[..i], iter[i], entries, clock, decode, resolveUser);
      match step {
        case Skip =>
        case Emit(row) =>
          out' := out' + [row];
        case Abort(page) =>
          AbortSticksAt(iter, i + 1, entries, clock, decode, resolveUser);
          return out', Some(page);
      }
    }
    assert iter[..|iter|] == iter;
  }

  /** The rest of `chat_listing` once the day is known */
  method RenderDay(keys: seq<string>, entries: map<string, Bytes>, chatId: string, day: string,
                   chatName: string, css: string,
                   parseDate: string -> Option<int>, clock: int -> Option<string>,
                   decode: Bytes -> Option<ListedItem>, resolveUser: string -> string)
    returns (page: string)
    requires forall k :: k in keys ==> k in entries
    ensures page == DayPage(keys, entries, chatId, day, chatName, css, parseDate, clock, decode, resolveUser)
  {
    var out := Prelude(css, chatName, day);

    var time := parseDate(day);
    if time.None? {
      return "invalid date";
    }

    var timeStart := TrimEndZeros(IntToString(time.value));
    var timeEnd := TrimEndZeros(IntToString(time.value + MillisPerDay));
    var lowerBound := "chat:" + chatId + ":" + timeStart;
    var upperBound := "chat:" + chatId + ":" + timeEnd;
    var iter := ScanDown(keys, lowerBound, upperBound);
    assert iter == DayKeys(keys, chatId, time.value);

    var bar := ListingBar(chatName, day, chatId);
    out := out + [bar];

    out := out + [TableOpen];
    ghost var head := out;
    assert head == PageHead(css, chatName, day, chatId);
    var rows, errorPage := AppendRows(out, iter, entries, clock, decode, resolveUser);
    if errorPage.Some? {
      return errorPage.value;
    }
    out := rows;
    out := out + [Footer];
    page := Join(out, "");
  }
}
