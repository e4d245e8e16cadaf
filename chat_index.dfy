/**
 * The `/chat/{chat}` page: the list of a chat's logged days, newest first. It walks the
 * `chat_index:{chat}:` keys downwards and shows one link per day; the first link also
 * points to the newest page.
 *
 * Formatting a seconds timestamp as `%Y-%m-%d` (chrono) is the parameter `dayLabel`.
 */
module ChatIndex {
  import opened Wrappers
  import opened Text
  import opened Store

  /** `chat_index:{chat}:`, the lower bound of the walk */
  function IndexPrefix(chatId: string): string {
    "chat_index:" + chatId + ":"
  }

  /** The keys the page walks: from `chat_index:{chat}:` up to the same followed by 0x7F, downwards */
  function IndexKeys(keys: seq<string>, chatId: string): seq<string> {
    ScanDown(keys, IndexPrefix(chatId), IndexPrefix(chatId) + [Del])
  }

  /**
   * The walk visits exactly the keys that start with `chat_index:{chat}:` and continue,
   * if at all, with a character below 0x7F.
   */
  lemma IndexKeysExact(keys: seq<string>, chatId: string, k: string)
    ensures k in IndexKeys(keys, chatId) <==>
      k in keys && StartsWith(k, IndexPrefix(chatId))
      && (|k| == |IndexPrefix(chatId)| || k[|IndexPrefix(chatId)|] < Del)
  {
    BelowDelExact(k, IndexPrefix(chatId));
  }

  /** The day number of an index key: its third `:`-part, when there are exactly three */
  function KeyDay(key: string): (day: Option<int>)
    ensures day.Some? ==> |Split(key, ':')| == 3 && ParseI64(Split(key, ':')[2]) == day
  {
    var parts := Split(key, ':');
    if |parts| != 3 then None else ParseI64(parts[|parts| - 1])
  }

  /** The days shown, in walk order */
  function Days(ks: seq<string>): (days: seq<int>)
    ensures |days| <= |ks|
    decreases |ks|
  {
    if ks == [] then []
    else
      var prev := Days(ks[..|ks| - 1]);
      match KeyDay(ks[|ks| - 1])
      case Some(day) => prev + [day]
      case None => prev
  }

  /** The link of one day; `latest` adds the link to the newest page */
  function DayRow(chatId: string, dayText: string, latest: bool): string {
    "<li><a href=\"/chat/" + chatId + "/" + dayText + "\">" + dayText + "</a>"
      + (if latest then " (<a href=\"/chat/" + chatId + "/latest\">latest</a>)" else "")
      + "</li>"
  }

  /**
   * The rows of the walk over `ks`: a row per key with a day, labelled with the day
   * number times 86 400 seconds; only the first row gets the `latest` link.
   */
  function IndexRows(ks: seq<string>, chatId: string, dayLabel: int -> string): seq<string>
    decreases |ks|
  {
    if ks == [] then []
    else
      var prev := IndexRows(ks[..|ks| - 1], chatId, dayLabel);
      match KeyDay(ks[|ks| - 1])
      case Some(day) => prev + [DayRow(chatId, dayLabel(day * 86_400), |prev| == 0)]
      case None => prev
  }

  /** One more key adds its row, if it has a day */
  lemma IndexRowsSnoc(ks: seq<string>, k: string, chatId: string, dayLabel: int -> string)
    ensures IndexRows(ks + [k], chatId, dayLabel) ==
      match KeyDay(k)
      case Some(day) => IndexRows(ks, chatId, dayLabel)
        + [DayRow(chatId, dayLabel(day * 86_400), |IndexRows(ks, chatId, dayLabel)| == 0)]
      case None => IndexRows(ks, chatId, dayLabel)
  {
    assert (ks + [k])[..|ks|] == ks;
  }

  /**
   * Row `j` links day `j` of the walk, and carries the `latest` link exactly when it is the
   * first row: the counter counts shown rows, not walked keys.
   */
  lemma {:induction false} IndexRowsShape(ks: seq<string>, chatId: string, dayLabel: int -> string)
    ensures |IndexRows(ks, chatId, dayLabel)| == |Days(ks)|
    ensures var rows := IndexRows(ks, chatId, dayLabel);
      forall j :: 0 <= j < |rows| ==> rows[j] == DayRow(chatId, dayLabel(Days(ks)[j] * 86_400), j == 0)
    decreases |ks|
  {
    if ks != [] {
      IndexRowsShape(ks[..|ks| - 1], chatId, dayLabel);
    }
  }

  /** The navigation line of the index page */
  function IndexNavigation(chatName: string, chatId: string): string {
    "<div class=\"navigation\"><span class=\"title\">" + chatName
      + "</span> | <span class=\"nolink\">index</span> | <a href=\"/chat/" + chatId + "/latest\">latest</a></div>"
  }

  /** Everything before the rows */
  function IndexHead(css: string, chatName: string, chatId: string): seq<string> {
    ["<!DOCTYPE html><html lang=\"en\">", "<style type=\"text/css\">", css, "</style>",
     "<head><title>channel index</title></head><body>", "<div class=\"index\"><ul>",
     IndexNavigation(chatName, chatId)]
  }

  const IndexFooter: string := "</ul></div></body></html>"

  /** `chat_index` over a snapshot of the store */
  function IndexPage(keys: seq<string>, chatId: string, chatName: string, css: string, dayLabel: int -> string): string {
    Join(IndexHead(css, chatName, chatId) + IndexRows(IndexKeys(keys, chatId), chatId, dayLabel) + [IndexFooter], "")
  }

  /** The parsing step of `chat_index`'s loop: the day of one walked key */
  method EntryDay(entry: string) returns (day: Option<int>)
    ensures day == KeyDay(entry)
  {
    var key := Split(entry, ':');
    if |key| != 3 {
      return None;
    }
    day := ParseI64(key[|key| - 1]);
  }

  /**
   * `chat_index`'s loop: appends to `out` a row per walked key that has a day; the counter
   * `i` counts the rows appended so far.
   */
  method AppendDayRows(out: seq<string>, iter: seq<string>, chatId: string, dayLabel: int -> string)
    returns (out': seq<string>)
    ensures out' == out + IndexRows(iter, chatId, dayLabel)
  {
    out' := out;
    var i := 0;
    for n := 0 to |iter|
      invariant out' == out + IndexRows(iter[..n], chatId, dayLabel)
      invariant i == |IndexRows(iter[..n], chatId, dayLabel)|
    {
      TakeSnoc(iter, n);
      IndexRowsSnoc(iter[..n], iter[n], chatId, dayLabel);
      var day := EntryDay(iter[n]);
      if day.None? {
        continue;
      }
      var dayText := dayLabel(day.value * 86_400);
      out' := out' + [DayRow(chatId, dayText, i == 0)];
      i := i + 1;
    }
    assert iter[..|iter|] == iter;
  }

  /** `chat_index`: renders the list of a chat's days */
  method ChatIndexPage(keys: seq<string>, chatId: string, chatName: string, css: string, dayLabel: int -> string)
    returns (page: string)
    ensures page == IndexPage(keys, chatId, chatName, css, dayLabel)
  {
    var out := ["<!DOCTYPE html><html lang=\"en\">", "<style type=\"text/css\">", css, "</style>",
                "<head><title>channel index</title></head><body>", "<div class=\"index\"><ul>"];
    var lowerBound := "chat_index:" + chatId + ":";
    var upperBound := "chat_index:" + chatId + ":" + [Del];
    assert upperBound == IndexPrefix(chatId) + [Del];
    var iter := ScanDown(keys, lowerBound, upperBound);
    assert iter == IndexKeys(keys, chatId);
    out := out + [IndexNavigation(chatName, chatId)];
    assert out == IndexHead(css, chatName, chatId);
    out := AppendDayRows(out, iter, chatId, dayLabel);

    out := out + [IndexFooter];
    page := Join(out, "");
  }
}
