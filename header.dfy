/**
 * The navigation bar at the top of every page: a list of titles and links, rendered as
 * one `<div class="navigation">` with the items separated by ` | `. Labels and URLs are
 * inserted as they are, without HTML escaping.
 */
module Header {
  import opened Wrappers
  import opened Text

  datatype HeaderItem =
    | Title(text: string)
    | Link(text: string, url: Option<string>)

  /** `From<HeaderItem> for String`; a link without a URL is shown as a label marked `(none)` */
  function ItemHtml(item: HeaderItem): string {
    match item
    case Title(text) => "<span class=\"title\">" + text + "</span>"
    case Link(text, Some(url)) => "<a href=\"" + url + "\">" + text + "</a>"
    case Link(text, None) => "<span class=\"nolink\">" + text + " (none)</span>"
  }

  /** The HTML of each item, in order */
  function ItemsHtml(items: seq<HeaderItem>): seq<string> {
    seq(|items|, i requires 0 <= i < |items| => ItemHtml(items[i]))
  }

  const BarOpen: string := "<div class=\"navigation\">"
  const BarClose: string := "</div>"
  const Separator: string := " | "

  /** `From<HeaderBar> for String` */
  function RenderBar(items: seq<HeaderItem>): string {
    BarOpen + Join(ItemsHtml(items), Separator) + BarClose
  }

  /** An empty bar is an empty navigation element */
  lemma RenderBarEmpty()
    ensures RenderBar([]) == "<div class=\"navigation\"></div>"
  {
  }

  /**
   * Appending an item appends its HTML at the right end of the bar: after a separator when
   * the bar already had items, alone otherwise.
   */
  lemma RenderBarAppend(items: seq<HeaderItem>, item: HeaderItem)
    ensures RenderBar(items + [item]) ==
      BarOpen
      + (if items == [] then "" else Join(ItemsHtml(items), Separator) + Separator)
      + ItemHtml(item)
      + BarClose
  {
    assert ItemsHtml(items + [item]) == ItemsHtml(items) + [ItemHtml(item)];
    if items != [] {
      JoinAppend(ItemsHtml(items), ItemHtml(item), Separator);
    } else {
      assert ItemsHtml(items + [item]) == [ItemHtml(item)];
    }
  }

  /** `HeaderBar`: a builder collecting the items of the bar */
  class HeaderBar {
    var items: seq<HeaderItem>

    /** `HeaderBar::new`: a bar with no items */
    constructor ()
      ensures items == []
    {
      items := [];
    }

    /** The rendered bar */
    function ToString(): string
      reads this
    {
      RenderBar(items)
    }

    /** `with_item`: appends an item */
    method WithItem(item: HeaderItem)
      modifies this
      ensures items == old(items) + [item]
    {
      items := items + [item];
    }

    /** `with_title`: appends a title */
    method WithTitle(text: string)
      modifies this
      ensures items == old(items) + [Title(text)]
    {
      items := items + [Title(text)];
    }

    /** `with_link`: appends a link, or a dead label when there is no URL */
    method WithLink(text: string, url: Option<string>)
      modifies this
      ensures items == old(items) + [Link(text, url)]
    {
      items := items + [Link(text, url)];
    }
  }
}
