/**
 * The `/` page: the list of every logged chat. It walks the `chat_rel:` keys forwards and
 * shows one line per chat, with links to its newest day and to its index of days.
 *
 * The byte 0xFF, which closes the walk, never occurs in UTF-8 text, so the walk visits
 * exactly the keys that start with `chat_rel:`. Looking up a chat's name is the parameter
 * `resolveChatName`.
 */
module Chats {
  import opened Wrappers
  import opened Text
  import opened Store

  const RelPrefix: string := "chat_rel:"

  /** The keys the page walks */
  function RelKeys(keys: seq<string>): seq<string> {
    ScanPrefix(keys, RelPrefix)
  }

  /** The chat id of a walked key: its second `:`-part, when there are exactly two */
  function KeyChat(key: string): (id: Option<string>)
    ensures id.None? <==> |Split(key, ':')| != 2
    ensures id.Some? ==> id.value == Split(key, ':')[1] && ':' !in id.value
  {
    var parts := Split(key, ':');
    if |parts| != 2 then None else Some(parts[|parts| - 1])
  }

  /** `chat_rel:{id}` names the chat `id`, when the id holds no `:` */
  lemma KeyChatOfRel(id: string)
    requires ':' !in id
    ensures KeyChat(RelPrefix + id) == Some(id)
  {
    assert RelPrefix + id == "chat_rel" + ":" + id;
    SplitTwo("chat_rel", id);
  }

  /** A walked key that names a chat is `chat_rel:` followed by that chat's id */
  lemma RelOfKeyChat(k: string)
    requires StartsWith(k, RelPrefix) && KeyChat(k).Some?
    ensures k == RelPrefix + KeyChat(k).value
  {
    var parts := Split(k, ':');
    JoinSplit(k, ':');
    assert Join(parts[1..], ":") == parts[1];
    assert k == parts[0] + ":" + parts[1];
    var a := parts[0];
    assert forall i :: 0 <= i < |a| ==> k[i] == a[i] && k[i] != ':';
    assert k[|a|] == ':';
    assert k[..9] == RelPrefix;
    assert k[8] == ':';
    assert forall i :: 0 <= i < 8 ==> k[i] != ':' by {
      forall i | 0 <= i < 8 ensures k[i] != ':' {
        assert k[i] == RelPrefix[i];
      }
    }
    assert |a| == 8;
    assert a == k[..8] == RelPrefix[..8];
  }

  /** The chat ids shown, in walk order */
  function ChatIds(ks: seq<string>): (ids: seq<string>)
    decreases |ks|
  {
    if ks == [] then []
    else
      var prev := ChatIds(ks[..|ks| - 1]);
      match KeyChat(ks[|ks| - 1])
      case Some(id) => prev + [id]
      case None => prev
  }

  /** An id is shown exactly when one of the walked keys names it */
  lemma {:induction false} ChatIdsMember(ks: seq<string>, id: string)
    ensures id in ChatIds(ks) <==> exists k :: k in ks && KeyChat(k) == Some(id)
    decreases |ks|
  {
    if ks != [] {
      var init := ks[..|ks| - 1];
      ChatIdsMember(init, id);
      assert ks == init + [ks[|ks| - 1]];
      if id in ChatIds(ks) && id !in ChatIds(init) {
        assert KeyChat(ks[|ks| - 1]) == Some(id);
      }
      if k :| k in ks && KeyChat(k) == Some(id) {
        if k != ks[|ks| - 1] {
          assert k in init;
        }
      }
    }
  }

  /**
   * The page lists a chat exactly when its `chat_rel:` key is stored (ids are written
   * without `:`, which the split would otherwise cut).
   */
  lemma ListedChats(keys: seq<string>, id: string)
    requires ':' !in id
    ensures id in ChatIds(RelKeys(keys)) <==> RelPrefix + id in keys
  {
    ChatIdsMember(RelKeys(keys), id);
    if id in ChatIds(RelKeys(keys)) {
      var k :| k in RelKeys(keys) && KeyChat(k) == Some(id);
      RelOfKeyChat(k);
    }
    if RelPrefix + id in keys {
      KeyChatOfRel(id);
      assert StartsWith(RelPrefix + id, RelPrefix);
      assert RelPrefix + id in RelKeys(keys);
    }
  }

  /** The keys are pairwise different */
  predicate Distinct(ks: seq<string>) {
    forall i, j :: 0 <= i < j < |ks| ==> ks[i] != ks[j]
  }

  /** Over distinct `chat_rel:` keys every chat is listed once */
  lemma {:induction false} ChatIdsDistinct(ks: seq<string>)
    requires Distinct(ks)
    requires forall k :: k in ks ==> StartsWith(k, RelPrefix)
    ensures Distinct(ChatIds(ks))
    decreases |ks|
  {
    if ks != [] {
      var init := ks[..|ks| - 1];
      var last := ks[|ks| - 1];
      ChatIdsDistinct(init);
      if KeyChat(last).Some? {
        var id := KeyChat(last).value;
        if id in ChatIds(init) {
          ChatIdsMember(init, id);
          var k :| k in init && KeyChat(k) == Some(id);
          RelOfKeyChat(k);
          RelOfKeyChat(last);
          assert false;
        }
        assert ChatIds(ks) == ChatIds(init) + [id];
      }
    }
  }

  /** The store's keys are distinct, so the page lists every chat once */
  lemma ChatsListedOnce(keys: seq<string>)
    requires Ascending(keys)
    ensures Distinct(ChatIds(RelKeys(keys)))
  {
    var r := RelKeys(keys);
    forall i, j | 0 <= i < j < |r| ensures r[i] != r[j] {
      LessIrreflexive(r[i]);
    }
    forall k | k in r ensures StartsWith(k, RelPrefix) {
    }
    ChatIdsDistinct(r);
  }

  /** The line of one chat */
  function ChatRow(id: string, chatName: string): string {
    "<li><a href=\"/chat/" + id + "/latest\">" + chatName + "</a> (<a href=\"/chat/" + id
      + "\">index</a> | <a href=\"/chat/" + id + "/latest\">latest</a>)</li>"
  }

  /** The lines of the chats `ids`, in order */
  function ChatRows(ids: seq<string>, resolveChatName: string -> string): seq<string> {
    seq(|ids|, j requires 0 <= j < |ids| => ChatRow(ids[j], resolveChatName(ids[j])))
  }

  /** Everything before the lines */
  function ChatsHead(css: string): seq<string> {
    ["<!DOCTYPE html><html lang=\"en\">", "<style type=\"text/css\">", css, "</style>",
     "<head><title>channel index</title></head><body>", "<div class=\"channels\"><ul>"]
  }

  const ChatsFooter: string := "</ul></div></body></html>"

  /** `chats` over a snapshot of the store */
  function ChatsPage(keys: seq<string>, css: string, resolveChatName: string -> string): string {
    Join(ChatsHead(css) + ChatRows(ChatIds(RelKeys(keys)), resolveChatName) + [ChatsFooter], "")
  }

  /** The parsing step of `chats`' loop: the chat id of one walked key */
  method EntryChat(entry: string) returns (id: Option<string>)
    ensures id == KeyChat(entry)
  {
    var key := Split(entry, ':');
    if |key| != 2 {
      return None;
    }
    id := Some(key[|key| - 1]);
  }

  /** `chats`' loop: appends to `out` a line per walked key that names a chat */
  method AppendChatRows(out: seq<string>, iter: seq<string>, resolveChatName: string -> string)
    returns (out': seq<string>)
    ensures out' == out + ChatRows(ChatIds(iter), resolveChatName)
  {
    out' := out;
    for n := 0 to |iter|
      invariant out' == out + ChatRows(ChatIds(iter[..n]), resolveChatName)
    {
      TakeSnoc(iter, n);
      assert iter[..n + 1][..n] == iter[..n];
      var id := EntryChat(iter[n]);
      if id.None? {
        continue;
      }
      var chatName := resolveChatName(id.value);
      assert ChatIds(iter[..n + 1]) == ChatIds(iter[..n]) + [id.value];
      assert ChatRows(ChatIds(iter[..n + 1]), resolveChatName)
        == ChatRows(ChatIds(iter[..n]), resolveChatName) + [ChatRow(id.value, chatName)];
      out' := out' + [ChatRow(id.value, chatName)];
    }
    assert iter[..|iter|] == iter;
  }

  /** `chats`: renders the list of chats */
  method RenderChats(keys: seq<string>, css: string, resolveChatName: string -> string)
    returns (page: string)
    ensures page == ChatsPage(keys, css, resolveChatName)
  {
    var out := ["<!DOCTYPE html><html lang=\"en\">", "<style type=\"text/css\">", css, "</style>",
                "<head><title>channel index</title></head><body>", "<div class=\"channels\"><ul>"];
    var iter := ScanPrefix(keys, "chat_rel:");
    out := AppendChatRows(out, iter, resolveChatName);
    out := out + [ChatsFooter];
    page := Join(out, "");
  }
}
