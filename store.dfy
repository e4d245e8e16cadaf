/**
 * The key-value store (a RocksDB database in the source) shared by the Telegram worker,
 * which writes entries, and the web renderers, which read key ranges back.
 *
 * Keys are text; values are bytes. The contents are a finite map. A range scan is
 * modelled on the ordered sequence of the store's keys, which is what the database's
 * iterator walks through.
 */
module Store {
  import opened Wrappers
  import opened Text

  newtype byte = x: int | 0 <= x < 256

  type Bytes = seq<byte>

  /** The bytes of a text made of ASCII characters only */
  function AsciiBytes(s: string): (b: Bytes)
    requires forall i :: 0 <= i < |s| ==> s[i] as int < 128
    ensures |b| == |s|
    ensures forall i :: 0 <= i < |s| ==> b[i] as int == s[i] as int
  {
    if s == [] then [] else [s[0] as int as byte] + AsciiBytes(s[1..])
  }

  // ---------------------------------------------------------------- UTF-8 (RFC 3629, section 4)

  predicate Continuation(b: byte) {
    0x80 <= b <= 0xBF
  }

  /**
   * The length of the well-formed UTF-8 sequence at the front of `b`, or 0 if the front
   * of `b` is not one, following the byte ranges of the UTF8-char rule of RFC 3629, section 4.
   */
  function LeadingCharLength(b: Bytes): (n: nat)
    requires |b| > 0
    ensures n <= |b| && n <= 4
  {
    var b0 := b[0];
    if b0 <= 0x7F then 1
    else if 0xC2 <= b0 <= 0xDF then
      (if |b| >= 2 && Continuation(b[1]) then 2 else 0)
    else if b0 == 0xE0 then
      (if |b| >= 3 && 0xA0 <= b[1] <= 0xBF && Continuation(b[2]) then 3 else 0)
    else if (0xE1 <= b0 <= 0xEC) || (0xEE <= b0 <= 0xEF) then
      (if |b| >= 3 && Continuation(b[1]) && Continuation(b[2]) then 3 else 0)
    else if b0 == 0xED then
      (if |b| >= 3 && 0x80 <= b[1] <= 0x9F && Continuation(b[2]) then 3 else 0)
    else if b0 == 0xF0 then
      (if |b| >= 4 && 0x90 <= b[1] <= 0xBF && Continuation(b[2]) && Continuation(b[3]) then 4 else 0)
    else if 0xF1 <= b0 <= 0xF3 then
      (if |b| >= 4 && Continuation(b[1]) && Continuation(b[2]) && Continuation(b[3]) then 4 else 0)
    else if b0 == 0xF4 then
      (if |b| >= 4 && 0x80 <= b[1] <= 0x8F && Continuation(b[2]) && Continuation(b[3]) then 4 else 0)
    else 0
  }

  /** The bytes `String::from_utf8` accepts */
  predicate ValidUtf8(b: Bytes)
    decreases |b|
  {
    |b| == 0 || (LeadingCharLength(b) > 0 && ValidUtf8(b[LeadingCharLength(b)..]))
  }

  // ---------------------------------------------------------------- the database

  class Db {
    /** The database contents */
    var entries: map<string, Bytes>

    constructor (initial: map<string, Bytes>)
      ensures entries == initial
    {
      entries := initial;
    }

    /**
     * `db.put(key, value)`: stores `value` under `key`, replacing what was there. A write may
     * fail (an I/O error of the database); then nothing changes and `ok` is false. Whether it
     * fails is outside the model.
     */
    method Put(key: string, value: Bytes) returns (ok: bool)
      modifies this
      ensures entries == if ok then old(entries)[key := value] else old(entries)
    {
      ok :| true;
      if ok {
        entries := entries[key := value];
      }
    }
  }

  /** The contents after a sequence of writes that all succeed, applied in order */
  function ApplyPuts(m: map<string, Bytes>, writes: seq<(string, Bytes)>): (r: map<string, Bytes>)
    ensures r.Keys == m.Keys + set w | w in writes :: w.0
    decreases |writes|
  {
    if writes == [] then m
    else
      var last := writes[|writes| - 1];
      var r := ApplyPuts(m, writes[..|writes| - 1])[last.0 := last.1];
      assert forall w :: w in writes ==> w in writes[..|writes| - 1] || w == last;
      r
  }

  /** After writes with pairwise distinct keys, every key holds the value written to it */
  lemma {:induction false} ApplyPutsDistinct(m: map<string, Bytes>, writes: seq<(string, Bytes)>, i: nat)
    requires i < |writes|
    requires forall j, k :: 0 <= j < k < |writes| ==> writes[j].0 != writes[k].0
    ensures ApplyPuts(m, writes)[writes[i].0] == writes[i].1
    decreases |writes|
  {
    if i < |writes| - 1 {
      ApplyPutsDistinct(m, writes[..|writes| - 1], i);
    }
  }

  /** Writes applied in two batches give the same contents as the batches applied in one go */
  lemma {:induction false} ApplyPutsAppend(m: map<string, Bytes>, a: seq<(string, Bytes)>, b: seq<(string, Bytes)>)
    ensures ApplyPuts(m, a + b) == ApplyPuts(ApplyPuts(m, a), b)
    decreases |b|
  {
    if b == [] {
      assert a + b == a;
    } else {
      assert (a + b)[..|a + b| - 1] == a + b[..|b| - 1];
      ApplyPutsAppend(m, a, b[..|b| - 1]);
    }
  }

  /** Making all of `a` and then the first `k` writes of `b` is making a prefix of `a + b` */
  lemma ApplyPutsPrefix(m: map<string, Bytes>, a: seq<(string, Bytes)>, b: seq<(string, Bytes)>, k: nat)
    requires k <= |b|
    ensures ApplyPuts(m, (a + b)[..|a| + k]) == ApplyPuts(ApplyPuts(m, a), b[..k])
  {
    assert (a + b)[..|a| + k] == a + b[..k];
    ApplyPutsAppend(m, a, b[..k]);
  }

  // ---------------------------------------------------------------- iteration

  /** Strictly increasing in the store's key order */
  predicate Ascending(keys: seq<string>) {
    forall i, j :: 0 <= i < j < |keys| ==> Less(keys[i], keys[j])
  }

  /** Strictly decreasing in the store's key order */
  predicate Descending(keys: seq<string>) {
    forall i, j :: 0 <= i < j < |keys| ==> Less(keys[j], keys[i])
  }

  /** `keys` lists the keys of `entries`, in the order the database iterates them */
  ghost predicate Enumerates(keys: seq<string>, entries: map<string, Bytes>) {
    Ascending(keys) && forall k :: k in entries <==> k in keys
  }

  /** Between the inclusive lower bound and the exclusive upper bound of an iterator */
  predicate InRange(k: string, lower: string, upper: string) {
    !Less(k, lower) && Less(k, upper)
  }

  /** A forward iteration from `lower` with the exclusive upper bound `upper` */
  function Scan(keys: seq<string>, lower: string, upper: string): (r: seq<string>)
    ensures forall k :: k in r <==> k in keys && InRange(k, lower, upper)
    ensures Ascending(keys) ==> Ascending(r)
  {
    if keys == [] then []
    else
      var rest := Scan(keys[1..], lower, upper);
      assert forall k :: k in keys <==> k == keys[0] || k in keys[1..];
      if InRange(keys[0], lower, upper) then
        assert Ascending(keys) ==> Ascending([keys[0]] + rest) by {
          if Ascending(keys) {
            FirstBelowRest(keys, rest);
          }
        }
        [keys[0]] + rest
      else rest
  }

  lemma FirstBelowRest(keys: seq<string>, rest: seq<string>)
    requires |keys| > 0 && Ascending(keys) && Ascending(rest)
    requires forall k :: k in rest ==> k in keys[1..]
    ensures Ascending([keys[0]] + rest)
  {
    forall k | k in rest ensures Less(keys[0], k) {
      var j :| 0 <= j < |keys[1..]| && keys[1..][j] == k;
      assert keys[j + 1] == k;
    }
    var r := [keys[0]] + rest;
    forall i, j | 0 <= i < j < |r| ensures Less(r[i], r[j]) {
      if i > 0 {
        assert r[i] == rest[i - 1] && r[j] == rest[j - 1];
      } else {
        assert r[j] == rest[j - 1];
        assert r[j] in rest;
      }
    }
  }

  /** A walk without members is empty */
  lemma NoMembersEmpty(s: seq<string>)
    ensures (forall k :: k !in s) ==> s == []
  {
    if |s| > 0 {
      assert s[0] in s;
    }
  }

  /** Two ascending walks over the same keys are the same walk */
  lemma {:induction false} AscendingUnique(a: seq<string>, b: seq<string>)
    requires Ascending(a) && Ascending(b)
    requires forall k :: k in a <==> k in b
    ensures a == b
    decreases |a|
  {
    if a == [] {
      NoMembersEmpty(b);
    } else {
      assert a[0] in b;
      assert b != [];
      var j :| 0 <= j < |b| && b[j] == a[0];
      assert b[0] in a;
      var i :| 0 <= i < |a| && a[i] == b[0];
      if i > 0 && j > 0 {
        assert Less(a[0], b[0]) && Less(b[0], a[0]);
        LessAsymmetric(a[0], b[0]);
      }
      assert a[0] == b[0];
      forall k ensures k in a[1..] <==> k in b[1..] {
        if k in a[1..] {
          var m :| 1 <= m < |a| && a[m] == k;
          LessIrreflexive(a[0]);
          assert k != b[0];
          assert k in b;
        }
        if k in b[1..] {
          var m :| 1 <= m < |b| && b[m] == k;
          LessIrreflexive(b[0]);
          assert k != a[0];
          assert k in a;
        }
      }
      AscendingUnique(a[1..], b[1..]);
      assert a == [a[0]] + a[1..] && b == [b[0]] + b[1..];
    }
  }

  /** The sequence read backwards */
  function Reverse(s: seq<string>): (r: seq<string>)
    ensures |r| == |s|
    ensures forall i :: 0 <= i < |s| ==> r[i] == s[|s| - 1 - i]
  {
    if s == [] then [] else Reverse(s[1..]) + [s[0]]
  }

  /**
   * A reverse iteration: positioned at `upper` (excluded) and walking down to `lower`
   * (included), as `IteratorMode::From(upper, Direction::Reverse)` with both bounds set.
   */
  function ScanDown(keys: seq<string>, lower: string, upper: string): (r: seq<string>)
    ensures forall k :: k in r <==> k in keys && InRange(k, lower, upper)
    ensures Ascending(keys) ==> Descending(r)
  {
    var up := Scan(keys, lower, upper);
    var r := Reverse(up);
    assert forall k :: k in r <==> k in up by {
      forall k ensures k in r <==> k in up {
        if k in up {
          var i :| 0 <= i < |up| && up[i] == k;
          assert r[|up| - 1 - i] == k;
        }
      }
    }
    r
  }

  /** A forward iteration over the keys that start with `prefix` */
  function ScanPrefix(keys: seq<string>, prefix: string): (r: seq<string>)
    ensures forall k :: k in r <==> k in keys && StartsWith(k, prefix)
    ensures Ascending(keys) ==> Ascending(r)
  {
    if keys == [] then []
    else
      var rest := ScanPrefix(keys[1..], prefix);
      assert forall k :: k in keys <==> k == keys[0] || k in keys[1..];
      if StartsWith(keys[0], prefix) then
        assert Ascending(keys) ==> Ascending([keys[0]] + rest) by {
          if Ascending(keys) {
            FirstBelowRest(keys, rest);
          }
        }
        [keys[0]] + rest
      else rest
  }
}
