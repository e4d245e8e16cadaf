/**
 * The stand-alone backfill program: it walks every stored message (`chat:` keys) and
 * writes, for each, the `chat_index:{chat}:{day}` key that lists the message's day on the
 * chat's index page, counting days as the message date in seconds divided by 86 400.
 *
 * Deserialising a stored value as a log item is the parameter `decodes`: the program
 * unwraps the result, so the first UTF-8 value that does not decode stops it (a panic).
 * The outcome of each write is ignored.
 */
module Backfill {
  import opened Wrappers
  import opened Text
  import opened Store

  const ChatPrefix: string := "chat:"

  /** The walk: forwards from `chat:` up to `chat:` followed by 0x7F */
  function MessageKeys(keys: seq<string>): seq<string> {
    Scan(keys, ChatPrefix, ChatPrefix + [Del])
  }

  /** The walk visits the keys that start with `chat:` and continue, if at all, below 0x7F */
  lemma MessageKeysExact(keys: seq<string>, k: string)
    ensures k in MessageKeys(keys) <==>
      k in keys && StartsWith(k, ChatPrefix) && (|k| == |ChatPrefix| || k[|ChatPrefix|] < Del)
  {
    BelowDelExact(k, ChatPrefix);
  }

  /** A walked key splits into `chat` and the pieces of the rest, so there are at least two */
  lemma MessageKeySplit(key: string)
    requires StartsWith(key, ChatPrefix)
    ensures Split(key, ':') == ["chat"] + Split(key[|ChatPrefix|..], ':')
  {
    assert key == "chat" + [':'] + key[|ChatPrefix|..];
    SplitFirst("chat", key[|ChatPrefix|..], ':');
  }

  /** The day of a date in seconds, as the program computes it (rounded toward zero) */
  function BackfillDay(date: int): int {
    TruncDiv(date, 86_400)
  }

  /**
   * The index key written for a walked key: the second `:`-part is the chat, the last part
   * the date; nothing is written when the last part is not an `i64`.
   */
  function BackfillKey(key: string): (r: Option<string>)
    requires StartsWith(key, ChatPrefix)
    ensures r.Some? <==> ParseI64(Split(key, ':')[|Split(key, ':')| - 1]).Some?
    ensures r.Some? ==> StartsWith(r.value, "chat_index:")
  {
    var parts := Split(key, ':');
    MessageKeySplit(key);
    match ParseI64(parts[|parts| - 1])
    case None => None
    case Some(date) =>
      var r := "chat_index:" + parts[1] + ":" + IntToString(BackfillDay(date));
      assert r[..11] == "chat_index:";
      Some(r)
  }

  /** A message key `chat:{chat}:{date}` gets the key of its chat and day */
  lemma BackfillKeyOfMessage(chat: string, date: int)
    requires ':' !in chat && IsI64(date)
    ensures BackfillKey(ChatPrefix + chat + ":" + IntToString(date))
      == Some("chat_index:" + chat + ":" + IntToString(BackfillDay(date)))
  {
    var key := ChatPrefix + chat + ":" + IntToString(date);
    IntToStringNoColon(date);
    assert key == "chat" + ":" + chat + ":" + IntToString(date);
    SplitThree("chat", chat, IntToString(date));
    ParseIntToString(date);
  }

  /** The keys written never start with `chat:`, so the walk never meets its own writes */
  lemma WrittenKeysNotWalked(key: string, keys: seq<string>)
    requires StartsWith(key, ChatPrefix) && BackfillKey(key).Some?
    ensures BackfillKey(key).value !in MessageKeys(keys)
  {
    var w := BackfillKey(key).value;
    assert w[4] == '_';
    assert !StartsWith(w, ChatPrefix);
    MessageKeysExact(keys, w);
  }

  /** What one walked entry does */
  datatype Step = Skip | Write(indexKey: string) | Panic

  /**
   * A value that is not UTF-8 is skipped; a UTF-8 value that does not decode stops the
   * program; otherwise the entry's index key, if it has one, is written.
   */
  function EntryStep(key: string, value: Bytes, decodes: Bytes -> bool): (step: Step)
    requires StartsWith(key, ChatPrefix)
    ensures step.Panic? <==> ValidUtf8(value) && !decodes(value)
    ensures step.Write? <==> ValidUtf8(value) && decodes(value) && BackfillKey(key).Some?
    ensures step.Write? ==> step.indexKey == BackfillKey(key).value
  {
    if !ValidUtf8(value) then Skip
    else if !decodes(value) then Panic
    else match BackfillKey(key)
      case Some(indexKey) => Write(indexKey)
      case None => Skip
  }

  /** The keys written, in order, and whether the program stopped early */
  datatype Plan = Plan(writes: seq<string>, panicked: bool)

  /** Walked keys that the snapshot holds and that start with `chat:` */
  predicate WalkOf(ks: seq<string>, entries: map<string, Bytes>) {
    forall k :: k in ks ==> k in entries && StartsWith(k, ChatPrefix)
  }

  /** The run over the walked keys `ks`, whose values come from `entries`, up to a panic */
  function RunPlan(ks: seq<string>, entries: map<string, Bytes>, decodes: Bytes -> bool): (p: Plan)
    requires WalkOf(ks, entries)
    decreases |ks|
  {
    if ks == [] then Plan([], false)
    else
      var prev := RunPlan(ks[..|ks| - 1], entries, decodes);
      var k := ks[|ks| - 1];
      if prev.panicked then prev
      else match EntryStep(k, entries[k], decodes)
        case Skip => prev
        case Write(indexKey) => Plan(prev.writes + [indexKey], false)
        case Panic => Plan(prev.writes, true)
  }

  /**
   * The run stops exactly when some walked value is UTF-8 and does not decode; each key
   * written is the index key of a walked entry whose value decodes.
   */
  lemma {:induction false} RunPlanShape(ks: seq<string>, entries: map<string, Bytes>, decodes: Bytes -> bool)
    requires WalkOf(ks, entries)
    ensures RunPlan(ks, entries, decodes).panicked <==>
      exists k :: k in ks && ValidUtf8(entries[k]) && !decodes(entries[k])
    ensures forall w :: w in RunPlan(ks, entries, decodes).writes ==>
      exists k :: k in ks && ValidUtf8(entries[k]) && decodes(entries[k]) && BackfillKey(k) == Some(w)
    decreases |ks|
  {
    if ks != [] {
      var init := ks[..|ks| - 1];
      var last := ks[|ks| - 1];
      RunPlanShape(init, entries, decodes);
      assert ks == init + [last];
      assert forall k :: k in init ==> k in ks;
      var p := RunPlan(ks, entries, decodes);
      var prev := RunPlan(init, entries, decodes);
      if !prev.panicked {
        assert forall k :: k in ks && ValidUtf8(entries[k]) && !decodes(entries[k]) ==> k == last;
      }
      forall w | w in p.writes
        ensures exists k :: k in ks && ValidUtf8(entries[k]) && decodes(entries[k]) && BackfillKey(k) == Some(w)
      {
        if w !in prev.writes {
          assert EntryStep(last, entries[last], decodes) == Write(w);
        }
      }
    }
  }

  /** The run reads the snapshot only at the walked keys */
  lemma {:induction false} RunPlanFrame(ks: seq<string>, e1: map<string, Bytes>, e2: map<string, Bytes>,
                                        decodes: Bytes -> bool)
    requires WalkOf(ks, e1) && WalkOf(ks, e2)
    requires forall k :: k in ks ==> e1[k] == e2[k]
    ensures RunPlan(ks, e1, decodes) == RunPlan(ks, e2, decodes)
    decreases |ks|
  {
    if ks != [] {
      assert forall k :: k in ks[..|ks| - 1] ==> k in ks;
      RunPlanFrame(ks[..|ks| - 1], e1, e2, decodes);
    }
  }

  /** One more walked key adds its step, unless the run already stopped */
  lemma RunPlanSnoc(ks: seq<string>, k: string, entries: map<string, Bytes>, decodes: Bytes -> bool)
    requires WalkOf(ks + [k], entries)
    ensures WalkOf(ks, entries)
    ensures RunPlan(ks + [k], entries, decodes) ==
      var prev := RunPlan(ks, entries, decodes);
      if prev.panicked then prev
      else match EntryStep(k, entries[k], decodes)
        case Skip => prev
        case Write(indexKey) => Plan(prev.writes + [indexKey], false)
        case Panic => Plan(prev.writes, true)
  {
    assert forall x :: x in ks ==> x in ks + [k];
    assert (ks + [k])[..|ks|] == ks;
  }

  /**
   * The database after a run that wrote `writes`: nothing is removed, and every key holds
   * what it held before or is one of `writes` holding the byte 0.
   */
  ghost predicate Backfilled(now: map<string, Bytes>, before: map<string, Bytes>, writes: seq<string>) {
    && (forall k :: k in before ==> k in now)
    && (forall k :: k in now ==> (k in before && now[k] == before[k]) || (k in writes && now[k] == [0]))
  }

  /** A write of the byte 0 under the next key of the run, whether it succeeds or not */
  lemma BackfilledWrite(now: map<string, Bytes>, before: map<string, Bytes>, writes: seq<string>, w: string)
    requires Backfilled(now, before, writes)
    ensures Backfilled(now, before, writes + [w])
    ensures Backfilled(now[w := [0]], before, writes + [w])
  {
    assert forall k :: k in writes ==> k in writes + [w];
  }

  /** Every key the run writes is an index key */
  lemma RunWritesIndexKeys(ks: seq<string>, entries: map<string, Bytes>, decodes: Bytes -> bool)
    requires WalkOf(ks, entries)
    ensures forall w :: w in RunPlan(ks, entries, decodes).writes ==> StartsWith(w, "chat_index:")
  {
    RunPlanShape(ks, entries, decodes);
  }

  /** Index keys are not message keys, so writing them leaves every message as it was */
  lemma BackfilledKeepsMessages(now: map<string, Bytes>, before: map<string, Bytes>, writes: seq<string>)
    requires Backfilled(now, before, writes)
    requires forall w :: w in writes ==> StartsWith(w, "chat_index:")
    ensures forall k :: StartsWith(k, ChatPrefix) && k in now ==> k in before && now[k] == before[k]
  {
    assert forall w :: w in writes ==> w[4] == '_';
    assert forall k :: StartsWith(k, ChatPrefix) ==> k[4] == ':';
  }

  /**
   * The loop body of `main` for one walked entry: skips a value that is not UTF-8, stops
   * at one that does not decode, and otherwise writes the entry's index key when its last
   * part is a number, ignoring whether the write succeeds.
   */
  method WalkEntry(db: Db, key: string, value: Bytes, decodes: Bytes -> bool) returns (step: Step)
    requires StartsWith(key, ChatPrefix)
    modifies db
    ensures step == EntryStep(key, value, decodes)
    ensures step.Write? ==> db.entries == old(db.entries) || db.entries == old(db.entries)[step.indexKey := [0]]
    ensures !step.Write? ==> db.entries == old(db.entries)
  {
    if !ValidUtf8(value) {
      return Skip;
    }
    if !decodes(value) {
      return Panic;
    }
    var keys := Split(key, ':');
    MessageKeySplit(key);
    var date := ParseI64(keys[|keys| - 1]);
    if date.None? {
      return Skip;
    }
    var dateKey := TruncDiv(date.value, 86_400);
    var indexKey := "chat_index:" + keys[1] + ":" + IntToString(dateKey);
    var _ := db.Put(indexKey, [0]);
    step := Write(indexKey);
  }

  /**
   * The loop of `main` over the walked keys `iter`, reading their values from `snapshot`:
   * it stops exactly when the run does and leaves the database as the run describes.
   */
  method WalkAll(db: Db, iter: seq<string>, snapshot: map<string, Bytes>, decodes: Bytes -> bool)
    returns (panicked: bool)
    requires WalkOf(iter, snapshot) && db.entries == snapshot
    modifies db
    ensures panicked == RunPlan(iter, snapshot, decodes).panicked
    ensures Backfilled(db.entries, snapshot, RunPlan(iter, snapshot, decodes).writes)
  {
    panicked := false;
    var n := 0;
    while n < |iter|
      invariant n <= |iter|
      invariant WalkOf(iter[..n], snapshot)
      invariant !RunPlan(iter[..n], snapshot, decodes).panicked
      invariant Backfilled(db.entries, snapshot, RunPlan(iter[..n], snapshot, decodes).writes)
    {
      TakeSnoc(iter, n);
      RunPlanSnoc(iter[..n], iter[n], snapshot, decodes);
      ghost var before := RunPlan(iter[..n], snapshot, decodes).writes;
      ghost var entries := db.entries;
      var step := WalkEntry(db, iter[n], snapshot[iter[n]], decodes);
      if step.Panic? {
        panicked := true;
        RunPlanPanicSticks(iter, n + 1, snapshot, decodes);
        return;
      }
      if step.Write? {
        BackfilledWrite(entries, snapshot, before, step.indexKey);
      }
      n := n + 1;
    }
    assert iter[..n] == iter;
  }

  /**
   * The program's `main` over an open database: walks the messages and writes their index
   * keys, stopping at the first UTF-8 value that does not decode. The walk reads the
   * database as it was when the iterator was created. Afterwards nothing is removed, every
   * key holds what it held before or is an index key of the run holding the byte 0 (a write
   * that fails leaves the old contents), and so every `chat:` key holds what it held before.
   */
  method Backfill(db: Db, keys: seq<string>, decodes: Bytes -> bool) returns (panicked: bool)
    requires Enumerates(keys, db.entries)
    modifies db
    ensures WalkOf(MessageKeys(keys), old(db.entries))
    ensures panicked == RunPlan(MessageKeys(keys), old(db.entries), decodes).panicked
    ensures Backfilled(db.entries, old(db.entries), RunPlan(MessageKeys(keys), old(db.entries), decodes).writes)
    ensures forall k :: StartsWith(k, ChatPrefix) && k in db.entries ==>
      k in old(db.entries) && db.entries[k] == old(db.entries)[k]
  {
    var snapshot := db.entries;
    var iter := Scan(keys, "chat:", "chat:" + [Del]);
    assert iter == MessageKeys(keys);
    forall k | k in iter ensures k in snapshot && StartsWith(k, ChatPrefix) {
      MessageKeysExact(keys, k);
    }
    panicked := WalkAll(db, iter, snapshot, decodes);
    RunWritesIndexKeys(iter, snapshot, decodes);
    BackfilledKeepsMessages(db.entries, snapshot, RunPlan(iter, snapshot, decodes).writes);
  }

  /** Once the run stops, later keys change nothing */
  lemma {:induction false} RunPlanPanicSticks(ks: seq<string>, n: nat, entries: map<string, Bytes>,
                                              decodes: Bytes -> bool)
    requires n <= |ks| && WalkOf(ks, entries)
    ensures WalkOf(ks[..n], entries)
    ensures RunPlan(ks[..n], entries, decodes).panicked ==>
      RunPlan(ks, entries, decodes) == RunPlan(ks[..n], entries, decodes)
    decreases |ks| - n
  {
    assert forall k :: k in ks[..n] ==> k in ks;
    if n < |ks| {
      RunPlanPanicSticks(ks, n + 1, entries, decodes);
      assert ks[..n + 1][..n] == ks[..n];
      assert forall k :: k in ks[..n + 1] ==> k in ks;
    } else {
      assert ks[..n] == ks;
    }
  }

  /**
   * Running the program again over what a run left behind redoes the same run: the walk
   * meets the same message keys with the same values, because the run only wrote keys
   * outside the walk.
   */
  lemma RerunSamePlan(keys: seq<string>, entries: map<string, Bytes>,
                      keys2: seq<string>, entries2: map<string, Bytes>, decodes: Bytes -> bool)
    requires Enumerates(keys, entries) && Enumerates(keys2, entries2)
    requires forall k :: StartsWith(k, ChatPrefix) ==>
      (k in entries2 <==> k in entries) && (k in entries ==> entries2[k] == entries[k])
    ensures WalkOf(MessageKeys(keys), entries) && WalkOf(MessageKeys(keys2), entries2)
    ensures MessageKeys(keys2) == MessageKeys(keys)
    ensures RunPlan(MessageKeys(keys2), entries2, decodes) == RunPlan(MessageKeys(keys), entries, decodes)
  {
    forall k ensures k in MessageKeys(keys) <==> k in MessageKeys(keys2) {
      MessageKeysExact(keys, k);
      MessageKeysExact(keys2, k);
    }
    AscendingUnique(MessageKeys(keys), MessageKeys(keys2));
    forall k | k in MessageKeys(keys) ensures k in entries && StartsWith(k, ChatPrefix) {
      MessageKeysExact(keys, k);
    }
    RunPlanFrame(MessageKeys(keys), entries, entries2, decodes);
  }
}
