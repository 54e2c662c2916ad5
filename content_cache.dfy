/**
 * The in-memory document content cache: a JavaScript `Map` from document id to
 * `{content, timestamp}` with a time-to-live checked when an entry is read and
 * first-inserted eviction when the cache is full.
 *
 * The `Map`'s state is its entries plus its key order (the order `keys()` yields them:
 * insertion order, where `set` on a present key keeps the key's place). The clock
 * `Date.now()` is the parameter `now`.
 */
module ContentCache {
  import opened Wrappers
  import opened DocumentModel

  const DefaultMaxSize: int := 100
  /** 30 minutes, in milliseconds. */
  const DefaultTtl: int := 30 * 60 * 1000

  datatype Entry = Entry(content: Content, timestamp: int)

  /** The cache's abstract value: its entries, their key order and its two limits. */
  datatype CacheState = CacheState(entries: map<string, Entry>, order: seq<string>, maxSize: int, ttl: int)

  predicate NoDuplicates(s: seq<string>) {
    forall i, j :: 0 <= i < j < |s| ==> s[i] != s[j]
  }

  /** The key order lists each key of the map exactly once. */
  ghost predicate Wf(st: CacheState) {
    && NoDuplicates(st.order)
    && (forall k :: k in st.order <==> k in st.entries)
  }

  /** `s` with every occurrence of `k` removed, the rest in order. */
  function Without(s: seq<string>, k: string): (r: seq<string>)
    ensures forall x :: x in r <==> x in s && x != k
    ensures NoDuplicates(s) ==> NoDuplicates(r)
    ensures k !in s ==> r == s
    ensures NoDuplicates(s) && |s| > 0 && s[0] == k ==> r == s[1..]
    ensures |r| <= |s|
  {
    if s == [] then []
    else
      var rest := Without(s[1..], k);
      if s[0] == k then rest
      else
        NoDuplicatesTail(s);
        [s[0]] + rest
  }

  lemma NoDuplicatesTail(s: seq<string>)
    requires |s| > 0
    ensures NoDuplicates(s) ==> NoDuplicates(s[1..]) && s[0] !in s[1..]
  {
    if NoDuplicates(s) {
      forall i | 0 <= i < |s[1..]| ensures s[1..][i] != s[0] {
        assert s[1..][i] == s[i + 1];
      }
    }
  }

  function Delete(st: CacheState, k: string): CacheState {
    st.(entries := st.entries - {k}, order := Without(st.order, k))
  }

  /** An entry counts as present while its age is strictly below the time-to-live. */
  predicate IsLive(st: CacheState, id: string, now: int) {
    id in st.entries && now - st.entries[id].timestamp < st.ttl
  }

  /** What `get(id)` returns at time `now` (`None` is `undefined`). */
  function Lookup(st: CacheState, id: string, now: int): Option<Content> {
    if IsLive(st, id, now) then Some(st.entries[id].content) else None
  }

  /** The state after `get(id)` at time `now`: an expired entry is deleted. */
  function AfterGet(st: CacheState, id: string, now: int): CacheState {
    if id in st.entries && !IsLive(st, id, now) then Delete(st, id) else st
  }

  /** The eviction at the start of `set`: when full, the first key goes, unless it is `""` (falsy). */
  predicate EvictsFirst(st: CacheState) {
    |st.entries| >= st.maxSize && |st.order| > 0 && st.order[0] != ""
  }

  function Evict(st: CacheState): CacheState {
    if EvictsFirst(st) then Delete(st, st.order[0]) else st
  }

  /** `Map.set`: a present key keeps its place in the order, a new key goes last. */
  function Put(st: CacheState, id: string, c: Content, now: int): CacheState {
    st.(entries := st.entries[id := Entry(c, now)],
        order := if id in st.entries then st.order else st.order + [id])
  }

  /** The state after `set(id, c)` at time `now`. */
  function AfterSet(st: CacheState, id: string, c: Content, now: int): CacheState {
    Put(Evict(st), id, c, now)
  }

  function Cleared(st: CacheState): CacheState {
    st.(entries := map[], order := [])
  }

  class DocumentCache {
    var entries: map<string, Entry>
    var order: seq<string>
    const maxSize: int
    const ttl: int

    ghost function State(): CacheState
      reads this
    {
      CacheState(entries, order, maxSize, ttl)
    }

    ghost predicate Valid()
      reads this
    {
      Wf(State())
    }

    constructor (maxSize: int := DefaultMaxSize, ttl: int := DefaultTtl)
      ensures Valid()
      ensures State() == CacheState(map[], [], maxSize, ttl)
    {
      entries := map[];
      order := [];
      this.maxSize := maxSize;
      this.ttl := ttl;
    }

    method Get(documentId: string, now: int) returns (r: Option<Content>)
      requires Valid()
      modifies this
      ensures Valid()
      ensures r == Lookup(old(State()), documentId, now)
      ensures State() == AfterGet(old(State()), documentId, now)
    {
      if documentId in entries {
        var entry := entries[documentId];
        if now - entry.timestamp < ttl {
          return Some(entry.content);
        } else {
          entries := entries - {documentId};
          order := Without(order, documentId);
        }
      }
      return None;
    }

    method Set(documentId: string, content: Content, now: int)
      requires Valid()
      modifies this
      ensures Valid()
      ensures State() == AfterSet(old(State()), documentId, content, now)
    {
      if |entries| >= maxSize {
        if |order| > 0 {
          var firstKey := order[0];
          if firstKey != "" {
            entries := entries - {firstKey};
            order := order[1..];
          }
        }
      }
      WfAfterEvict(old(State()));
      if documentId !in entries {
        order := order + [documentId];
      }
      entries := entries[documentId := Entry(content, now)];
      WfAfterPut(Evict(old(State())), documentId, content, now);
    }

    method Remove(documentId: string)
      requires Valid()
      modifies this
      ensures Valid()
      ensures State() == Delete(old(State()), documentId)
    {
      entries := entries - {documentId};
      order := Without(order, documentId);
    }

    method Clear()
      requires Valid()
      modifies this
      ensures Valid()
      ensures State() == Cleared(old(State()))
    {
      entries := map[];
      order := [];
    }

    method Size() returns (n: int)
      requires Valid()
      ensures n == |entries| == |order|
    {
      OrderLengthIsSize(State());
      n := |entries|;
    }
  }

  // ---------------------------------------------------------------------------------------
  // Properties of the operations

  /** Under `Wf`, the order has as many keys as the map has entries. */
  lemma {:induction false} OrderLengthIsSize(st: CacheState)
    requires Wf(st)
    ensures |st.order| == |st.entries|
  {
    var s := st.order;
    var ks := set k | k in s;
    assert ks == st.entries.Keys;
    DistinctCard(s);
  }

  lemma {:induction false} DistinctCard(s: seq<string>)
    requires NoDuplicates(s)
    ensures |set k | k in s| == |s|
  {
    if s != [] {
      DistinctCard(s[1..]);
      assert (set k | k in s) == (set k | k in s[1..]) + {s[0]};
      assert s[0] !in s[1..];
    }
  }

  lemma WfAfterDelete(st: CacheState, k: string)
    requires Wf(st)
    ensures Wf(Delete(st, k))
  {
  }

  lemma WfAfterEvict(st: CacheState)
    requires Wf(st)
    ensures Wf(Evict(st))
    ensures EvictsFirst(st) ==> Evict(st).order == st.order[1..]
  {
  }

  lemma WfAfterPut(st: CacheState, id: string, c: Content, now: int)
    requires Wf(st)
    ensures Wf(Put(st, id, c, now))
  {
  }

  /** Every operation keeps each key listed once in the key order. */
  lemma WfPreserved(st: CacheState, id: string, c: Content, now: int)
    requires Wf(st)
    ensures Wf(AfterGet(st, id, now))
    ensures Wf(AfterSet(st, id, c, now))
    ensures Wf(Delete(st, id))
    ensures Wf(Cleared(st))
  {
    WfAfterEvict(st);
    WfAfterPut(Evict(st), id, c, now);
  }

  /** An entry whose age equals the time-to-live is already expired. */
  lemma ExpiredAtTtl(st: CacheState, id: string, now: int)
    requires id in st.entries && now == st.entries[id].timestamp + st.ttl
    ensures Lookup(st, id, now) == None
    ensures AfterGet(st, id, now).entries == st.entries - {id}
  {
  }

  /** A `get` that finds an expired entry deletes exactly that key and returns nothing. */
  lemma ExpiredGetDeletesOnlyThatKey(st: CacheState, id: string, now: int)
    requires Wf(st)
    requires id in st.entries && now - st.entries[id].timestamp >= st.ttl
    ensures Lookup(st, id, now) == None
    ensures AfterGet(st, id, now).entries == st.entries - {id}
    ensures forall k :: k in st.entries && k != id ==>
              k in AfterGet(st, id, now).entries && AfterGet(st, id, now).entries[k] == st.entries[k]
    ensures AfterGet(st, id, now).order == Without(st.order, id)
  {
  }

  /** A `get` of a live or missing entry changes nothing. */
  lemma GetOfLiveOrMissingChangesNothing(st: CacheState, id: string, now: int)
    requires id !in st.entries || now - st.entries[id].timestamp < st.ttl
    ensures AfterGet(st, id, now) == st
    ensures Lookup(st, id, now) == if id in st.entries then Some(st.entries[id].content) else None
  {
  }

  /** `set(id, c)` then `get(id)` at the same instant returns `c` when the time-to-live is positive. */
  lemma SetThenGet(st: CacheState, id: string, c: Content, now: int)
    requires st.ttl > 0
    ensures Lookup(AfterSet(st, id, c, now), id, now) == Some(c)
    ensures AfterGet(AfterSet(st, id, c, now), id, now) == AfterSet(st, id, c, now)
  {
  }

  /** A full cache drops its earliest-inserted key first, even when `id` is already present. */
  lemma SetEvictsOldest(st: CacheState, id: string, c: Content, now: int)
    requires Wf(st)
    requires |st.entries| >= st.maxSize && |st.order| > 0 && st.order[0] != ""
    ensures AfterSet(st, id, c, now).entries == (st.entries - {st.order[0]})[id := Entry(c, now)]
    ensures id != st.order[0] ==> st.order[0] !in AfterSet(st, id, c, now).entries
  {
  }

  /** When the oldest key is `""` eviction is skipped, so a full cache grows past its limit. */
  lemma EmptyOldestKeyOverfills(st: CacheState, id: string, c: Content, now: int)
    requires Wf(st)
    requires |st.entries| >= st.maxSize && |st.order| > 0 && st.order[0] == ""
    requires id !in st.entries
    ensures |AfterSet(st, id, c, now).entries| == |st.entries| + 1 > st.maxSize
  {
  }

  /** Without an empty-string key, `set` never takes a cache at or below its limit above it. */
  lemma {:induction false} SetKeepsSizeBound(st: CacheState, id: string, c: Content, now: int)
    requires Wf(st) && st.maxSize >= 1 && |st.entries| <= st.maxSize
    requires "" !in st.entries
    ensures |AfterSet(st, id, c, now).entries| <= st.maxSize
  {
    OrderLengthIsSize(st);
    var ev := Evict(st);
    if EvictsFirst(st) {
      assert st.order[0] in st.entries;
      assert |ev.entries| == |st.entries| - 1;
    } else {
      assert |st.entries| < st.maxSize;
    }
  }

  /** Overwriting a present key keeps its place: the order only loses what eviction takes. */
  lemma OverwriteKeepsPosition(st: CacheState, id: string, c: Content, now: int)
    requires Wf(st) && id in st.entries
    requires !EvictsFirst(st) || st.order[0] != id
    ensures AfterSet(st, id, c, now).entries[id] == Entry(c, now)
    ensures !EvictsFirst(st) ==> AfterSet(st, id, c, now).order == st.order
    ensures EvictsFirst(st) ==> AfterSet(st, id, c, now).order == st.order[1..]
  {
    WfAfterEvict(st);
  }

  /** Overwriting the oldest key of a full cache first evicts it, so it moves to the end. */
  lemma OverwriteOldestMovesToEnd(st: CacheState, c: Content, now: int)
    requires Wf(st) && EvictsFirst(st)
    ensures AfterSet(st, st.order[0], c, now).order == st.order[1..] + [st.order[0]]
    ensures AfterSet(st, st.order[0], c, now).entries == st.entries[st.order[0] := Entry(c, now)]
  {
    WfAfterEvict(st);
    var k := st.order[0];
    assert Evict(st).entries == st.entries - {k};
    assert (st.entries - {k})[k := Entry(c, now)] == st.entries[k := Entry(c, now)];
  }

  /** `remove` deletes only the given key. */
  lemma RemoveDeletesOnlyThatKey(st: CacheState, id: string)
    requires Wf(st)
    ensures Delete(st, id).entries == st.entries - {id}
    ensures forall k :: k in Delete(st, id).order <==> k in st.order && k != id
    ensures id !in st.entries ==> Delete(st, id) == st
  {
  }

  /** `set` of each id in turn, all at time `now`. */
  function SetAll(st: CacheState, ids: seq<string>, c: Content, now: int): CacheState
    decreases |ids|
  {
    if ids == [] then st else SetAll(AfterSet(st, ids[0], c, now), ids[1..], c, now)
  }

  /** Filling an empty cache with up to `maxSize` distinct ids keeps them all, in insertion order. */
  lemma {:induction false} FillKeepsInsertionOrder(st: CacheState, ids: seq<string>, c: Content, now: int)
    requires Wf(st) && NoDuplicates(st.order + ids)
    requires |st.order| + |ids| <= st.maxSize
    ensures SetAll(st, ids, c, now).order == st.order + ids
    ensures SetAll(st, ids, c, now).maxSize == st.maxSize
    decreases |ids|
  {
    if ids == [] {
      assert st.order + ids == st.order;
    } else {
      OrderLengthIsSize(st);
      var all := st.order + ids;
      assert ids[0] !in st.order by {
        forall i | 0 <= i < |st.order| ensures st.order[i] != ids[0] {
          assert all[i] == st.order[i] && all[|st.order|] == ids[0];
        }
      }
      assert !EvictsFirst(st);
      assert Evict(st) == st;
      var next := Put(st, ids[0], c, now);
      assert next == AfterSet(st, ids[0], c, now);
      assert next.order == st.order + [ids[0]];
      WfAfterPut(st, ids[0], c, now);
      assert next.order + ids[1..] == all;
      assert SetAll(st, ids, c, now) == SetAll(next, ids[1..], c, now);
      FillKeepsInsertionOrder(next, ids[1..], c, now);
    }
  }

  /** Inserting `maxSize + 1` distinct non-empty ids into an empty cache evicts exactly the first. */
  lemma OneTooManyEvictsFirst(ids: seq<string>, maxSize: int, ttl: int, c: Content, now: int)
    requires maxSize >= 1 && |ids| == maxSize + 1
    requires NoDuplicates(ids) && "" !in ids
    ensures SetAll(CacheState(map[], [], maxSize, ttl), ids, c, now).order == ids[1..]
    ensures ids[0] !in SetAll(CacheState(map[], [], maxSize, ttl), ids, c, now).entries
  {
    var st0 := CacheState(map[], [], maxSize, ttl);
    var front, last := ids[..maxSize], ids[maxSize];
    var full := FillFront(ids, st0, c, now);
    SplitLast(ids, maxSize);
    SetAllSnoc(st0, front, last, c, now);
    LastAfterFull(full, front, last, c, now);
    NoDuplicatesTail(ids);
  }

  lemma SplitLast<T>(s: seq<T>, n: nat)
    requires 1 <= n && |s| == n + 1
    ensures s == s[..n] + [s[n]] && s[1..] == s[..n][1..] + [s[n]]
  {
  }

  /** Setting `ids + [last]` is setting `ids`, then `last`. */
  lemma SetAllSnoc(st: CacheState, ids: seq<string>, last: string, c: Content, now: int)
    ensures SetAll(st, ids + [last], c, now) == AfterSet(SetAll(st, ids, c, now), last, c, now)
  {
    SetAllSplit(st, ids, [last], c, now);
    var full := SetAll(st, ids, c, now);
    assert SetAll(full, [last], c, now) == SetAll(AfterSet(full, last, c, now), [], c, now);
  }

  /** The first `maxSize` of `ids` fill an empty cache exactly, in order. */
  lemma FillFront(ids: seq<string>, st0: CacheState, c: Content, now: int) returns (full: CacheState)
    requires st0.maxSize >= 1 && |ids| == st0.maxSize + 1 && st0.entries == map[] && st0.order == []
    requires NoDuplicates(ids) && "" !in ids
    ensures full == SetAll(st0, ids[..st0.maxSize], c, now)
    ensures Wf(full) && full.order == ids[..st0.maxSize] && full.maxSize == st0.maxSize
    ensures ids[0] != "" && ids[st0.maxSize] !in ids[..st0.maxSize]
  {
    var front := ids[..st0.maxSize];
    assert [] + front == front;
    PrefixSplit(ids, st0.maxSize);
    FillKeepsInsertionOrder(st0, front, c, now);
    WfSetAll(st0, front, c, now);
    full := SetAll(st0, front, c, now);
  }

  /** The first `n` ids hold no duplicate, and id `n` is not among them. */
  lemma PrefixSplit(ids: seq<string>, n: nat)
    requires n < |ids| && NoDuplicates(ids) && "" !in ids
    ensures NoDuplicates(ids[..n]) && ids[n] !in ids[..n] && ids[0] != ""
  {
    var front := ids[..n];
    forall i, j | 0 <= i < j < |front| ensures front[i] != front[j] {
      assert front[i] == ids[i] && front[j] == ids[j];
    }
    forall i | 0 <= i < |front| ensures front[i] != ids[n] {
      assert front[i] == ids[i];
    }
    assert ids[0] in ids;
  }

  lemma LastAfterFull(full: CacheState, front: seq<string>, last: string, c: Content, now: int)
    requires Wf(full) && full.order == front && |front| == full.maxSize >= 1
    requires front[0] != "" && last !in front
    ensures AfterSet(full, last, c, now).order == front[1..] + [last]
    ensures forall k :: k in AfterSet(full, last, c, now).entries <==> k in front[1..] + [last]
  {
    OrderLengthIsSize(full);
    assert EvictsFirst(full);
    WfAfterEvict(full);
    assert last !in Evict(full).entries;
    WfAfterPut(Evict(full), last, c, now);
  }

  lemma {:induction false} SetAllSplit(st: CacheState, a: seq<string>, b: seq<string>, c: Content, now: int)
    ensures SetAll(st, a + b, c, now) == SetAll(SetAll(st, a, c, now), b, c, now)
    decreases |a|
  {
    if a != [] {
      assert (a + b)[1..] == a[1..] + b;
      SetAllSplit(AfterSet(st, a[0], c, now), a[1..], b, c, now);
    } else {
      assert a + b == b;
    }
  }

  lemma {:induction false} WfSetAll(st: CacheState, ids: seq<string>, c: Content, now: int)
    requires Wf(st)
    ensures Wf(SetAll(st, ids, c, now))
    decreases |ids|
  {
    if ids != [] {
      WfPreserved(st, ids[0], c, now);
      WfSetAll(AfterSet(st, ids[0], c, now), ids[1..], c, now);
    }
  }
}
