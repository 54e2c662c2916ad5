/**
 * The list updates the users and organisations pages hand to their state setters:
 * `list.filter(x => x.id !== id)`, `list.map(x => x.id === y.id ? y : x)` and
 * `[...list, y]`. Each list is immutable; every update builds a new one. `key` reads a
 * record's id.
 */
module RecordList {

  /** `list.filter(x => key(x) !== id)`. */
  function RemoveId<T>(xs: seq<T>, id: string, key: T -> string): (r: seq<T>)
    ensures |r| <= |xs|
    ensures forall i :: 0 <= i < |r| ==> key(r[i]) != id
    ensures forall x :: x in r ==> x in xs
    ensures forall x :: x in xs && key(x) != id ==> x in r
    decreases |xs|
  {
    if xs == [] then []
    else
      var rest := RemoveId(xs[1..], id, key);
      assert forall x :: x in xs && x != xs[0] ==> x in xs[1..];
      if key(xs[0]) == id then rest else [xs[0]] + rest
  }

  /** `list.map(x => key(x) === key(y) ? y : x)`. */
  function ReplaceId<T>(xs: seq<T>, y: T, key: T -> string): (r: seq<T>)
    ensures |r| == |xs|
    ensures forall i :: 0 <= i < |xs| ==> key(r[i]) == key(xs[i])
  {
    seq(|xs|, i requires 0 <= i < |xs| => if key(xs[i]) == key(y) then y else xs[i])
  }

  /** The number of records whose id is `id`. */
  function CountId<T>(xs: seq<T>, id: string, key: T -> string): nat
    decreases |xs|
  {
    if xs == [] then 0 else (if key(xs[0]) == id then 1 else 0) + CountId(xs[1..], id, key)
  }

  predicate HasId<T>(xs: seq<T>, id: string, key: T -> string) {
    exists i :: 0 <= i < |xs| && key(xs[i]) == id
  }

  /** No two records share an id. */
  predicate UniqueIds<T>(xs: seq<T>, key: T -> string) {
    forall i, j :: 0 <= i < j < |xs| ==> key(xs[i]) != key(xs[j])
  }

  function Ids<T>(xs: seq<T>, key: T -> string): seq<string> {
    seq(|xs|, i requires 0 <= i < |xs| => key(xs[i]))
  }

  // ---------------------------------------------------------------------------------------
  // Properties

  /** Removal keeps the order of what it keeps: it works piece by piece. */
  lemma {:induction false} RemoveConcat<T>(a: seq<T>, b: seq<T>, id: string, key: T -> string)
    ensures RemoveId(a + b, id, key) == RemoveId(a, id, key) + RemoveId(b, id, key)
    decreases |a|
  {
    if a != [] {
      assert (a + b)[1..] == a[1..] + b;
      RemoveConcat(a[1..], b, id, key);
    } else {
      assert a + b == b;
    }
  }

  /** Exactly the records with that id are dropped. */
  lemma {:induction false} RemoveCount<T>(xs: seq<T>, id: string, key: T -> string)
    ensures |RemoveId(xs, id, key)| == |xs| - CountId(xs, id, key)
    ensures CountId(RemoveId(xs, id, key), id, key) == 0
    decreases |xs|
  {
    if xs != [] {
      RemoveCount(xs[1..], id, key);
      var rest := RemoveId(xs[1..], id, key);
      if key(xs[0]) != id {
        assert ([xs[0]] + rest)[1..] == rest;
      }
    }
  }

  /** Removing an id no record has changes nothing. */
  lemma {:induction false} RemoveAbsent<T>(xs: seq<T>, id: string, key: T -> string)
    requires !HasId(xs, id, key)
    ensures RemoveId(xs, id, key) == xs
    decreases |xs|
  {
    if xs != [] {
      assert key(xs[0]) != id;
      assert !HasId(xs[1..], id, key) by {
        forall i | 0 <= i < |xs[1..]| ensures key(xs[1..][i]) != id {
          assert xs[1..][i] == xs[i + 1];
        }
      }
      RemoveAbsent(xs[1..], id, key);
      assert xs == [xs[0]] + xs[1..];
    }
  }

  /** Removing twice is removing once. */
  lemma RemoveIdempotent<T>(xs: seq<T>, id: string, key: T -> string)
    ensures RemoveId(RemoveId(xs, id, key), id, key) == RemoveId(xs, id, key)
  {
    RemoveAbsent(RemoveId(xs, id, key), id, key);
  }

  /** Removal keeps ids unique. */
  lemma {:induction false} RemoveKeepsUnique<T>(xs: seq<T>, id: string, key: T -> string)
    requires UniqueIds(xs, key)
    ensures UniqueIds(RemoveId(xs, id, key), key)
    decreases |xs|
  {
    if xs != [] {
      assert UniqueIds(xs[1..], key) by {
        forall i, j | 0 <= i < j < |xs[1..]| ensures key(xs[1..][i]) != key(xs[1..][j]) {
          assert xs[1..][i] == xs[i + 1] && xs[1..][j] == xs[j + 1];
        }
      }
      RemoveKeepsUnique(xs[1..], id, key);
      var rest := RemoveId(xs[1..], id, key);
      if key(xs[0]) != id {
        forall j | 0 <= j < |rest| ensures key(xs[0]) != key(rest[j]) {
          assert rest[j] in xs[1..];
          var k :| 0 <= k < |xs[1..]| && xs[1..][k] == rest[j];
          assert xs[k + 1] == rest[j];
        }
        var r := [xs[0]] + rest;
        forall i, j | 0 <= i < j < |r| ensures key(r[i]) != key(r[j]) {
          if i == 0 {
            assert r[j] == rest[j - 1];
          } else {
            assert r[i] == rest[i - 1] && r[j] == rest[j - 1];
          }
        }
      }
    }
  }

  /** A replacement puts `y` exactly where its id was, and keeps everything else. */
  lemma ReplaceMeaning<T>(xs: seq<T>, y: T, key: T -> string, i: nat)
    requires i < |xs|
    ensures key(xs[i]) == key(y) ==> ReplaceId(xs, y, key)[i] == y
    ensures key(xs[i]) != key(y) ==> ReplaceId(xs, y, key)[i] == xs[i]
    ensures Ids(ReplaceId(xs, y, key), key) == Ids(xs, key)
  {
  }

  /** Replacing a record whose id is absent changes nothing. */
  lemma ReplaceAbsent<T>(xs: seq<T>, y: T, key: T -> string)
    requires !HasId(xs, key(y), key)
    ensures ReplaceId(xs, y, key) == xs
  {
  }

  /** Replacing twice with the same record is replacing once. */
  lemma ReplaceIdempotent<T>(xs: seq<T>, y: T, key: T -> string)
    ensures ReplaceId(ReplaceId(xs, y, key), y, key) == ReplaceId(xs, y, key)
  {
  }

  /** Replacement keeps ids unique. */
  lemma ReplaceKeepsUnique<T>(xs: seq<T>, y: T, key: T -> string)
    requires UniqueIds(xs, key)
    ensures UniqueIds(ReplaceId(xs, y, key), key)
  {
  }

  /** Appending a record with an unused id keeps ids unique. */
  lemma AppendKeepsUnique<T>(xs: seq<T>, y: T, key: T -> string)
    requires UniqueIds(xs, key) && !HasId(xs, key(y), key)
    ensures UniqueIds(xs + [y], key)
  {
    var r := xs + [y];
    forall i, j | 0 <= i < j < |r| ensures key(r[i]) != key(r[j]) {
      if j == |xs| {
        assert r[i] == xs[i];
      } else {
        assert r[i] == xs[i] && r[j] == xs[j];
      }
    }
  }
}
