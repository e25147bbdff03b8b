/** The list operations the frontend store reducers are built from, over any
    entity with a numeric id: `Array.prototype.findIndex` by id, replacing the
    first element with a matching id, `filter` by id, and the
    `message || fallback` choice of an error message. */
module Reducers {
  import opened Wrappers

  /** The ids of the elements, in order. */
  function Keys<T>(s: seq<T>, key: T -> int): seq<int>
  {
    seq(|s|, i requires 0 <= i < |s| => key(s[i]))
  }

  /** `findIndex((x) => x.id === id)`: the first position holding the id, or -1. */
  function FindIndex<T>(s: seq<T>, key: T -> int, id: int): (r: int)
    ensures -1 <= r < |s|
    ensures r == -1 <==> forall i :: 0 <= i < |s| ==> key(s[i]) != id
    ensures r != -1 ==> key(s[r]) == id && forall i :: 0 <= i < r ==> key(s[i]) != id
  {
    if |s| == 0 then -1
    else if key(s[0]) == id then 0
    else
      var r := FindIndex(s[1..], key, id);
      if r == -1 then -1 else r + 1
  }

  /** The update reducers: the element at the first position whose id is that of
      `x` becomes `x`; with no such position the list is unchanged. */
  function ReplaceFirst<T>(s: seq<T>, key: T -> int, x: T): (r: seq<T>)
    ensures |r| == |s|
  {
    var i := FindIndex(s, key, key(x));
    if i == -1 then s else s[i := x]
  }

  /** Replacing keeps every other element, puts `x` at the first matching
      position, and is the identity when no id matches. */
  lemma ReplaceFirstSpec<T>(s: seq<T>, key: T -> int, x: T)
    ensures (forall i :: 0 <= i < |s| ==> key(s[i]) != key(x)) ==> ReplaceFirst(s, key, x) == s
    ensures forall j :: 0 <= j < |s| && key(s[j]) == key(x) ==>
              var i := FindIndex(s, key, key(x));
              0 <= i <= j && ReplaceFirst(s, key, x)[i] == x &&
              forall k :: 0 <= k < |s| && k != i ==> ReplaceFirst(s, key, x)[k] == s[k]
  {
  }

  /** Replacing never changes the ids, so a list with distinct ids keeps them distinct. */
  lemma ReplaceFirstKeys<T>(s: seq<T>, key: T -> int, x: T)
    ensures Keys(ReplaceFirst(s, key, x), key) == Keys(s, key)
  {
    var i := FindIndex(s, key, key(x));
    if i != -1 {
      assert forall k :: 0 <= k < |s| ==> Keys(s[i := x], key)[k] == Keys(s, key)[k];
    }
  }

  /** `filter((x) => x.id !== id)`: every element without the id, in order. */
  function RemoveAll<T>(s: seq<T>, key: T -> int, id: int): (r: seq<T>)
    ensures |r| <= |s|
    ensures forall i :: 0 <= i < |r| ==> key(r[i]) != id
  {
    if |s| == 0 then []
    else if key(s[0]) == id then RemoveAll(s[1..], key, id)
    else [s[0]] + RemoveAll(s[1..], key, id)
  }

  /** Filtering a concatenation filters each part: the kept elements stay in their order. */
  lemma {:induction false} RemoveAllAppend<T>(a: seq<T>, b: seq<T>, key: T -> int, id: int)
    ensures RemoveAll(a + b, key, id) == RemoveAll(a, key, id) + RemoveAll(b, key, id)
    decreases |a|
  {
    if |a| == 0 {
      assert a + b == b;
    } else {
      assert (a + b)[1..] == a[1..] + b;
      RemoveAllAppend(a[1..], b, key, id);
    }
  }

  /** Each element without the id is kept as often as it occurs; elements with the id are gone. */
  lemma {:induction false} RemoveAllCounts<T>(s: seq<T>, key: T -> int, id: int, x: T)
    ensures multiset(RemoveAll(s, key, id))[x] == if key(x) == id then 0 else multiset(s)[x]
    decreases |s|
  {
    if |s| != 0 {
      assert s == [s[0]] + s[1..];
      RemoveAllCounts(s[1..], key, id, x);
    }
  }

  /** Removing an id nobody has changes nothing. */
  lemma {:induction false} RemoveAbsent<T>(s: seq<T>, key: T -> int, id: int)
    requires forall i :: 0 <= i < |s| ==> key(s[i]) != id
    ensures RemoveAll(s, key, id) == s
    decreases |s|
  {
    if |s| != 0 {
      RemoveAbsent(s[1..], key, id);
      assert s == [s[0]] + s[1..];
    }
  }

  /** Deleting twice is deleting once. */
  lemma RemoveAllIdempotent<T>(s: seq<T>, key: T -> int, id: int)
    ensures RemoveAll(RemoveAll(s, key, id), key, id) == RemoveAll(s, key, id)
  {
    RemoveAbsent(RemoveAll(s, key, id), key, id);
  }

  /** An update that arrives after its element was deleted changes nothing. */
  lemma UpdateAfterRemove<T>(s: seq<T>, key: T -> int, x: T)
    ensures ReplaceFirst(RemoveAll(s, key, key(x)), key, x) == RemoveAll(s, key, key(x))
  {
  }

  /** `action.error.message || fallback`: a missing or empty message gives the fallback. */
  function RejectedMessage(message: Option<string>, fallback: string): (r: string)
    ensures message.Some? && message.value != "" ==> r == message.value
    ensures message.None? || message.value == "" ==> r == fallback
    ensures fallback != "" ==> r != ""
  {
    if message.Some? && message.value != "" then message.value else fallback
  }
}
