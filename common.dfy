/** Shared value types and sequence helpers used by both the server and the client model. */
module Common {

  datatype Option<+T> = None | Some(value: T) {
    function GetOr(default: T): T {
      match this
      case Some(v) => v
      case None => default
    }
  }

  datatype Result<+T, +E> = Success(value: T) | Failure(error: E)

  /** ASCII case folding, which is what SQLite's lower() performs. */
  function LowerChar(c: char): char {
    if 'A' <= c <= 'Z' then (c as int + 32) as char else c
  }

  function Lower(s: string): (r: string)
    ensures |r| == |s|
    ensures forall i :: 0 <= i < |s| ==> r[i] == LowerChar(s[i])
  {
    seq(|s|, i requires 0 <= i < |s| => LowerChar(s[i]))
  }

  /** Equality ignoring ASCII case: `lower(a) = lower(b)` in SQL. */
  predicate SameIgnoringCase(a: string, b: string) {
    Lower(a) == Lower(b)
  }

  lemma EqualImpliesSameIgnoringCase(a: string, b: string)
    requires a == b
    ensures SameIgnoringCase(a, b)
  {
  }

  /** Index of the first element satisfying `p`, or |s| when there is none. */
  function FirstIndex<T>(s: seq<T>, p: T -> bool): (k: nat)
    ensures k <= |s|
    ensures forall j :: 0 <= j < k ==> !p(s[j])
    ensures k < |s| ==> p(s[k])
  {
    if s == [] then 0
    else if p(s[0]) then 0
    else 1 + FirstIndex(s[1..], p)
  }

  /** The first element satisfying `p` (a query's `.first()` over rows in table order). */
  function FirstMatch<T>(s: seq<T>, p: T -> bool): (r: Option<T>)
    ensures r.None? <==> forall i :: 0 <= i < |s| ==> !p(s[i])
    ensures r.Some? ==> r.value in s && p(r.value)
  {
    var k := FirstIndex(s, p);
    if k < |s| then Some(s[k]) else None
  }

  /** `s.map(e => key(e) === key(x) ? x : e)`: every element with x's key becomes x. */
  function ReplaceById<T>(s: seq<T>, key: T -> int, x: T): (r: seq<T>)
    ensures |r| == |s|
    ensures forall i :: 0 <= i < |s| && key(s[i]) == key(x) ==> r[i] == x
    ensures forall i :: 0 <= i < |s| && key(s[i]) != key(x) ==> r[i] == s[i]
  {
    if s == [] then []
    else [if key(s[0]) == key(x) then x else s[0]] + ReplaceById(s[1..], key, x)
  }

  /** `s.filter(e => key(e) !== id)`. */
  function RemoveById<T(!new)>(s: seq<T>, key: T -> int, id: int): (r: seq<T>)
    ensures |r| <= |s|
    ensures forall i :: 0 <= i < |r| ==> key(r[i]) != id && r[i] in s
  {
    if s == [] then []
    else (if key(s[0]) != id then [s[0]] else []) + RemoveById(s[1..], key, id)
  }

  /** Every element whose key is not `id` survives removal as many times as it occurred. */
  lemma {:induction false} RemoveByIdKeepsOthers<T(!new)>(s: seq<T>, key: T -> int, id: int, y: T)
    requires key(y) != id
    ensures multiset(RemoveById(s, key, id))[y] == multiset(s)[y]
  {
    if s != [] {
      RemoveByIdKeepsOthers(s[1..], key, id, y);
      assert s == [s[0]] + s[1..];
    }
  }

  /** Removing by id keeps the relative order of what remains: it distributes over concatenation. */
  lemma {:induction false} RemoveByIdAppend<T(!new)>(a: seq<T>, b: seq<T>, key: T -> int, id: int)
    ensures RemoveById(a + b, key, id) == RemoveById(a, key, id) + RemoveById(b, key, id)
  {
    if a == [] {
      assert a + b == b;
    } else {
      assert (a + b)[1..] == a[1..] + b;
      RemoveByIdAppend(a[1..], b, key, id);
    }
  }

  /** Replacing by id keeps everything else in place: it distributes over concatenation. */
  lemma {:induction false} ReplaceByIdAppend<T>(a: seq<T>, b: seq<T>, key: T -> int, x: T)
    ensures ReplaceById(a + b, key, x) == ReplaceById(a, key, x) + ReplaceById(b, key, x)
  {
    if a == [] {
      assert a + b == b;
    } else {
      assert (a + b)[1..] == a[1..] + b;
      ReplaceByIdAppend(a[1..], b, key, x);
    }
  }

  /** When no element carries `id`, removal is the identity. */
  lemma {:induction false} RemoveAbsentId<T(!new)>(s: seq<T>, key: T -> int, id: int)
    requires forall i :: 0 <= i < |s| ==> key(s[i]) != id
    ensures RemoveById(s, key, id) == s
  {
    if s != [] {
      RemoveAbsentId(s[1..], key, id);
    }
  }

  /** When the keys are distinct and `id` occurs, removal takes out exactly one element. */
  lemma {:induction false} RemoveUniqueId<T(!new)>(s: seq<T>, key: T -> int, id: int)
    requires forall i, j :: 0 <= i < j < |s| ==> key(s[i]) != key(s[j])
    requires exists i :: 0 <= i < |s| && key(s[i]) == id
    ensures |RemoveById(s, key, id)| == |s| - 1
  {
    if key(s[0]) == id {
      RemoveAbsentId(s[1..], key, id);
    } else {
      RemoveUniqueId(s[1..], key, id);
    }
  }

  /** The largest key, 0 for an empty sequence. */
  function MaxKey<T>(s: seq<T>, key: T -> int): (m: int)
    ensures m >= 0
    ensures forall i :: 0 <= i < |s| ==> key(s[i]) <= m
  {
    if s == [] then 0
    else var rest := MaxKey(s[1..], key); if key(s[0]) > rest then key(s[0]) else rest
  }
}
