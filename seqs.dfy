/** The two array searches the stores use, on values keyed by an id string:
    `findIndex(x => x._id === id)` and `filter(x => x._id !== id)`. */
module Seqs {

  /** `Array.prototype.findIndex` by key: the first index whose key is `id`, or -1. */
  function FindIndex<T>(s: seq<T>, key: T -> string, id: string): (i: int)
    ensures -1 <= i < |s|
  {
    if s == [] then -1
    else if key(s[0]) == id then 0
    else
      var k := FindIndex(s[1..], key, id);
      if k == -1 then -1 else k + 1
  }

  /** The index found has the key, every earlier element has another key, and
      -1 means no element has it. */
  lemma {:induction false} FindIndexSpec<T>(s: seq<T>, key: T -> string, id: string)
    ensures var i := FindIndex(s, key, id);
            && (0 <= i ==> key(s[i]) == id && forall j :: 0 <= j < i ==> key(s[j]) != id)
            && (i == -1 <==> forall j :: 0 <= j < |s| ==> key(s[j]) != id)
  {
    if s != [] && key(s[0]) != id {
      FindIndexSpec(s[1..], key, id);
      assert forall j :: 1 <= j < |s| ==> s[j] == s[1..][j - 1];
    }
  }

  /** `Array.prototype.filter` keeping the elements whose key is not `id`. */
  function FilterOut<T>(s: seq<T>, key: T -> string, id: string): (r: seq<T>)
    ensures |r| <= |s|
  {
    if s == [] then []
    else if key(s[0]) == id then FilterOut(s[1..], key, id)
    else [s[0]] + FilterOut(s[1..], key, id)
  }

  /** The filter keeps exactly the elements whose key is not `id`. */
  lemma {:induction false} FilterOutMembers<T>(s: seq<T>, key: T -> string, id: string, x: T)
    ensures x in FilterOut(s, key, id) <==> x in s && key(x) != id
  {
    if s != [] {
      FilterOutMembers(s[1..], key, id, x);
      assert x in s <==> x == s[0] || x in s[1..];
    }
  }

  /** Filtering keeps the order of what it keeps: it distributes over concatenation. */
  lemma {:induction false} FilterOutAppend<T>(a: seq<T>, b: seq<T>, key: T -> string, id: string)
    ensures FilterOut(a + b, key, id) == FilterOut(a, key, id) + FilterOut(b, key, id)
  {
    if a == [] {
      assert a + b == b;
    } else {
      assert (a + b)[0] == a[0];
      assert (a + b)[1..] == a[1..] + b;
      FilterOutAppend(a[1..], b, key, id);
    }
  }

  /** Removing the elements with one key does not change where the first element
      with any other key is found, up to the shift caused by the removal. */
  lemma {:induction false} FindIndexAfterFilterOut<T>(s: seq<T>, key: T -> string, id: string, other: string)
    requires other != id
    ensures var i := FindIndex(s, key, other);
            var j := FindIndex(FilterOut(s, key, id), key, other);
            (i == -1 <==> j == -1) && (i >= 0 ==> FilterOut(s, key, id)[j] == s[i])
  {
    if s != [] {
      FindIndexAfterFilterOut(s[1..], key, id, other);
    }
  }

  /** After appending `x`, the first element with `x`'s key is found: it is the
      earlier one if there is one, and `x` itself otherwise. */
  lemma {:induction false} FindIndexAfterAppend<T>(s: seq<T>, x: T, key: T -> string)
    ensures FindIndex(s + [x], key, key(x))
            == if FindIndex(s, key, key(x)) == -1 then |s| else FindIndex(s, key, key(x))
  {
    if s != [] {
      assert (s + [x])[0] == s[0];
      assert (s + [x])[1..] == s[1..] + [x];
      FindIndexAfterAppend(s[1..], x, key);
    }
  }

  /** Replacing the element at the first index with key `id` by a value with the
      same key leaves that index the first one with key `id`. */
  lemma {:induction false} FindIndexAfterReplace<T>(s: seq<T>, key: T -> string, id: string, x: T)
    requires key(x) == id
    requires 0 <= FindIndex(s, key, id)
    ensures FindIndex(s[FindIndex(s, key, id) := x], key, id) == FindIndex(s, key, id)
  {
    var i := FindIndex(s, key, id);
    if i > 0 {
      assert s[i := x][1..] == s[1..][i - 1 := x];
      FindIndexAfterReplace(s[1..], key, id, x);
    }
  }

  /** The search looks at keys only: sequences with the same keys at every index
      give the same answer. */
  lemma FindIndexSameKeys<T>(s: seq<T>, t: seq<T>, key: T -> string, id: string)
    requires |s| == |t|
    requires forall i :: 0 <= i < |s| ==> key(s[i]) == key(t[i])
    ensures FindIndex(s, key, id) == FindIndex(t, key, id)
  {
  }
}
