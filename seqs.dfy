/** Sequence helpers shared by the queries and the client views. */
module Seqs {

  function Min(a: nat, b: nat): nat {
    if a <= b then a else b
  }

  /** The elements of `s` last-to-first (`slice().reverse()`). */
  function Reverse<T>(s: seq<T>): (r: seq<T>)
    ensures |r| == |s|
    ensures forall i :: 0 <= i < |s| ==> r[i] == s[|s| - 1 - i]
  {
    if |s| == 0 then [] else [s[|s| - 1]] + Reverse(s[..|s| - 1])
  }

  /** Keys never decrease from left to right. */
  ghost predicate Ascending<T>(s: seq<T>, key: T -> int) {
    forall i, j :: 0 <= i < j < |s| ==> key(s[i]) <= key(s[j])
  }

  /** Keys never increase from left to right. */
  ghost predicate Descending<T>(s: seq<T>, key: T -> int) {
    forall i, j :: 0 <= i < j < |s| ==> key(s[i]) >= key(s[j])
  }

  lemma ReverseOfAscending<T>(s: seq<T>, key: T -> int)
    requires Ascending(s, key)
    ensures Descending(Reverse(s), key)
  {
  }

  /**
   * `ORDER BY created_at DESC LIMIT n` over a table whose rows are kept in
   * insertion order: the last `n` rows, newest first. Rows stamped in the
   * same tick come out newest-inserted first, one of the orders SQL allows.
   */
  function Newest<T>(s: seq<T>, n: nat): (r: seq<T>)
    ensures |r| == Min(n, |s|)
    ensures forall k :: 0 <= k < |r| ==> r[k] == s[|s| - 1 - k]
  {
    Reverse(s)[..Min(n, |s|)]
  }

  /** On a chronological table the selection is newest first. */
  lemma NewestIsDescending<T>(s: seq<T>, n: nat, key: T -> int)
    requires Ascending(s, key)
    ensures Descending(Newest(s, n), key)
  {
    ReverseOfAscending(s, key);
  }

  /** No row left out of the selection is newer than a row in it. */
  lemma NewestKeepsNewest<T>(s: seq<T>, n: nat, key: T -> int)
    requires Ascending(s, key)
    ensures forall x :: x in s && x !in Newest(s, n) ==>
              forall k :: 0 <= k < |Newest(s, n)| ==> key(x) <= key(Newest(s, n)[k])
  {
    var r := Newest(s, n);
    forall x | x in s && x !in r
      ensures forall k :: 0 <= k < |r| ==> key(x) <= key(r[k])
    {
      var a :| 0 <= a < |s| && s[a] == x;
      if a >= |s| - |r| {
        SuffixIsSelected(s, n, a);
        assert false;
      }
      forall k | 0 <= k < |r| ensures key(x) <= key(r[k]) {
        assert r[k] == s[|s| - 1 - k];
      }
    }
  }

  lemma SuffixIsSelected<T>(s: seq<T>, n: nat, a: nat)
    requires |s| - Min(n, |s|) <= a < |s|
    ensures s[a] in Newest(s, n)
  {
    assert Newest(s, n)[|s| - 1 - a] == s[a];
  }

  /** When the table has at most `n` rows, every row is selected. */
  lemma NewestIsComplete<T>(s: seq<T>, n: nat)
    requires |s| <= n
    ensures forall x :: x in s ==> x in Newest(s, n)
  {
    var r := Newest(s, n);
    forall x | x in s ensures x in r {
      var a :| 0 <= a < |s| && s[a] == x;
      assert r[|s| - 1 - a] == x;
    }
  }

  /** A row appended last is the first one selected. */
  lemma NewestAfterAppend<T>(s: seq<T>, x: T, n: nat, key: T -> int)
    requires n >= 1
    requires forall y :: y in s ==> key(y) < key(x)
    ensures Newest(s + [x], n)[0] == x
    ensures forall k :: 1 <= k < |Newest(s + [x], n)| ==> key(Newest(s + [x], n)[k]) < key(x)
  {
    var r := Newest(s + [x], n);
    forall k | 1 <= k < |r| ensures key(r[k]) < key(x) {
      assert r[k] == s[|s| - k];
    }
  }
}
