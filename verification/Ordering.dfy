/** Sorting records by a text key, as the inventories and the references of the dependency graph are sorted. */
module Ordering {
  import opened Texts

  function InsertBy<T>(key: T -> Text, x: T, s: seq<T>): seq<T> {
    if s == [] || Before(key(x), key(s[0])) then [x] + s else [s[0]] + InsertBy(key, x, s[1..])
  }

  function SortBy<T>(key: T -> Text, s: seq<T>): seq<T> {
    if s == [] then [] else InsertBy(key, s[0], SortBy(key, s[1..]))
  }

  predicate KeysDistinct<T>(key: T -> Text, s: seq<T>) { forall i, j | 0 <= i < j < |s| :: key(s[i]) != key(s[j]) }

  predicate KeysIncrease<T>(key: T -> Text, s: seq<T>) {
    forall i, j | 0 <= i < j < |s| :: Before(key(s[i]), key(s[j]))
  }

  lemma {:induction false} InsertByElements<T>(key: T -> Text, x: T, s: seq<T>)
    ensures multiset(InsertBy(key, x, s)) == multiset{x} + multiset(s)
  {
    if s != [] && !Before(key(x), key(s[0])) {
      InsertByElements(key, x, s[1..]);
      assert s == [s[0]] + s[1..];
    }
  }

  lemma {:induction false} InsertByIncreases<T>(key: T -> Text, x: T, s: seq<T>)
    requires KeysIncrease(key, s) && forall y | y in s :: key(y) != key(x)
    ensures KeysIncrease(key, InsertBy(key, x, s))
  {
    if s == [] {
    } else if Before(key(x), key(s[0])) {
      forall j | 0 <= j < |s| ensures Before(key(x), key(s[j])) {
        if j > 0 { BeforeTransitive(key(x), key(s[0]), key(s[j])); }
      }
    } else {
      BeforeTotal(key(x), key(s[0]));
      assert s[0] in s;
      InsertByIncreases(key, x, s[1..]);
      InsertByElements(key, x, s[1..]);
      var rest := InsertBy(key, x, s[1..]);
      forall j | 0 <= j < |rest| ensures Before(key(s[0]), key(rest[j])) {
        var y := rest[j];
        assert y in multiset(rest);
        if y != x {
          assert y in multiset(s[1..]);
          assert y in s[1..];
          var k :| 0 <= k < |s[1..]| && s[1..][k] == y;
          assert s[k + 1] == y;
        }
      }
    }
  }

  /** Sorting keeps the elements, and puts distinct keys into strictly increasing order. */
  lemma {:induction false} SortBySorts<T>(key: T -> Text, s: seq<T>)
    ensures multiset(SortBy(key, s)) == multiset(s) && |SortBy(key, s)| == |s|
    ensures KeysDistinct(key, s) ==> KeysIncrease(key, SortBy(key, s))
  {
    if s != [] {
      SortBySorts(key, s[1..]);
      InsertByElements(key, s[0], SortBy(key, s[1..]));
      assert s == [s[0]] + s[1..];
      assert |multiset(SortBy(key, s))| == |SortBy(key, s)|;
      if KeysDistinct(key, s) {
        forall y | y in SortBy(key, s[1..]) ensures key(y) != key(s[0]) {
          assert y in multiset(SortBy(key, s[1..]));
          assert y in s[1..];
          var k :| 0 <= k < |s[1..]| && s[1..][k] == y;
          assert s[k + 1] == y;
        }
        InsertByIncreases(key, s[0], SortBy(key, s[1..]));
      }
    }
  }

  lemma {:induction false} SortByKeepsSorted<T>(key: T -> Text, s: seq<T>)
    requires KeysIncrease(key, s)
    ensures SortBy(key, s) == s
  {
    if s != [] {
      SortByKeepsSorted(key, s[1..]);
      assert s == [s[0]] + s[1..];
      if |s| > 1 { assert Before(key(s[0]), key(s[1])); }
    }
  }

  lemma IncreasingKeysDistinct<T>(key: T -> Text, s: seq<T>)
    requires KeysIncrease(key, s)
    ensures KeysDistinct(key, s)
  {
    forall i, j | 0 <= i < j < |s| ensures key(s[i]) != key(s[j]) { BeforeTotal(key(s[i]), key(s[j])); }
  }

  /** `[...new Set(values)]`: first occurrences, in order. */
  function Distinct(s: seq<Text>): (r: seq<Text>)
    ensures forall x :: x in r <==> x in s
    ensures NoDuplicates(r)
  {
    if s == [] then []
    else
      var init := Distinct(s[..|s| - 1]);
      assert s == s[..|s| - 1] + [s[|s| - 1]];
      if s[|s| - 1] in init then init else init + [s[|s| - 1]]
  }
}
