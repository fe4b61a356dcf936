/** The text formats the backup pipeline validates, and the order it sorts identities in. */
module Texts {
  import opened Common

  type Text = string

  predicate IsDigit(c: char) { '0' <= c <= '9' }
  predicate IsHex(c: char) { IsDigit(c) || 'a' <= c <= 'f' || 'A' <= c <= 'F' }
  predicate IsAlnum(c: char) { IsDigit(c) || 'a' <= c <= 'z' || 'A' <= c <= 'Z' }

  function LowerChar(c: char): char {
    if 'A' <= c <= 'Z' then ((c as int) + 32) as char else c
  }

  /** String.prototype.toLowerCase on the ASCII texts the patterns admit. */
  function Lower(s: Text): (r: Text)
    ensures |r| == |s|
    ensures forall i | 0 <= i < |s| :: r[i] == LowerChar(s[i])
    ensures (forall i | 0 <= i < |s| :: LowerChar(s[i]) == s[i]) ==> r == s
  {
    seq(|s|, i requires 0 <= i < |s| => LowerChar(s[i]))
  }

  predicate UuidChar(i: nat, c: char) {
    if i == 8 || i == 13 || i == 18 || i == 23 then c == '-'
    else if i == 14 then '1' <= c <= '5'
    else if i == 19 then c == '8' || c == '9' || c == 'a' || c == 'b' || c == 'A' || c == 'B'
    else IsHex(c)
  }

  predicate IsUuid(s: Text) { |s| == 36 && forall i | 0 <= i < 36 :: UuidChar(i, s[i]) }

  predicate IsCommit(s: Text) { |s| == 40 && forall i | 0 <= i < 40 :: IsHex(s[i]) }

  /** `^[A-Za-z0-9][A-Za-z0-9_.:-]{0,159}$` */
  predicate IsResourceId(s: Text) {
    1 <= |s| <= 160 && IsAlnum(s[0]) && forall i | 0 <= i < |s| :: IsAlnum(s[i]) || s[i] in "_.:-"
  }

  /** `^[A-Za-z0-9_]{1,64}$` */
  predicate IsDatabaseName(s: Text) { 1 <= |s| <= 64 && forall i | 0 <= i < |s| :: IsAlnum(s[i]) || s[i] == '_' }

  predicate IsServiceChar(c: char) { IsDigit(c) || 'a' <= c <= 'z' }

  /** `^[a-z0-9][a-z0-9_.-]{0,62}$` */
  predicate IsServiceName(s: Text) {
    1 <= |s| <= 63 && IsServiceChar(s[0]) && forall i | 0 <= i < |s| :: IsServiceChar(s[i]) || s[i] in "_.-"
  }

  predicate IsPrintable(s: Text) { forall i | 0 <= i < |s| :: s[i] >= ' ' && s[i] != 127 as char }

  /** A mail identity: bounded, printable and without surrounding blanks. */
  predicate IsIdentityText(s: Text) { 1 <= |s| <= 320 && IsPrintable(s) && s[0] != ' ' && s[|s| - 1] != ' ' }

  predicate IsSafe(n: int) { -0x20_0000_0000_0000 < n < 0x20_0000_0000_0000 }

  lemma LowerIdempotent(s: Text)
    ensures Lower(Lower(s)) == Lower(s)
    ensures IsUuid(s) ==> IsUuid(Lower(s))
    ensures IsCommit(s) ==> IsCommit(Lower(s))
  {
  }

  // ---- the order of identities ----------------------------------------------

  /** Code-unit order; the identities' locale order is taken to agree with it. */
  predicate Before(a: Text, b: Text) {
    b != [] && (a == [] || a[0] < b[0] || (a[0] == b[0] && Before(a[1..], b[1..])))
  }

  lemma {:induction false} BeforeTotal(a: Text, b: Text)
    ensures a == b || Before(a, b) || Before(b, a)
    ensures !(Before(a, b) && Before(b, a)) && !Before(a, a)
  {
    if a != [] { BeforeTotal(a[1..], a[1..]); }
    if a != [] && b != [] && a[0] == b[0] {
      BeforeTotal(a[1..], b[1..]);
      if a[1..] == b[1..] { assert a == [a[0]] + a[1..] && b == [b[0]] + b[1..]; }
    }
  }

  lemma {:induction false} BeforeTransitive(a: Text, b: Text, c: Text)
    requires Before(a, b) && Before(b, c)
    ensures Before(a, c)
  {
    if a != [] && a[0] == b[0] && b[0] == c[0] { BeforeTransitive(a[1..], b[1..], c[1..]); }
  }

  ghost predicate Increasing(s: seq<Text>) { forall i, j | 0 <= i < j < |s| :: Before(s[i], s[j]) }

  predicate NoDuplicates(s: seq<Text>) { forall i, j | 0 <= i < j < |s| :: s[i] != s[j] }

  function Insert(x: Text, s: seq<Text>): seq<Text> {
    if s == [] || Before(x, s[0]) then [x] + s else [s[0]] + Insert(x, s[1..])
  }

  function Sort(s: seq<Text>): seq<Text> {
    if s == [] then [] else Insert(s[0], Sort(s[1..]))
  }

  lemma {:induction false} InsertElements(x: Text, s: seq<Text>)
    ensures multiset(Insert(x, s)) == multiset{x} + multiset(s)
  {
    if s != [] && !Before(x, s[0]) {
      InsertElements(x, s[1..]);
      assert s == [s[0]] + s[1..];
    }
  }

  lemma {:induction false} InsertIncreasing(x: Text, s: seq<Text>)
    requires Increasing(s) && x !in s
    ensures Increasing(Insert(x, s))
  {
    if s == [] {
    } else if Before(x, s[0]) {
      forall j | 0 <= j < |s| ensures Before(x, s[j]) {
        if j > 0 { BeforeTransitive(x, s[0], s[j]); }
      }
    } else {
      BeforeTotal(x, s[0]);
      assert s[0] in s;
      assert Before(s[0], x);
      InsertIncreasing(x, s[1..]);
      InsertElements(x, s[1..]);
      var rest := Insert(x, s[1..]);
      forall j | 0 <= j < |rest| ensures Before(s[0], rest[j]) {
        assert rest[j] in multiset(rest);
        if rest[j] != x {
          assert rest[j] in s[1..];
        }
      }
    }
  }

  /** Sorting distinct identities: the same ones, in strictly increasing order. */
  lemma {:induction false} SortSorts(s: seq<Text>)
    ensures multiset(Sort(s)) == multiset(s) && |Sort(s)| == |s|
    ensures NoDuplicates(s) ==> Increasing(Sort(s))
  {
    if s != [] {
      SortSorts(s[1..]);
      InsertElements(s[0], Sort(s[1..]));
      assert s == [s[0]] + s[1..];
      assert |multiset(Sort(s))| == |Sort(s)|;
      if NoDuplicates(s) {
        assert s[0] !in s[1..];
        assert s[0] !in multiset(s[1..]);
        InsertIncreasing(s[0], Sort(s[1..]));
      }
    }
  }

  /** An already sorted selection is left as it is. */
  lemma {:induction false} SortKeepsSorted(s: seq<Text>)
    requires Increasing(s)
    ensures Sort(s) == s
  {
    if s != [] {
      SortKeepsSorted(s[1..]);
      assert s == [s[0]] + s[1..];
      if |s| > 1 { assert Before(s[0], s[1]); }
    }
  }

  lemma IncreasingDistinct(s: seq<Text>)
    requires Increasing(s)
    ensures NoDuplicates(s)
  {
    forall i, j | 0 <= i < j < |s| ensures s[i] != s[j] { BeforeTotal(s[i], s[j]); }
  }
}
