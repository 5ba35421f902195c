/** The byte order of sys_ids, and why sorting on distinct sys_ids has only one answer. */
module Ordering {

  /** The order Rust's `str::cmp` gives: the first differing byte decides, and a proper prefix is smaller. */
  predicate Less(a: string, b: string) {
    b != [] && (a == [] || a[0] < b[0] || (a[0] == b[0] && Less(a[1..], b[1..])))
  }

  /** Position `i` decides: everything before agrees, and there `a` ends or has the smaller character. */
  ghost predicate DecidesAt(a: string, b: string, i: nat) {
    i <= |a| && i < |b| && a[..i] == b[..i] && (i == |a| || a[i] < b[i])
  }

  lemma {:induction false} LessIsLexicographic(a: string, b: string)
    ensures Less(a, b) <==> exists i: nat :: DecidesAt(a, b, i)
  {
    if b == [] || a == [] || a[0] != b[0] {
      assert b != [] && (a == [] || a[0] < b[0]) <==> DecidesAt(a, b, 0);
      forall i: nat | i > 0 && i <= |a| && i <= |b| ensures a[..i] != b[..i] {
        assert a[..i][0] == a[0] && b[..i][0] == b[0];
      }
    } else {
      LessIsLexicographic(a[1..], b[1..]);
      if i: nat :| DecidesAt(a[1..], b[1..], i) {
        assert a[..i + 1] == [a[0]] + a[1..][..i] && b[..i + 1] == [b[0]] + b[1..][..i];
        assert DecidesAt(a, b, i + 1);
      }
      if i: nat :| DecidesAt(a, b, i) {
        assert i > 0;
        assert a[1..][..i - 1] == a[..i][1..] && b[1..][..i - 1] == b[..i][1..];
        assert DecidesAt(a[1..], b[1..], i - 1);
      }
    }
  }

  lemma {:induction false} LessIsTrichotomous(a: string, b: string)
    ensures (if Less(a, b) then 1 else 0) + (if Less(b, a) then 1 else 0) + (if a == b then 1 else 0) == 1
  {
    if a == [] || b == [] {
    } else {
      LessIsTrichotomous(a[1..], b[1..]);
      assert a == [a[0]] + a[1..] && b == [b[0]] + b[1..];
    }
  }

  lemma {:induction false} LessIsTransitive(a: string, b: string, c: string)
    requires Less(a, b) && Less(b, c)
    ensures Less(a, c)
  {
    if a == [] {
    } else if a[0] == b[0] == c[0] {
      LessIsTransitive(a[1..], b[1..], c[1..]);
    }
  }

  /** Adjacent elements have strictly rising keys. */
  ghost predicate Ascending<T>(s: seq<T>, key: T -> string) {
    forall i, j :: 0 <= i < j < |s| ==> Less(key(s[i]), key(s[j]))
  }

  lemma AscendingIsDistinct<T>(s: seq<T>, key: T -> string)
    requires Ascending(s, key)
    ensures forall i, j :: 0 <= i < j < |s| ==> key(s[i]) != key(s[j])
  {
    forall i, j | 0 <= i < j < |s| ensures key(s[i]) != key(s[j]) {
      LessIsTrichotomous(key(s[i]), key(s[j]));
    }
  }

  /** An element below every element of an ascending sequence can stand in front of it. */
  lemma PrependAscends<T>(x: T, s: seq<T>, key: T -> string)
    requires Ascending(s, key) && forall y :: y in s ==> Less(key(x), key(y))
    ensures Ascending([x] + s, key)
  {
  }

  lemma HeadIsLeast<T>(s: seq<T>, key: T -> string, x: T)
    requires Ascending(s, key) && x in s
    ensures x == s[0] || Less(key(s[0]), key(x))
  {
    var i :| 0 <= i < |s| && s[i] == x;
  }

  lemma SameHead<T>(a: seq<T>, b: seq<T>, key: T -> string)
    requires Ascending(a, key) && Ascending(b, key)
    requires multiset(a) == multiset(b) && a != []
    ensures b != [] && a[0] == b[0]
  {
    assert a[0] in multiset(a) && |multiset(a)| == |multiset(b)|;
    assert b[0] in multiset(b);
    HeadIsLeast(a, key, b[0]);
    HeadIsLeast(b, key, a[0]);
    LessIsTrichotomous(key(a[0]), key(b[0]));
  }

  /** Sorting on distinct keys has one answer: two strictly ascending arrangements of the same elements are equal. */
  lemma {:induction false} AscendingIsUnique<T>(a: seq<T>, b: seq<T>, key: T -> string)
    requires Ascending(a, key) && Ascending(b, key)
    requires multiset(a) == multiset(b)
    ensures a == b
  {
    if a == [] {
      assert |multiset(b)| == 0;
    } else {
      SameHead(a, b, key);
      assert a == [a[0]] + a[1..] && b == [b[0]] + b[1..];
      assert multiset(a[1..]) == multiset(a) - multiset{a[0]};
      assert multiset(b[1..]) == multiset(b) - multiset{b[0]};
      AscendingIsUnique(a[1..], b[1..], key);
    }
  }
}
