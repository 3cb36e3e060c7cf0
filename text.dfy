/** String helpers with Python's meaning: code-point ordering (as used by
    `sorted` and `json.dumps(sort_keys=True)`), `str.find` / `str.rfind`,
    slicing, `str.replace` of one character, `str(n)` for naturals,
    `os.path.join` (POSIX rules) and `str.endswith`. */
module Text {

  // ---------------------------------------------------------------------------
  // Code-point lexicographic order on strings
  // ---------------------------------------------------------------------------

  /** `a < b` on Python strings: lexicographic by code point, a proper prefix first. */
  predicate Less(a: string, b: string)
    decreases |a|
  {
    if |a| == 0 then |b| > 0
    else if |b| == 0 then false
    else a[0] < b[0] || (a[0] == b[0] && Less(a[1..], b[1..]))
  }

  lemma {:induction false} LessIrreflexive(a: string)
    ensures !Less(a, a)
    decreases |a|
  {
    if |a| > 0 { LessIrreflexive(a[1..]); }
  }

  lemma {:induction false} LessAsymmetric(a: string, b: string)
    ensures !(Less(a, b) && Less(b, a))
    decreases |a|
  {
    if |a| > 0 && |b| > 0 && a[0] == b[0] { LessAsymmetric(a[1..], b[1..]); }
  }

  lemma LessAsymmetricAll()
    ensures forall a, b :: Less(a, b) ==> !Less(b, a)
  {
    forall a, b ensures Less(a, b) ==> !Less(b, a) { LessAsymmetric(a, b); }
  }

  lemma {:induction false} LessTransitive(a: string, b: string, c: string)
    requires Less(a, b) && Less(b, c)
    ensures Less(a, c)
    decreases |a|
  {
    if |a| > 0 && a[0] == b[0] && b[0] == c[0] {
      LessTransitive(a[1..], b[1..], c[1..]);
    }
  }

  lemma {:induction false} LessTotal(a: string, b: string)
    ensures a == b || Less(a, b) || Less(b, a)
    decreases |a|
  {
    if |a| > 0 && |b| > 0 && a[0] == b[0] {
      LessTotal(a[1..], b[1..]);
      if a[1..] == b[1..] {
        assert a == [a[0]] + a[1..] && b == [b[0]] + b[1..];
      }
    }
  }

  predicate StrictlySorted(s: seq<string>)
  {
    forall i, j :: 0 <= i < j < |s| ==> Less(s[i], s[j])
  }

  /** `m` is the smallest element of `s`. */
  predicate IsLeast(m: string, s: set<string>)
  {
    m in s && forall x :: x in s && x != m ==> Less(m, x)
  }

  lemma {:induction false} LeastExists(s: set<string>)
    requires s != {}
    ensures exists m :: IsLeast(m, s)
    decreases |s|
  {
    var y :| y in s;
    if s == {y} {
      assert IsLeast(y, s);
    } else {
      LeastExists(s - {y});
      var m :| IsLeast(m, s - {y});
      LessTotal(m, y);
      if Less(y, m) {
        forall x | x in s && x != y ensures Less(y, x) {
          if x != m { LessTransitive(y, m, x); }
        }
        assert IsLeast(y, s);
      } else {
        assert IsLeast(m, s);
      }
    }
  }

  /** The smallest element of a non-empty set of strings. */
  function Least(s: set<string>): (m: string)
    requires s != {}
    ensures IsLeast(m, s)
  {
    LeastExists(s);
    LessAsymmetricAll();
    var m :| IsLeast(m, s);
    m
  }

  /** `sorted(s)` for a set of strings: every element once (and, by
      `SortedSetSorted`, in increasing order). */
  function SortedSet(s: set<string>): (r: seq<string>)
    ensures |r| == |s|
    ensures forall x :: x in r <==> x in s
    decreases |s|
  {
    if s == {} then []
    else
      var m := Least(s);
      var rest := SortedSet(s - {m});
      assert forall i :: 0 <= i < |rest| ==> rest[i] in s - {m};
      [m] + rest
  }

  lemma {:induction false} SortedSetSorted(s: set<string>)
    ensures StrictlySorted(SortedSet(s))
    decreases |s|
  {
    if s != {} {
      var m := Least(s);
      var rest := SortedSet(s - {m});
      SortedSetSorted(s - {m});
      var r := [m] + rest;
      forall i, j | 0 <= i < j < |r| ensures Less(r[i], r[j]) {
        if i == 0 {
          assert r[j] in s - {m};
        } else {
          assert r[i] == rest[i - 1] && r[j] == rest[j - 1];
        }
      }
    }
  }

  /** Two strictly sorted sequences with the same elements are equal. */
  lemma {:induction false} SortedUnique(a: seq<string>, b: seq<string>)
    requires StrictlySorted(a) && StrictlySorted(b)
    requires forall x :: x in a <==> x in b
    ensures a == b
    decreases |a|
  {
    assert |b| == 0 || b[0] in a;
    if a == [] {
    } else {
      assert a[0] in a;
      assert b != [];
      if a[0] != b[0] {
        assert b[0] in a;
        var i :| 0 <= i < |a| && a[i] == b[0];
        var j :| 0 <= j < |b| && b[j] == a[0];
        assert i > 0 && j > 0;
        LessAsymmetric(a[0], b[0]);
        assert false;
      }
      forall x ensures x in a[1..] <==> x in b[1..] {
        if x in a[1..] {
          var i :| 1 <= i < |a| && a[i] == x;
          LessIrreflexive(a[0]);
          assert x != a[0];
          assert x in b;
        }
        if x in b[1..] {
          var j :| 1 <= j < |b| && b[j] == x;
          LessIrreflexive(b[0]);
          assert x != b[0];
          assert x in a;
        }
      }
      SortedUnique(a[1..], b[1..]);
      assert a == [a[0]] + a[1..] && b == [b[0]] + b[1..];
    }
  }

  lemma InsertKeepsSorted(r: seq<string>, k: string, i: nat)
    requires StrictlySorted(r) && i <= |r|
    requires forall j :: 0 <= j < i ==> Less(r[j], k)
    requires forall j :: i <= j < |r| ==> Less(k, r[j])
    ensures StrictlySorted(r[..i] + [k] + r[i..])
  {
    var t := r[..i] + [k] + r[i..];
    forall a, b | 0 <= a < b < |t| ensures Less(t[a], t[b]) {
      if a < i && b > i { LessTransitive(t[a], k, t[b]); }
    }
  }

  lemma InsertElements(r: seq<string>, k: string, i: nat)
    requires i <= |r|
    ensures forall x :: x in r[..i] + [k] + r[i..] <==> x == k || x in r
  {
    assert r == r[..i] + r[i..];
  }

  lemma AboveSplit(r: seq<string>, k: string, i: nat)
    requires StrictlySorted(r) && k !in r && i <= |r|
    requires i < |r| ==> !Less(r[i], k)
    ensures forall j :: i <= j < |r| ==> Less(k, r[j])
  {
    forall j | i <= j < |r| ensures Less(k, r[j]) {
      LessTotal(r[i], k);
      if j > i { LessTransitive(k, r[i], r[j]); }
    }
  }

  /** `t` is `r` with `k` inserted at position `i`. */
  predicate InsertedAt(t: seq<string>, r: seq<string>, i: nat, k: string)
  {
    && |t| == |r| + 1 && i <= |r| && t[i] == k
    && (forall j :: 0 <= j < i ==> t[j] == r[j])
    && (forall j :: i < j < |t| ==> t[j] == r[j - 1])
  }

  lemma InsertSorted(r: seq<string>, k: string) returns (i: nat)
    requires StrictlySorted(r) && k !in r
    ensures i <= |r| && StrictlySorted(r[..i] + [k] + r[i..])
    ensures forall x :: x in r[..i] + [k] + r[i..] <==> x == k || x in r
  {
    i := SplitPoint(r, k);
    AboveSplit(r, k, i);
    InsertKeepsSorted(r, k, i);
    InsertElements(r, k, i);
  }

  lemma InsertedAtConcat(r: seq<string>, k: string, i: nat)
    requires i <= |r|
    ensures InsertedAt(r[..i] + [k] + r[i..], r, i, k)
  {
  }

  /** Removing one element from a set removes exactly that element from its
      sorted listing: the listing of `s` is the listing of `s - {k}` with `k`
      put back at its place. */
  lemma SortedSetRemove(s: set<string>, k: string) returns (i: nat)
    requires k in s
    ensures InsertedAt(SortedSet(s), SortedSet(s - {k}), i, k)
  {
    var r := SortedSet(s - {k});
    SortedSetSorted(s - {k});
    i := InsertSorted(r, k);
    var t := r[..i] + [k] + r[i..];
    SortedSetSorted(s);
    SortedUnique(t, SortedSet(s));
    InsertedAtConcat(r, k, i);
  }

  function SplitPoint(r: seq<string>, k: string): (i: nat)
    ensures i <= |r|
    ensures forall j :: 0 <= j < i ==> Less(r[j], k)
    ensures i < |r| ==> !Less(r[i], k)
  {
    if |r| == 0 || !Less(r[0], k) then 0 else 1 + SplitPoint(r[1..], k)
  }

  // ---------------------------------------------------------------------------
  // find / rfind / slicing / replace
  // ---------------------------------------------------------------------------

  /** `s.find(c)`: the first index of `c`, or -1. */
  function Find(s: string, c: char): (r: int)
    ensures r == -1 <==> c !in s
    ensures r != -1 ==> 0 <= r < |s| && s[r] == c && c !in s[..r]
  {
    if |s| == 0 then -1
    else if s[0] == c then 0
    else
      var k := Find(s[1..], c);
      assert s[1..][..if k == -1 then 0 else k] == s[1..1 + if k == -1 then 0 else k];
      if k == -1 then -1 else k + 1
  }

  /** `s.rfind(c)`: the last index of `c`, or -1. */
  function RFind(s: string, c: char): (r: int)
    ensures r == -1 <==> c !in s
    ensures r != -1 ==> 0 <= r < |s| && s[r] == c && c !in s[r + 1..]
  {
    if |s| == 0 then -1
    else if s[|s| - 1] == c then |s| - 1
    else
      var k := RFind(s[..|s| - 1], c);
      assert k != -1 ==> s[..|s| - 1][k + 1..] + [s[|s| - 1]] == s[k + 1..];
      assert s == s[..|s| - 1] + [s[|s| - 1]];
      k
  }

  /** `s[i:j]` for `0 <= i` and `j <= len(s)`: empty when `j < i`. */
  function Slice(s: string, i: nat, j: nat): (r: string)
    requires i <= |s| && j <= |s|
    ensures |r| == if i <= j then j - i else 0
    ensures forall k :: 0 <= k < |r| ==> r[k] == s[i + k]
  {
    if i <= j then s[i..j] else ""
  }

  /** `s.replace(a, b)` for single characters `a` and `b`. */
  function ReplaceChar(s: string, a: char, b: char): (r: string)
    ensures |r| == |s|
    ensures forall i :: 0 <= i < |s| && s[i] != a ==> r[i] == s[i]
    ensures forall i :: 0 <= i < |s| && s[i] == a ==> r[i] == b
  {
    if |s| == 0 then ""
    else [if s[0] == a then b else s[0]] + ReplaceChar(s[1..], a, b)
  }

  /** `s.endswith(suffix)`. */
  predicate EndsWith(s: string, suffix: string)
  {
    |suffix| <= |s| && s[|s| - |suffix|..] == suffix
  }

  /** `s[:n]`. */
  function Take(s: string, n: nat): (r: string)
    ensures |r| == if |s| <= n then |s| else n
    ensures r <= s
  {
    if |s| <= n then s else s[..n]
  }

  // ---------------------------------------------------------------------------
  // str(n) and os.path.join
  // ---------------------------------------------------------------------------

  function Digit(d: nat): (c: char)
    requires d < 10
    ensures '0' <= c <= '9'
  {
    (48 + d) as char
  }

  /** `str(n)` for a natural number: its decimal digits, no leading zero. */
  function NatToString(n: nat): (r: string)
    ensures |r| >= 1
    ensures (|r| == 1) == (n < 10)
    ensures forall i :: 0 <= i < |r| ==> '0' <= r[i] <= '9'
    decreases n
  {
    if n < 10 then [Digit(n)] else NatToString(n / 10) + [Digit(n % 10)]
  }

  /** Different numbers have different decimal renderings. */
  lemma {:induction false} NatToStringInjective(m: nat, n: nat)
    requires NatToString(m) == NatToString(n)
    ensures m == n
    decreases m
  {
    var s := NatToString(m);
    if m >= 10 {
      assert n >= 10;
      assert s[|s| - 1] == Digit(m % 10) == Digit(n % 10);
      assert NatToString(m / 10) == s[..|s| - 1] == NatToString(n / 10);
      NatToStringInjective(m / 10, n / 10);
    }
  }

  /** `os.path.join(a, b)` with POSIX rules: an absolute `b` replaces `a`,
      otherwise one separator is inserted unless `a` is empty or ends with one. */
  function PathJoin(a: string, b: string): (r: string)
    ensures |b| > 0 && b[0] == '/' ==> r == b
    ensures (|b| == 0 || b[0] != '/') && |a| > 0 && a[|a| - 1] != '/' ==> r == a + "/" + b
  {
    if |b| > 0 && b[0] == '/' then b
    else if a == "" || a[|a| - 1] == '/' then a + b
    else a + "/" + b
  }
}
