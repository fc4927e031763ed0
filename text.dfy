/**
 * String helpers shared by the widgets and the PHP side: the order used by
 * JavaScript's default `sort()` and by `localeCompare`, ASCII case folding for
 * the list widget's case-insensitive campaign match, sorting by a string key,
 * and the few PHP string primitives the settings code relies on.
 */
module Text {

  /** Lexicographic order on characters: `a` sorts before or together with `b`. */
  predicate Below(a: string, b: string)
  {
    |a| == 0 || (|b| > 0 && (a[0] < b[0] || (a[0] == b[0] && Below(a[1..], b[1..]))))
  }

  lemma {:induction false} BelowTotal(a: string, b: string)
    ensures Below(a, b) || Below(b, a)
  {
    if |a| > 0 && |b| > 0 && a[0] == b[0] {
      BelowTotal(a[1..], b[1..]);
    }
  }

  lemma {:induction false} BelowAntisymmetric(a: string, b: string)
    requires Below(a, b) && Below(b, a)
    ensures a == b
  {
    if |a| > 0 {
      BelowAntisymmetric(a[1..], b[1..]);
      assert a == [a[0]] + a[1..];
      assert b == [b[0]] + b[1..];
    }
  }

  lemma {:induction false} BelowTransitive(a: string, b: string, c: string)
    requires Below(a, b) && Below(b, c)
    ensures Below(a, c)
  {
    if |a| > 0 && a[0] == b[0] && b[0] == c[0] {
      BelowTransitive(a[1..], b[1..], c[1..]);
    }
  }

  /** Every element's key sorts before or together with every later element's key. */
  ghost predicate SortedByKey<T>(s: seq<T>, key: T -> string)
  {
    forall i, j :: 0 <= i < j < |s| ==> Below(key(s[i]), key(s[j]))
  }

  /** Inserts `x` before the first element whose key is not below `x`'s, so equal keys keep their order. */
  function InsertByKey<T>(x: T, s: seq<T>, key: T -> string): (r: seq<T>)
    requires SortedByKey(s, key)
    ensures SortedByKey(r, key)
    ensures multiset(r) == multiset(s) + multiset{x}
  {
    if s == [] then [x]
    else if Below(key(x), key(s[0])) then
      assert forall j :: 0 <= j < |s| ==> Below(key(x), key(s[j])) by {
        forall j | 0 <= j < |s| ensures Below(key(x), key(s[j])) {
          if j > 0 { BelowTransitive(key(x), key(s[0]), key(s[j])); }
        }
      }
      [x] + s
    else
      var rest := InsertByKey(x, s[1..], key);
      BelowTotal(key(x), key(s[0]));
      assert multiset(s) == multiset{s[0]} + multiset(s[1..]) by { assert s == [s[0]] + s[1..]; }
      assert forall j :: 0 <= j < |rest| ==> Below(key(s[0]), key(rest[j])) by {
        forall j | 0 <= j < |rest| ensures Below(key(s[0]), key(rest[j])) {
          assert rest[j] in multiset(rest);
          assert rest[j] == x || rest[j] in multiset(s[1..]);
          if rest[j] != x {
            var k :| 0 <= k < |s[1..]| && s[1..][k] == rest[j];
            assert s[k + 1] == rest[j];
          }
        }
      }
      [s[0]] + rest
  }

  /**
   * A stable insertion sort by key: the input reordered so that keys ascend,
   * with the elements that share a key left in their original order.
   */
  function SortByKey<T(!new)>(s: seq<T>, key: T -> string): (r: seq<T>)
    ensures SortedByKey(r, key)
    ensures multiset(r) == multiset(s)
    ensures forall k :: WithKey(r, key, k) == WithKey(s, key, k)
  {
    if s == [] then []
    else
      assert s == [s[0]] + s[1..];
      var sorted := SortByKey(s[1..], key);
      var r := InsertByKey(s[0], sorted, key);
      assert forall k :: WithKey(r, key, k) == WithKey(s, key, k) by {
        forall k ensures WithKey(r, key, k) == WithKey(s, key, k) {
          InsertByKeyKeepsKeyOrder(s[0], sorted, key, k);
        }
      }
      r
  }

  function HasKey<T>(key: T -> string, k: string): T -> bool
  {
    x => key(x) == k
  }

  /** The elements whose key is `k`, in their order. */
  function WithKey<T(!new)>(s: seq<T>, key: T -> string, k: string): seq<T>
  {
    Filter(s, HasKey(key, k))
  }

  lemma {:induction false} BelowReflexive(a: string)
    ensures Below(a, a)
  {
    if |a| > 0 {
      BelowReflexive(a[1..]);
    }
  }

  /** Inserting `x` puts it before every element of `s` with the same key, as the earlier of them. */
  lemma {:induction false} InsertByKeyKeepsKeyOrder<T(!new)>(x: T, s: seq<T>, key: T -> string, k: string)
    requires SortedByKey(s, key)
    ensures WithKey(InsertByKey(x, s, key), key, k) == (if key(x) == k then [x] else []) + WithKey(s, key, k)
  {
    if s == [] {
      assert [x][1..] == [];
    } else if Below(key(x), key(s[0])) {
      assert ([x] + s)[1..] == s;
    } else {
      var rest := InsertByKey(x, s[1..], key);
      var first := if key(s[0]) == k then [s[0]] else [];
      BelowReflexive(key(x));
      assert SortedByKey(s[1..], key);
      InsertByKeyKeepsKeyOrder(x, s[1..], key, k);
      assert ([s[0]] + rest)[1..] == rest;
      assert s == [s[0]] + s[1..];
      assert WithKey(s, key, k) == first + WithKey(s[1..], key, k);
    }
  }

  /** The elements of `s` in the opposite order, like JavaScript's `reverse()`. */
  function Reversed<T>(s: seq<T>): (r: seq<T>)
    ensures |r| == |s|
    ensures forall i :: 0 <= i < |s| ==> r[i] == s[|s| - 1 - i]
    ensures multiset(r) == multiset(s)
  {
    if s == [] then []
    else
      assert s == [s[0]] + s[1..];
      Reversed(s[1..]) + [s[0]]
  }

  /** Strictly ascending, hence free of duplicates. */
  ghost predicate StrictlySorted(s: seq<string>)
  {
    forall i, j :: 0 <= i < j < |s| ==> Below(s[i], s[j]) && s[i] != s[j]
  }

  /** Adds `x` to a strictly sorted list unless it is already there. */
  function InsertDistinct(x: string, s: seq<string>): (r: seq<string>)
    requires StrictlySorted(s)
    ensures StrictlySorted(r)
    ensures forall y :: y in r <==> y == x || y in s
  {
    if s == [] then [x]
    else if x == s[0] then s
    else if Below(x, s[0]) then
      assert forall j :: 0 <= j < |s| ==> Below(x, s[j]) && x != s[j] by {
        forall j | 0 <= j < |s| ensures Below(x, s[j]) && x != s[j] {
          if j > 0 {
            BelowTransitive(x, s[0], s[j]);
            if x == s[j] { BelowAntisymmetric(s[0], s[j]); }
          }
        }
      }
      [x] + s
    else
      var rest := InsertDistinct(x, s[1..]);
      BelowTotal(x, s[0]);
      assert forall j :: 0 <= j < |rest| ==> Below(s[0], rest[j]) && s[0] != rest[j] by {
        forall j | 0 <= j < |rest| ensures Below(s[0], rest[j]) && s[0] != rest[j] {
          assert rest[j] in rest;
          if rest[j] != x {
            var k :| 0 <= k < |s[1..]| && s[1..][k] == rest[j];
            assert s[k + 1] == rest[j];
          }
        }
      }
      [s[0]] + rest
  }

  /** The distinct elements of `s`, in ascending order. */
  function SortedDistinct(s: seq<string>): (r: seq<string>)
    ensures StrictlySorted(r)
    ensures forall y :: y in r <==> y in s
  {
    if s == [] then []
    else
      var rest := SortedDistinct(s[1..]);
      assert forall y :: y in s <==> y == s[0] || y in s[1..] by { assert s == [s[0]] + s[1..]; }
      InsertDistinct(s[0], rest)
  }

  /** ASCII upper case to lower case; every other character is left alone. */
  function LowerChar(c: char): (r: char)
    ensures 'A' <= c <= 'Z' ==> 'a' <= r <= 'z'
    ensures !('A' <= c <= 'Z') ==> r == c
  {
    if 'A' <= c <= 'Z' then (c as int + 32) as char else c
  }

  function Lower(s: string): (r: string)
    ensures |r| == |s|
    ensures forall i :: 0 <= i < |s| ==> r[i] == LowerChar(s[i])
  {
    if s == [] then [] else [LowerChar(s[0])] + Lower(s[1..])
  }

  /** The elements of `s` that `keep` admits, in their order, each as often as it occurs. */
  function Filter<T(!new)>(s: seq<T>, keep: T -> bool): (r: seq<T>)
    ensures |r| <= |s|
    ensures forall i :: 0 <= i < |r| ==> keep(r[i])
  {
    if s == [] then []
    else
      var rest := Filter(s[1..], keep);
      if keep(s[0]) then [s[0]] + rest else rest
  }

  /** The filter keeps each admitted element as often as it occurs, and drops every other one. */
  lemma {:induction false} FilterCounts<T(!new)>(s: seq<T>, keep: T -> bool)
    ensures forall x :: multiset(Filter(s, keep))[x] == if keep(x) then multiset(s)[x] else 0
  {
    if s != [] {
      FilterCounts(s[1..], keep);
      assert s == [s[0]] + s[1..];
    }
  }

  /** Filtering a concatenation filters each part, so the kept elements stay in their order. */
  lemma {:induction false} FilterAppend<T(!new)>(a: seq<T>, b: seq<T>, keep: T -> bool)
    ensures Filter(a + b, keep) == Filter(a, keep) + Filter(b, keep)
  {
    if a == [] {
      assert a + b == b;
    } else {
      var ab := a + b;
      assert ab[0] == a[0] && ab[1..] == a[1..] + b;
      FilterAppend(a[1..], b, keep);
      var first := if keep(a[0]) then [a[0]] else [];
      assert Filter(ab, keep) == first + (Filter(a[1..], keep) + Filter(b, keep));
      assert Filter(a, keep) == first + Filter(a[1..], keep);
    }
  }

  /** Filtering the reversed sequence gives the filtered sequence reversed. */
  lemma {:induction false} FilterReversed<T(!new)>(s: seq<T>, keep: T -> bool)
    ensures Filter(Reversed(s), keep) == Reversed(Filter(s, keep))
  {
    if s != [] {
      FilterReversed(s[1..], keep);
      FilterAppend(Reversed(s[1..]), [s[0]], keep);
      assert [s[0]][1..] == [];
      var rest := Filter(s[1..], keep);
      if keep(s[0]) {
        assert ([s[0]] + rest)[1..] == rest;
      }
    }
  }

  /** A filter that admits everything keeps the sequence as it is. */
  lemma {:induction false} FilterKeepsAll<T(!new)>(s: seq<T>, keep: T -> bool)
    requires forall x :: keep(x)
    ensures Filter(s, keep) == s
  {
    if s != [] {
      FilterKeepsAll(s[1..], keep);
      assert s == [s[0]] + s[1..];
    }
  }

  /** `pattern` occurs in `text` starting at position `i`, ignoring ASCII case. */
  predicate MatchesAt(pattern: string, text: string, i: int)
  {
    0 <= i && i + |pattern| <= |text| && Lower(text[i..i + |pattern|]) == Lower(pattern)
  }

  /** `pattern` occurs somewhere in `text`, ignoring ASCII case. */
  ghost predicate OccursIgnoringCase(pattern: string, text: string)
  {
    exists i :: MatchesAt(pattern, text, i)
  }

  /** A match at position `i > 0` of `text` is a match at `i - 1` of its tail. */
  lemma MatchesAtShift(pattern: string, text: string, i: int)
    requires 0 < i && 0 < |text|
    ensures MatchesAt(pattern, text, i) == MatchesAt(pattern, text[1..], i - 1)
  {
    if i + |pattern| <= |text| {
      var here, there := text[i..i + |pattern|], text[1..][i - 1..i - 1 + |pattern|];
      assert |here| == |there|;
      assert forall j :: 0 <= j < |here| ==> here[j] == there[j];
      assert here == there;
    }
  }

  /** Tries every start position in turn, like a regular expression made of plain characters. */
  function ContainsIgnoringCase(pattern: string, text: string): (r: bool)
    ensures r <==> OccursIgnoringCase(pattern, text)
    decreases |text|
  {
    if MatchesAt(pattern, text, 0) then
      true
    else if |text| == 0 then
      false
    else
      var r := ContainsIgnoringCase(pattern, text[1..]);
      if r then
        var i :| MatchesAt(pattern, text[1..], i);
        MatchesAtShift(pattern, text, i + 1);
        assert MatchesAt(pattern, text, i + 1);
        true
      else
        assert !OccursIgnoringCase(pattern, text) by {
          forall i ensures !MatchesAt(pattern, text, i) {
            if 0 < i {
              MatchesAtShift(pattern, text, i);
              assert !MatchesAt(pattern, text[1..], i - 1);
            }
          }
        }
        false
  }

  /** `n` copies of `c`, like PHP's `str_repeat`. */
  function Repeat(c: char, n: nat): (r: string)
    ensures |r| == n
    ensures forall i :: 0 <= i < n ==> r[i] == c
  {
    if n == 0 then [] else [c] + Repeat(c, n - 1)
  }

  /** The characters PHP's `trim` strips by default. */
  predicate IsTrimmed(c: char)
  {
    c == ' ' || c == '\t' || c == '\n' || c == '\r' || c == '\0' || c as int == 0x0B
  }

  function TrimStart(s: string): (r: string)
    ensures |r| <= |s| && r == s[|s| - |r|..]
    ensures r == [] || !IsTrimmed(r[0])
    ensures forall i :: 0 <= i < |s| - |r| ==> IsTrimmed(s[i])
  {
    if s != [] && IsTrimmed(s[0]) then TrimStart(s[1..]) else s
  }

  function TrimEnd(s: string): (r: string)
    ensures |r| <= |s| && r == s[..|r|]
    ensures r == [] || !IsTrimmed(r[|r| - 1])
    ensures forall i :: |r| <= i < |s| ==> IsTrimmed(s[i])
  {
    if s != [] && IsTrimmed(s[|s| - 1]) then TrimEnd(s[..|s| - 1]) else s
  }

  /** PHP's `trim`: strip the default whitespace set from both ends. */
  function Trim(s: string): string
  {
    TrimEnd(TrimStart(s))
  }

  lemma TrimBlank(s: string)
    ensures Trim(s) == [] <==> forall i :: 0 <= i < |s| ==> IsTrimmed(s[i])
  {
    var t := TrimStart(s);
    if t != [] {
      assert t[0] == s[|s| - |t|];
    }
  }

  /** PHP's `empty` on a string: true for "" and for "0". */
  predicate PhpEmpty(s: string)
  {
    s == "" || s == "0"
  }

  /** JavaScript's `s.slice(0, n)`: the first `n` characters, or all of a shorter string. */
  function SliceTo(s: string, n: nat): (r: string)
    ensures |r| == if |s| < n then |s| else n
    ensures r <= s
  {
    if |s| <= n then s else s[..n]
  }
}
