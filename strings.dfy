/** String operations of the Rust standard library that the modelled code relies on:
    `str::replace`, `str::split_once`, ASCII lower-casing, decimal rendering of integers,
    the byte-wise ordering of `String` and the iteration order of a `BTreeSet<String>`.
    Strings are sequences of Unicode scalar values; comparing them character by character
    gives the same order as comparing their UTF-8 bytes, which is what Rust does. */
module Strings {
  import opened Wrappers

  // ---------------------------------------------------------------------------------------
  // str::replace

  /** `s.replace(pat, rep)`: scan left to right and replace every non-overlapping
      occurrence of `pat` by `rep`. The modelled callers never pass an empty pattern. */
  function ReplaceAll(s: string, pat: string, rep: string): string
    requires |pat| > 0
    decreases |s|
  {
    if |s| < |pat| then s
    else if s[..|pat|] == pat then rep + ReplaceAll(s[|pat|..], pat, rep)
    else [s[0]] + ReplaceAll(s[1..], pat, rep)
  }

  predicate OccursAt(s: string, pat: string, i: nat) {
    i + |pat| <= |s| && s[i..i + |pat|] == pat
  }

  predicate Occurs(s: string, pat: string) {
    exists i: nat | i <= |s| :: OccursAt(s, pat, i)
  }

  /** Replacing a pattern that does not occur changes nothing. */
  lemma {:induction false} ReplaceAbsent(s: string, pat: string, rep: string)
    requires |pat| > 0
    requires !Occurs(s, pat)
    ensures ReplaceAll(s, pat, rep) == s
    decreases |s|
  {
    if |s| >= |pat| {
      assert !OccursAt(s, pat, 0);
      forall i: nat | i <= |s[1..]| ensures !OccursAt(s[1..], pat, i) {
        if OccursAt(s[1..], pat, i) {
          assert s[1..][i..i + |pat|] == s[i + 1..i + 1 + |pat|];
          assert OccursAt(s, pat, i + 1);
        }
      }
      ReplaceAbsent(s[1..], pat, rep);
      assert [s[0]] + s[1..] == s;
    }
  }

  /** A prefix that cannot start the pattern (its first character is not in it) is
      copied unchanged, and the scan resumes right after it. */
  lemma {:induction false} ReplaceSkipsFree(t: string, y: string, pat: string, rep: string)
    requires |pat| > 0 && pat[0] !in t
    ensures ReplaceAll(t + y, pat, rep) == t + ReplaceAll(y, pat, rep)
    decreases |t|
  {
    if t == [] {
      assert t + y == y;
    } else if |t + y| < |pat| {
      assert |y| < |pat|;
    } else {
      assert (t + y)[..|pat|][0] == t[0] != pat[0];
      assert (t + y)[1..] == t[1..] + y;
      ReplaceSkipsFree(t[1..], y, pat, rep);
      assert [t[0]] + t[1..] == t;
    }
  }

  /** An occurrence of the pattern at the front is replaced and the scan resumes after it. */
  lemma ReplaceAtMatch(y: string, pat: string, rep: string)
    requires |pat| > 0
    ensures ReplaceAll(pat + y, pat, rep) == rep + ReplaceAll(y, pat, rep)
  {
    assert (pat + y)[..|pat|] == pat;
    assert (pat + y)[|pat|..] == y;
  }

  // ---------------------------------------------------------------------------------------
  // Characters

  /** Removes every occurrence of one character; the reference meaning of
      `s.replace(c, "")`. */
  function RemoveChar(s: string, c: char): (r: string)
    ensures c !in r
    ensures forall x :: x in r <==> x in s && x != c
  {
    if s == [] then [] else (if s[0] == c then [] else [s[0]]) + RemoveChar(s[1..], c)
  }

  /** `s.replace(c, "")` for a one-character pattern removes exactly that character. */
  lemma {:induction false} ReplaceCharIsRemove(s: string, c: char)
    ensures ReplaceAll(s, [c], "") == RemoveChar(s, c)
  {
    if s != [] {
      ReplaceCharIsRemove(s[1..], c);
      if s[0] == c {
        assert s[..1] == [c];
        assert s[1..] == s[|[c]|..];
      } else {
        assert s[..1] != [c];
      }
    }
  }

  predicate IsAsciiUpper(c: char) { 'A' <= c <= 'Z' }

  /** ASCII case mapping of one character. */
  function LowerChar(c: char): char {
    if IsAsciiUpper(c) then (c as int + 32) as char else c
  }

  /** Lower-cases the ASCII letters of a string; every other character is kept. */
  function ToLower(s: string): (r: string)
    ensures |r| == |s|
    ensures forall i :: 0 <= i < |s| ==> r[i] == LowerChar(s[i])
    ensures forall i :: 0 <= i < |r| ==> !IsAsciiUpper(r[i])
  {
    if s == [] then [] else [LowerChar(s[0])] + ToLower(s[1..])
  }

  /** `s.split_once(c)`: the parts before and after the first occurrence of `c`. */
  function SplitOnce(s: string, c: char): (r: Option<(string, string)>)
    ensures r.None? <==> c !in s
    ensures r.Some? ==> c !in r.value.0 && r.value.0 + [c] + r.value.1 == s
  {
    if s == [] then None
    else if s[0] == c then Some(([], s[1..]))
    else match SplitOnce(s[1..], c) {
      case None => None
      case Some(parts) => Some(([s[0]] + parts.0, parts.1))
    }
  }

  /** Splitting at a separator that the head does not contain yields exactly the head and
      the tail. */
  lemma {:induction false} SplitOnceAfterHead(head: string, c: char, tail: string)
    requires c !in head
    ensures SplitOnce(head + [c] + tail, c) == Some((head, tail))
    decreases |head|
  {
    if head == [] {
      assert head + [c] + tail == [c] + tail;
    } else {
      assert (head + [c] + tail)[1..] == head[1..] + [c] + tail;
      SplitOnceAfterHead(head[1..], c, tail);
      assert [head[0]] + head[1..] == head;
    }
  }

  // ---------------------------------------------------------------------------------------
  // Decimal rendering (`format!("{}", n)` for an unsigned integer)

  predicate IsDigit(c: char) { '0' <= c <= '9' }

  function DigitChar(d: nat): (c: char)
    requires d < 10
    ensures IsDigit(c)
  {
    "0123456789"[d]
  }

  function NatToString(n: nat): (r: string)
    ensures |r| > 0
    ensures forall i :: 0 <= i < |r| ==> IsDigit(r[i])
    decreases n
  {
    if n < 10 then [DigitChar(n)] else NatToString(n / 10) + [DigitChar(n % 10)]
  }

  // ---------------------------------------------------------------------------------------
  // The order of `String` and the iteration order of `BTreeSet<String>`

  /** Lexicographic order on strings (Rust `String`'s `Ord`, character by character). */
  predicate Less(a: string, b: string)
    decreases |a|
  {
    if |a| == 0 then |b| > 0
    else if |b| == 0 then false
    else a[0] < b[0] || (a[0] == b[0] && Less(a[1..], b[1..]))
  }

  lemma {:induction false} LessIrreflexive(a: string)
    ensures !Less(a, a)
    decreases |a|
  {
    if |a| > 0 { LessIrreflexive(a[1..]); }
  }

  lemma {:induction false} LessTransitive(a: string, b: string, c: string)
    requires Less(a, b) && Less(b, c)
    ensures Less(a, c)
    decreases |a|
  {
    if |a| > 0 && a[0] == b[0] == c[0] {
      LessTransitive(a[1..], b[1..], c[1..]);
    }
  }

  lemma {:induction false} LessTotal(a: string, b: string)
    requires a != b
    ensures Less(a, b) || Less(b, a)
    decreases |a|
  {
    if |a| > 0 && |b| > 0 && a[0] == b[0] {
      assert a == [a[0]] + a[1..] && b == [b[0]] + b[1..];
      LessTotal(a[1..], b[1..]);
    }
  }

  lemma LessAsymmetric(a: string, b: string)
    requires Less(a, b)
    ensures !Less(b, a)
  {
    if Less(b, a) {
      LessTransitive(a, b, a);
      LessIrreflexive(a);
    }
  }

  /** The ordering invariant of the keys of a `BTreeSet<String>` or `BTreeMap<String, _>`
      as they are iterated. */
  predicate StrictlySorted(s: seq<string>) {
    forall i, j :: 0 <= i < j < |s| ==> Less(s[i], s[j])
  }

  /** `BTreeSet::insert`, on the set's sorted sequence of elements. */
  function SetInsert(s: seq<string>, x: string): (r: seq<string>)
    requires StrictlySorted(s)
    ensures StrictlySorted(r)
    ensures forall y :: y in r <==> y in s || y == x
  {
    if s == [] then [x]
    else if x == s[0] then s
    else if Less(x, s[0]) then
      assert forall j :: 0 < j < |s| ==> Less(x, s[j]) by {
        forall j | 0 < j < |s| { LessTransitive(x, s[0], s[j]); }
      }
      [x] + s
    else
      var tail := SetInsert(s[1..], x);
      assert forall j :: 0 <= j < |tail| ==> Less(s[0], tail[j]) by {
        forall j | 0 <= j < |tail| ensures Less(s[0], tail[j]) {
          if tail[j] == x {
            LessTotal(x, s[0]);
          } else {
            assert tail[j] in tail;
            var k :| 0 <= k < |s[1..]| && s[1..][k] == tail[j];
            assert s[k + 1] == tail[j];
          }
        }
      }
      [s[0]] + tail
  }

  /** The elements of a `BTreeSet<String>` collected from a sequence, in iteration order:
      sorted, without duplicates, and exactly the elements of the sequence. */
  function FromSeq(xs: seq<string>): (r: seq<string>)
    ensures StrictlySorted(r)
    ensures forall y :: y in r <==> y in xs
  {
    if xs == [] then [] else SetInsert(FromSeq(xs[..|xs| - 1]), xs[|xs| - 1])
  }

  /** Strictly sorted sequences have no duplicates. */
  lemma SortedDistinct(s: seq<string>)
    requires StrictlySorted(s)
    ensures forall i, j :: 0 <= i < j < |s| ==> s[i] != s[j]
  {
    forall i, j | 0 <= i < j < |s| ensures s[i] != s[j] {
      LessIrreflexive(s[i]);
    }
  }

  /** The first element of a strictly sorted sequence is its least element. */
  lemma SortedHeadLeast(s: seq<string>, y: string)
    requires StrictlySorted(s) && y in s
    ensures y == s[0] || Less(s[0], y)
  {
    var k :| 0 <= k < |s| && s[k] == y;
    if k > 0 { assert Less(s[0], s[k]); }
  }

  /** A sorted iteration order is determined by its elements: two strictly sorted
      sequences with the same elements are equal. */
  lemma {:induction false} SortedUnique(a: seq<string>, b: seq<string>)
    requires StrictlySorted(a) && StrictlySorted(b)
    requires forall y :: y in a <==> y in b
    ensures a == b
    decreases |a|
  {
    assert a != [] ==> a[0] in b;
    assert b != [] ==> b[0] in a;
    if a != [] && b != [] {
      SortedHeadLeast(b, a[0]);
      SortedHeadLeast(a, b[0]);
      if Less(a[0], b[0]) {
        LessAsymmetric(a[0], b[0]);
      }
      assert a[0] == b[0];
      forall y ensures y in a[1..] <==> y in b[1..] {
        if y in a[1..] {
          var k :| 1 <= k < |a| && a[k] == y;
          LessIrreflexive(a[0]);
          assert y != a[0];
          assert y in b;
        }
        if y in b[1..] {
          var k :| 1 <= k < |b| && b[k] == y;
          LessIrreflexive(b[0]);
          assert y != b[0];
          assert y in a;
        }
      }
      SortedUnique(a[1..], b[1..]);
      assert a == [a[0]] + a[1..] && b == [b[0]] + b[1..];
    }
  }
}
