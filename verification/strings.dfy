/**
 The JavaScript string operations the catalogue relies on, stated over `seq<char>`:
 `trim`, `startsWith`, `indexOf`, `split`, `join`, `slice` and `parseInt(_, 10)`.
 */
module Strings {
  import opened Wrappers

  /** The characters `String.prototype.trim` removes: the WhiteSpace and LineTerminator
      code points of ECMA-262 (section 12.2 and 12.3 of the 2023 edition). */
  predicate IsWhitespace(c: char) {
    var n := c as int;
    || n == 0x09 || n == 0x0A || n == 0x0B || n == 0x0C || n == 0x0D || n == 0x20
    || n == 0xA0 || n == 0x1680 || (0x2000 <= n <= 0x200A) || n == 0x2028 || n == 0x2029
    || n == 0x202F || n == 0x205F || n == 0x3000 || n == 0xFEFF
  }

  /** The characters a regular-expression `.` does not match (no `s` flag). */
  predicate IsLineTerminator(c: char) {
    var n := c as int;
    n == 0x0A || n == 0x0D || n == 0x2028 || n == 0x2029
  }

  predicate AllWhitespace(s: string) {
    forall i :: 0 <= i < |s| ==> IsWhitespace(s[i])
  }

  /** Neither end of `s` is whitespace. */
  predicate IsTrimmed(s: string) {
    |s| == 0 || (!IsWhitespace(s[0]) && !IsWhitespace(s[|s| - 1]))
  }

  /** Drops leading whitespace. */
  function TrimStart(s: string): string
    decreases |s|
  {
    if |s| > 0 && IsWhitespace(s[0]) then TrimStart(s[1..]) else s
  }

  /** `TrimStart` leaves a suffix of its input that does not start with whitespace, and
      what it drops is all whitespace. */
  lemma {:induction false} TrimStartFacts(s: string)
    ensures var r := TrimStart(s); |r| <= |s| && r == s[|s| - |r|..]
    ensures var r := TrimStart(s); |r| > 0 ==> !IsWhitespace(r[0])
    ensures AllWhitespace(s[..|s| - |TrimStart(s)|])
    decreases |s|
  {
    if |s| > 0 && IsWhitespace(s[0]) {
      var r := TrimStart(s[1..]);
      TrimStartFacts(s[1..]);
      WhitespaceCons(s, |s| - |r|);
    }
  }

  /** A whitespace character in front of a run of whitespace makes a longer run. */
  lemma WhitespaceCons(s: string, n: nat)
    requires 0 < n <= |s| && IsWhitespace(s[0]) && AllWhitespace(s[1..][..n - 1])
    ensures AllWhitespace(s[..n])
  {
    forall i | 0 <= i < n ensures IsWhitespace(s[..n][i]) {
      if i > 0 {
        assert s[..n][i] == s[1..][..n - 1][i - 1];
      }
    }
  }

  /** Drops trailing whitespace. */
  function TrimEnd(s: string): string
    decreases |s|
  {
    if |s| > 0 && IsWhitespace(s[|s| - 1]) then TrimEnd(s[..|s| - 1]) else s
  }

  /** `TrimEnd` leaves a prefix of its input that does not end with whitespace, and
      what it drops is all whitespace. */
  lemma {:induction false} TrimEndFacts(s: string)
    ensures var r := TrimEnd(s); |r| <= |s| && r == s[..|r|]
    ensures var r := TrimEnd(s); |r| > 0 ==> !IsWhitespace(r[|r| - 1])
    ensures AllWhitespace(s[|TrimEnd(s)|..])
    decreases |s|
  {
    if |s| > 0 && IsWhitespace(s[|s| - 1]) {
      var t := s[..|s| - 1];
      TrimEndFacts(t);
      var r := TrimEnd(t);
      assert s[|r|..] == t[|r|..] + [s[|s| - 1]];
    }
  }

  /** `String.prototype.trim`: the result is trimmed, and it is empty exactly when the
      input is all whitespace. */
  function Trim(s: string): (r: string)
    ensures IsTrimmed(r)
    ensures |r| <= |s|
    ensures r == "" <==> AllWhitespace(s)
  {
    var a := TrimStart(s);
    TrimStartFacts(s);
    var r := TrimEnd(a);
    TrimEndFacts(a);
    assert |r| > 0 ==> r[0] == a[0];
    assert r == "" ==> a[|r|..] == a;
    assert r == "" ==> a == "";
    assert a == "" ==> s[..|s| - |a|] == s;
    assert |a| > 0 ==> !IsWhitespace(s[|s| - |a|]);
    r
  }

  /** A string that is already trimmed comes out of `Trim` unchanged. */
  lemma TrimOfTrimmed(s: string)
    requires IsTrimmed(s)
    ensures Trim(s) == s
  {
    assert TrimStart(s) == s;
    assert TrimEnd(s) == s;
  }

  /** Trimming twice is trimming once. */
  lemma TrimIdempotent(s: string)
    ensures Trim(Trim(s)) == Trim(s)
  {
    TrimOfTrimmed(Trim(s));
  }

  /** Leading whitespace in front of a trimmed, non-empty string is removed by `Trim`. */
  lemma {:induction false} TrimPadded(w: string, t: string)
    requires AllWhitespace(w) && IsTrimmed(t) && t != ""
    ensures Trim(w + t) == t
    decreases |w|
  {
    if |w| == 0 {
      assert w + t == t;
      TrimOfTrimmed(t);
    } else {
      assert (w + t)[1..] == w[1..] + t;
      assert IsWhitespace((w + t)[0]);
      TrimPadded(w[1..], t);
    }
  }

  /** `s.startsWith(p)`. */
  predicate StartsWith(s: string, p: string) {
    |p| <= |s| && s[..|p|] == p
  }

  /** `p` occurs in `s` at index `k`. */
  predicate OccursAt(s: string, p: string, k: int) {
    0 <= k && k + |p| <= |s| && s[k..k + |p|] == p
  }

  /** `s.indexOf(p, i)`: the leftmost occurrence of `p` at or after `i`. */
  function IndexOfFrom(s: string, p: string, i: nat): (r: Option<nat>)
    requires i <= |s|
    ensures r.Some? ==> i <= r.value && OccursAt(s, p, r.value)
    ensures r.Some? ==> forall k :: i <= k < r.value ==> !OccursAt(s, p, k)
    ensures r.None? ==> forall k :: i <= k <= |s| ==> !OccursAt(s, p, k)
    decreases |s| - i
  {
    if OccursAt(s, p, i) then Some(i)
    else if i == |s| then None
    else IndexOfFrom(s, p, i + 1)
  }

  /** `s.indexOf(p)`. */
  function IndexOf(s: string, p: string): (r: Option<nat>)
    ensures r.Some? ==> OccursAt(s, p, r.value)
    ensures r.Some? ==> forall k :: 0 <= k < r.value ==> !OccursAt(s, p, k)
    ensures r.None? ==> forall k :: 0 <= k <= |s| ==> !OccursAt(s, p, k)
  {
    IndexOfFrom(s, p, 0)
  }

  /** `s` contains no occurrence of `p`. */
  predicate Free(s: string, p: string) {
    forall k :: 0 <= k <= |s| ==> !OccursAt(s, p, k)
  }

  /** `s.split(sep)` for a non-empty separator: the pieces between the successive
      leftmost occurrences of `sep`. There is always at least one piece, no piece
      contains `sep`, and the last piece is the suffix after the last separator. */
  function Split(s: string, sep: string): (parts: seq<string>)
    requires |sep| > 0
    ensures |parts| >= 1
    ensures forall i :: 0 <= i < |parts| ==> Free(parts[i], sep)
    decreases |s|
  {
    var found := IndexOf(s, sep);
    if found.None? then [s]
    else
      var k := found.value;
      var head := s[..k];
      assert Free(head, sep) by {
        forall j | 0 <= j <= |head| ensures !OccursAt(head, sep, j) {
          if j + |sep| <= |head| {
            assert j < k;
            assert s[j..j + |sep|] == head[j..j + |sep|];
            assert !OccursAt(s, sep, j);
          }
        }
      }
      [head] + Split(s[k + |sep|..], sep)
  }

  /** The last piece of a split is the suffix after the last separator, or the whole
      input when there is no separator. */
  lemma {:induction false} SplitLast(s: string, sep: string)
    requires |sep| > 0
    ensures LastPiece(s, sep, Split(s, sep))
    decreases |s|
  {
    var found := IndexOf(s, sep);
    if found.Some? {
      var k := found.value;
      var tail := s[k + |sep|..];
      assert Split(s, sep) == [s[..k]] + Split(tail, sep);
      SplitLast(tail, sep);
      LastPieceCons(s, sep, k, Split(tail, sep));
    }
  }

  /** The last of `parts` is a suffix of `s`; it is all of `s` when there is one part,
      and follows an occurrence of `sep` when there are more. */
  predicate LastPiece(s: string, sep: string, parts: seq<string>) {
    |parts| >= 1 &&
    var last := parts[|parts| - 1];
    && |last| <= |s| && last == s[|s| - |last|..]
    && (|parts| == 1 ==> last == s)
    && (|parts| > 1 ==> |last| + |sep| <= |s| && OccursAt(s, sep, |s| - |last| - |sep|))
  }

  /** A piece before the first occurrence keeps the last piece of what follows last. */
  lemma LastPieceCons(s: string, sep: string, k: nat, rest: seq<string>)
    requires OccursAt(s, sep, k) && LastPiece(s[k + |sep|..], sep, rest)
    ensures LastPiece(s, sep, [s[..k]] + rest)
  {
    var n := k + |sep|;
    var tail := s[n..];
    var last := rest[|rest| - 1];
    assert ([s[..k]] + rest)[|rest|] == last;
    SuffixOfTail(s, n, last);
    if |rest| > 1 {
      OccursInTail(s, n, sep, |tail| - |last| - |sep|);
    } else {
      assert |s| - |last| - |sep| == k;
    }
  }


  /** A suffix of `s[n..]` is a suffix of `s`. */
  lemma SuffixOfTail(s: string, n: nat, x: string)
    requires n <= |s| && |x| <= |s| - n && x == s[n..][|s| - n - |x|..]
    ensures |x| <= |s| && x == s[|s| - |x|..]
  {
  }

  /** An occurrence in `s[n..]` is an occurrence in `s`, shifted by `n`. */
  lemma OccursInTail(s: string, n: nat, p: string, j: int)
    requires n <= |s| && OccursAt(s[n..], p, j)
    ensures OccursAt(s, p, n + j)
  {
    assert s[n..][j..j + |p|] == s[n + j..n + j + |p|];
  }

  /** `parts.join(sep)`. */
  function Join(parts: seq<string>, sep: string): string
    decreases |parts|
  {
    if |parts| == 0 then ""
    else if |parts| == 1 then parts[0]
    else parts[0] + sep + Join(parts[1..], sep)
  }

  /** Joining the pieces of a split with the same separator gives back the input. */
  lemma {:induction false} JoinSplit(s: string, sep: string)
    requires |sep| > 0
    ensures Join(Split(s, sep), sep) == s
    decreases |s|
  {
    match IndexOf(s, sep)
    case None =>
      assert Split(s, sep) == [s];
    case Some(k) =>
      var tail := s[k + |sep|..];
      var rest := Split(tail, sep);
      var parts := [s[..k]] + rest;
      assert Split(s, sep) == parts;
      assert parts[1..] == rest;
      assert Join(parts, sep) == s[..k] + sep + Join(rest, sep);
      JoinSplit(tail, sep);
      assert s == s[..k] + s[k..k + |sep|] + tail;
  }

  /** A string without the character `c` contains no occurrence of `[c]`. */
  lemma FreeOfChar(a: string, c: char)
    requires c !in a
    ensures Free(a, [c])
  {
    forall k | 0 <= k <= |a| ensures !OccursAt(a, [c], k) {
      if k + 1 <= |a| {
        assert a[k..k + 1] == [a[k]];
      }
    }
  }

  /** Splitting at a single-character separator peels off the text before its first
      occurrence. */
  lemma SplitCons(a: string, c: char, b: string)
    requires c !in a
    ensures Split(a + [c] + b, [c]) == [a] + Split(b, [c])
  {
    var s := a + [c] + b;
    FreeOfChar(a, c);
    assert OccursAt(s, [c], |a|);
    forall k | 0 <= k < |a| ensures !OccursAt(s, [c], k) {
      assert s[k..k + 1] == [a[k]];
    }
    assert IndexOf(s, [c]) == Some(|a|);
    assert s[..|a|] == a;
    assert s[|a| + 1..] == b;
  }

  /** A string without the separator character splits into itself. */
  lemma SplitNone(a: string, c: char)
    requires c !in a
    ensures Split(a, [c]) == [a]
  {
    FreeOfChar(a, c);
    assert IndexOf(a, [c]).None?;
  }

  /** Splitting a join at a separator character that no piece contains gives back the
      pieces. */
  lemma {:induction false} SplitJoin(ts: seq<string>, c: char)
    requires |ts| >= 1
    requires forall i :: 0 <= i < |ts| ==> c !in ts[i]
    ensures Split(Join(ts, [c]), [c]) == ts
    decreases |ts|
  {
    if |ts| == 1 {
      SplitNone(ts[0], c);
    } else {
      SplitCons(ts[0], c, Join(ts[1..], [c]));
      SplitJoin(ts[1..], c);
    }
  }

  /** A separator whose second character differs from its first is marked by that
      character: a string without the mark contains no occurrence of the separator. */
  lemma MarkedFree(a: string, sep: string)
    requires |sep| >= 2 && sep[1] !in a
    ensures Free(a, sep)
  {
    forall k | 0 <= k <= |a| ensures !OccursAt(a, sep, k) {
      if k + |sep| <= |a| {
        assert a[k..k + |sep|][1] == a[k + 1];
      }
    }
  }

  /** Splitting at a marked separator peels off a leading piece without the mark: no
      occurrence can start inside the piece, nor at its last character. */
  lemma SplitMarkedCons(a: string, sep: string, b: string)
    requires |sep| >= 2 && sep[1] != sep[0] && sep[1] !in a
    ensures Split(a + sep + b, sep) == [a] + Split(b, sep)
  {
    var s := a + sep + b;
    assert OccursAt(s, sep, |a|) by {
      assert s[|a|..|a| + |sep|] == sep;
    }
    forall k | 0 <= k < |a| ensures !OccursAt(s, sep, k) {
      if k + |sep| <= |s| {
        assert s[k..k + |sep|][1] == s[k + 1];
        if k + 1 < |a| {
          assert s[k + 1] == a[k + 1];
        } else {
          assert s[k + 1] == sep[0];
        }
      }
    }
    assert IndexOf(s, sep) == Some(|a|);
    assert s[..|a|] == a;
    assert s[|a| + |sep|..] == b;
  }

  /** Splitting a join at a marked separator whose mark no piece contains gives back
      the pieces. */
  lemma {:induction false} SplitJoinMarked(parts: seq<string>, sep: string)
    requires |parts| >= 1 && |sep| >= 2 && sep[1] != sep[0]
    requires forall i :: 0 <= i < |parts| ==> sep[1] !in parts[i]
    ensures Split(Join(parts, sep), sep) == parts
    decreases |parts|
  {
    if |parts| == 1 {
      MarkedFree(parts[0], sep);
      assert IndexOf(parts[0], sep).None?;
    } else {
      SplitMarkedCons(parts[0], sep, Join(parts[1..], sep));
      SplitJoinMarked(parts[1..], sep);
    }
  }

  /** The last `/`-separated segment of `path`: `path.split("/").pop()`. It is the
      longest suffix of `path` without `/`. */
  function LastSegment(path: string): (r: string)
    ensures '/' !in r
    ensures |r| <= |path| && r == path[|path| - |r|..]
    ensures |r| < |path| ==> path[|path| - |r| - 1] == '/'
  {
    var parts := Split(path, "/");
    var r := parts[|parts| - 1];
    SplitLast(path, "/");
    CharFree(r, '/');
    SeparatorBefore(path, r, '/');
    r
  }

  /** A text free of a one-character separator does not hold that character. */
  lemma CharFree(a: string, c: char)
    requires Free(a, [c])
    ensures c !in a
  {
    forall j | 0 <= j < |a| ensures a[j] != c {
      assert a[j..j + 1] == [a[j]];
      assert !OccursAt(a, [c], j);
    }
  }

  /** A proper suffix after an occurrence of a one-character separator comes right
      after that character. */
  lemma SeparatorBefore(path: string, r: string, c: char)
    requires |r| <= |path|
    requires |r| < |path| ==> |r| + 1 <= |path| && OccursAt(path, [c], |path| - |r| - 1)
    ensures |r| < |path| ==> path[|path| - |r| - 1] == c
  {
    if |r| < |path| {
      assert path[|path| - |r| - 1..|path| - |r|] == [c];
    }
  }

  /** The segment after the last `/` of `prefix + "/" + id` is `id`, when `id` has no `/`. */
  lemma LastSegmentAfterSlash(prefix: string, id: string)
    requires '/' !in id
    ensures LastSegment(prefix + "/" + id) == id
  {
    var p := prefix + "/" + id;
    var r := LastSegment(p);
    assert p[|prefix|] == '/';
    assert p[|prefix|] == '/';
    assert forall j :: |p| - |r| <= j < |p| ==> p[j] == r[j - (|p| - |r|)];
    assert forall j :: |prefix| + 1 <= j < |p| ==> p[j] == id[j - |prefix| - 1];
    assert |r| == |id|;
    assert r == p[|prefix| + 1..];
  }

  /** `s.slice(0, n)` / `s.substring(0, n)` for `n >= 0`. */
  function Take(s: string, n: nat): (r: string)
    ensures |r| == if |s| < n then |s| else n
    ensures r == s[..|r|]
  {
    if |s| <= n then s else s[..n]
  }

  /** The number of occurrences of `c` in `s`. */
  function Count(s: string, c: char): nat
    decreases |s|
  {
    if |s| == 0 then 0 else (if s[0] == c then 1 else 0) + Count(s[1..], c)
  }

  /** A character that does not occur is counted zero times. */
  lemma {:induction false} CountAbsent(s: string, c: char)
    requires c !in s
    ensures Count(s, c) == 0
    decreases |s|
  {
    if |s| > 0 {
      CountAbsent(s[1..], c);
    }
  }

  /** Counting is additive over concatenation. */
  lemma {:induction false} CountAppend(a: string, b: string, c: char)
    ensures Count(a + b, c) == Count(a, c) + Count(b, c)
    decreases |a|
  {
    if |a| == 0 {
      assert a + b == b;
    } else {
      assert (a + b)[1..] == a[1..] + b;
      CountAppend(a[1..], b, c);
    }
  }

  predicate IsDigit(c: char) {
    '0' <= c <= '9'
  }

  /** `ds` is made of decimal digits only. */
  predicate AllDigits(ds: string) {
    forall i :: 0 <= i < |ds| ==> IsDigit(ds[i])
  }

  /** The longest prefix of `s` made of decimal digits. */
  function DigitPrefix(s: string): (r: string)
    ensures |r| <= |s| && r == s[..|r|]
    ensures forall i :: 0 <= i < |r| ==> IsDigit(r[i])
    ensures |r| < |s| ==> !IsDigit(s[|r|])
    decreases |s|
  {
    if |s| > 0 && IsDigit(s[0]) then [s[0]] + DigitPrefix(s[1..]) else ""
  }

  /** The value of a run of decimal digits. */
  function DigitsValue(ds: string): nat
    decreases |ds|
  {
    if |ds| == 0 then 0
    else DigitsValue(ds[..|ds| - 1]) * 10 + (if IsDigit(ds[|ds| - 1]) then ds[|ds| - 1] as int - '0' as int else 0)
  }

  /** `parseInt(s, 10)`: skip leading whitespace, read an optional sign and the longest
      run of decimal digits; `None` stands for `NaN` (no digit at all). Integers beyond
      2^53 are not rounded to doubles here. */
  function ParseInt(s: string): Option<int> {
    var t := TrimStart(s);
    var digits := DigitPrefix(UnsignedPart(t));
    var v: int := DigitsValue(digits);
    if |digits| == 0 then None
    else if |t| > 0 && t[0] == '-' then Some(-v)
    else Some(v)
  }

  /** `t` without one leading `+` or `-`. */
  function UnsignedPart(t: string): string {
    if |t| > 0 && (t[0] == '-' || t[0] == '+') then t[1..] else t
  }

  /** A string of digits parses to its decimal value, with no clamping. */
  lemma ParseDigits(ds: string)
    requires |ds| > 0 && AllDigits(ds)
    ensures ParseInt(ds) == Some(DigitsValue(ds))
  {
    assert !IsWhitespace(ds[0]);
    assert TrimStart(ds) == ds;
    assert UnsignedPart(ds) == ds;
    DigitPrefixOfDigits(ds);
  }

  /** A single decimal digit parses to its value. */
  lemma ParseDigit(c: char)
    requires IsDigit(c)
    ensures ParseInt([c]) == Some(c as int - '0' as int)
  {
    ParseDigits([c]);
  }

  /** A minus sign before a string of digits parses to the negated value. */
  lemma ParseNegative(ds: string)
    requires |ds| > 0 && AllDigits(ds)
    ensures ParseInt("-" + ds) == Some(-(DigitsValue(ds) as int))
  {
    var t := "-" + ds;
    assert t[0] == '-' && t[1..] == ds;
    assert TrimStart(t) == t;
    assert UnsignedPart(t) == ds;
    DigitPrefixOfDigits(ds);
    SignedParse(t, ds);
  }

  /** `parseInt` of a minus sign and digits that needs no trimming. */
  lemma SignedParse(t: string, ds: string)
    requires TrimStart(t) == t && DigitPrefix(UnsignedPart(t)) == ds && |ds| > 0 && t[0] == '-'
    ensures ParseInt(t) == Some(-(DigitsValue(ds) as int))
  {
  }

  lemma {:induction false} DigitPrefixOfDigits(ds: string)
    requires AllDigits(ds)
    ensures DigitPrefix(ds) == ds
    decreases |ds|
  {
    if |ds| > 0 {
      DigitPrefixOfDigits(ds[1..]);
    }
  }
}
