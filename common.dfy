/**
 * Helpers shared by every screen of the dashboard: optional values, the
 * list filter that `Array.prototype.filter` performs, JavaScript's string
 * `includes`, `toLowerCase`, `trim`, `split` and `join`, and the decimal
 * rendering of a whole number.
 */
module Common {

  /** A value that may be absent: `null`/`undefined` in the source. */
  datatype Option<+T> = None | Some(value: T)

  /** What a backend insert or fetch came back with: an error, or `data` (which may be `null`). */
  datatype Fetched<+T> = Failed | Returned(data: Option<seq<T>>)
  {
    /** `data || []` */
    function Rows(): seq<T>
      requires Returned?
    {
      if data.Some? then data.value else []
    }
  }

  // ---------------------------------------------------------------------------
  // Array.prototype.filter

  /** The elements of `xs` that satisfy `p`, in their original order. */
  function Keep<T>(xs: seq<T>, p: T -> bool): (r: seq<T>)
    ensures |r| <= |xs|
    ensures forall x :: x in r ==> x in xs && p(x)
    ensures forall x :: x in xs && p(x) ==> x in r
  {
    if xs == [] then []
    else if p(xs[0]) then [xs[0]] + Keep(xs[1..], p)
    else Keep(xs[1..], p)
  }

  /** Filtering distributes over concatenation, so the order of what is kept is the order of `xs`. */
  lemma {:induction false} KeepAppend<T>(a: seq<T>, b: seq<T>, p: T -> bool)
    ensures Keep(a + b, p) == Keep(a, p) + Keep(b, p)
  {
    if a == [] {
      assert a + b == b;
    } else {
      var ab := a + b;
      assert ab[0] == a[0] && ab[1..] == a[1..] + b;
      KeepAppend(a[1..], b, p);
      if p(a[0]) {
        assert Keep(ab, p) == [a[0]] + Keep(a[1..] + b, p);
        assert Keep(a, p) == [a[0]] + Keep(a[1..], p);
        assert [a[0]] + (Keep(a[1..], p) + Keep(b, p)) == ([a[0]] + Keep(a[1..], p)) + Keep(b, p);
      } else {
        assert Keep(ab, p) == Keep(a[1..] + b, p);
        assert Keep(a, p) == Keep(a[1..], p);
      }
    }
  }

  /** When every element passes, the filter returns its input. */
  lemma {:induction false} KeepAll<T>(xs: seq<T>, p: T -> bool)
    requires forall x :: x in xs ==> p(x)
    ensures Keep(xs, p) == xs
  {
    if xs != [] {
      KeepAll(xs[1..], p);
    }
  }

  /** Filtering twice with the same predicate is filtering once. */
  lemma KeepIdempotent<T>(xs: seq<T>, p: T -> bool)
    ensures Keep(Keep(xs, p), p) == Keep(xs, p)
  {
    KeepAll(Keep(xs, p), p);
  }

  /**
   * Removing one element that fails `p` from the middle of a list whose other
   * elements all pass leaves exactly the other elements, in order.
   */
  lemma KeepSplice<T>(pre: seq<T>, x: T, post: seq<T>, p: T -> bool)
    requires !p(x)
    requires forall y :: y in pre ==> p(y)
    requires forall y :: y in post ==> p(y)
    ensures Keep(pre + [x] + post, p) == pre + post
  {
    assert Keep([x], p) == [] by {
      assert [x][0] == x && [x][1..] == [];
    }
    KeepAppend(pre, [x], p);
    KeepAll(pre, p);
    assert Keep(pre + [x], p) == pre;
    KeepAppend(pre + [x], post, p);
    KeepAll(post, p);
  }

  /** `before` holds between every earlier and every later element of `xs`. */
  predicate Ordered<T>(xs: seq<T>, before: (T, T) -> bool)
  {
    forall i, j :: 0 <= i < j < |xs| ==> before(xs[i], xs[j])
  }

  /** The tail of an ordered list is ordered, and its head comes before all of it. */
  lemma OrderedTail<T>(xs: seq<T>, before: (T, T) -> bool)
    requires xs != [] && Ordered(xs, before)
    ensures Ordered(xs[1..], before)
    ensures forall y :: y in xs[1..] ==> before(xs[0], y)
  {
    var rest := xs[1..];
    forall i, j | 0 <= i < j < |rest| ensures before(rest[i], rest[j]) {
      assert before(xs[i + 1], xs[j + 1]);
    }
    forall y | y in rest ensures before(xs[0], y) {
      var m :| 0 <= m < |rest| && rest[m] == y;
      assert before(xs[0], xs[m + 1]);
    }
  }

  /** An element that comes before everything of an ordered list can go in front of it. */
  lemma OrderedCons<T>(h: T, t: seq<T>, before: (T, T) -> bool)
    requires Ordered(t, before)
    requires forall y :: y in t ==> before(h, y)
    ensures Ordered([h] + t, before)
  {
    var r := [h] + t;
    forall i, j | 0 <= i < j < |r| ensures before(r[i], r[j]) {
      assert r[j] == t[j - 1];
      if i > 0 {
        assert r[i] == t[i - 1];
      }
    }
  }

  /** Filtering keeps the relative order of what it keeps. */
  lemma {:induction false} KeepPreservesOrder<T>(xs: seq<T>, p: T -> bool, before: (T, T) -> bool)
    requires Ordered(xs, before)
    ensures Ordered(Keep(xs, p), before)
  {
    if xs != [] {
      OrderedTail(xs, before);
      KeepPreservesOrder(xs[1..], p, before);
      if p(xs[0]) {
        OrderedCons(xs[0], Keep(xs[1..], p), before);
      }
    }
  }

  /** The number of elements of `xs` that satisfy `p`. */
  function Count<T>(xs: seq<T>, p: T -> bool): nat
  {
    |Keep(xs, p)|
  }

  // ---------------------------------------------------------------------------
  // String.prototype.includes

  /** `s.includes(t)`: `t` occurs in `s` as a contiguous block (the empty string occurs everywhere). */
  predicate Contains(s: string, t: string)
    decreases |s|
  {
    t <= s || (s != [] && Contains(s[1..], t))
  }

  /** `s.endsWith(t)`: `t` is the last part of `s`. */
  predicate EndsWith(s: string, t: string)
  {
    |t| <= |s| && s[|s| - |t|..] == t
  }

  /** `t` sits in `s` starting at position `i`. */
  predicate OccursAt(s: string, t: string, i: int)
  {
    0 <= i <= |s| - |t| && s[i..i + |t|] == t
  }

  /** `Contains` agrees with the position-based reading: `t` sits in `s` at some position. */
  lemma {:induction false} ContainsAt(s: string, t: string)
    ensures Contains(s, t) <==> exists i :: OccursAt(s, t, i)
  {
    if t <= s {
      assert s[0..|t|] == t;
      assert OccursAt(s, t, 0);
    } else if s == [] {
    } else {
      var rest := s[1..];
      ContainsAt(rest, t);
      assert (exists i :: OccursAt(s, t, i)) ==> Contains(rest, t) by {
        if exists i :: OccursAt(s, t, i) {
          var i :| OccursAt(s, t, i);
          assert i != 0;
          assert rest[i - 1..i - 1 + |t|] == t;
          assert OccursAt(rest, t, i - 1);
        }
      }
      assert Contains(rest, t) ==> exists i :: OccursAt(s, t, i) by {
        if Contains(rest, t) {
          var i :| OccursAt(rest, t, i);
          assert s[i + 1..i + 1 + |t|] == t;
          assert OccursAt(s, t, i + 1);
        }
      }
    }
  }

  /** Every string contains the empty string, so an empty search term matches everything. */
  lemma ContainsEmpty(s: string)
    ensures Contains(s, [])
  {
  }

  // ---------------------------------------------------------------------------
  // String.prototype.toLowerCase

  /** Lower-cases the ASCII letters 'A'..'Z' and leaves every other character alone. */
  function LowerChar(c: char): (d: char)
  {
    if 'A' <= c <= 'Z' then (c as int + 32) as char else c
  }

  /** `s.toLowerCase()`, character by character. */
  function Lower(s: string): (r: string)
    ensures |r| == |s|
    ensures forall i :: 0 <= i < |s| ==> r[i] == LowerChar(s[i])
  {
    seq(|s|, i requires 0 <= i < |s| => LowerChar(s[i]))
  }

  /** Lower-casing is idempotent and leaves no upper-case ASCII letter behind. */
  lemma LowerIdempotent(s: string)
    ensures Lower(Lower(s)) == Lower(s)
    ensures forall i :: 0 <= i < |s| ==> !('A' <= Lower(s)[i] <= 'Z')
  {
  }

  // ---------------------------------------------------------------------------
  // String.prototype.trim

  /** The characters ECMAScript counts as WhiteSpace or LineTerminator, which `trim` removes. */
  predicate IsSpace(c: char)
  {
    || c == ' ' || c == '\t' || c == '\n' || c == '\r'
    || c == '\U{000B}' || c == '\U{000C}' || c == '\U{00A0}' || c == '\U{FEFF}'
    || c == '\U{1680}' || ('\U{2000}' <= c <= '\U{200A}')
    || c == '\U{2028}' || c == '\U{2029}' || c == '\U{202F}' || c == '\U{205F}' || c == '\U{3000}'
  }

  /** `s` without its leading white space. */
  function TrimStart(s: string): (r: string)
    ensures |r| <= |s|
  {
    if s != [] && IsSpace(s[0]) then TrimStart(s[1..]) else s
  }

  /** What `TrimStart` removes is white space, and what it keeps is a suffix not starting with any. */
  lemma {:induction false} TrimStartSpec(s: string)
    ensures var r := TrimStart(s);
      && r == s[|s| - |r|..]
      && (forall i :: 0 <= i < |s| - |r| ==> IsSpace(s[i]))
      && (r != [] ==> !IsSpace(r[0]))
  {
    if s != [] && IsSpace(s[0]) {
      TrimStartSpec(s[1..]);
    }
  }

  /** `s` without its trailing white space. */
  function TrimEnd(s: string): (r: string)
    ensures |r| <= |s|
  {
    if s != [] && IsSpace(s[|s| - 1]) then TrimEnd(s[..|s| - 1]) else s
  }

  /** What `TrimEnd` removes is white space, and what it keeps is a prefix not ending with any. */
  lemma {:induction false} TrimEndSpec(s: string)
    ensures var r := TrimEnd(s);
      && r == s[..|r|]
      && (forall i :: |r| <= i < |s| ==> IsSpace(s[i]))
      && (r != [] ==> !IsSpace(r[|r| - 1]))
  {
    if s != [] && IsSpace(s[|s| - 1]) {
      TrimEndSpec(s[..|s| - 1]);
    }
  }

  /** `s.trim()`: `s` without its leading and trailing white space. */
  function Trim(s: string): (r: string)
  {
    TrimEnd(TrimStart(s))
  }

  /** A string that neither starts nor ends with white space. */
  predicate IsTrimmed(s: string)
  {
    s == [] || (!IsSpace(s[0]) && !IsSpace(s[|s| - 1]))
  }

  /** Every character of `s` is white space. */
  predicate AllSpace(s: string)
  {
    forall k :: 0 <= k < |s| ==> IsSpace(s[k])
  }

  /** `r` is `s` with some white space, and nothing else, removed from either end. */
  predicate TrimmedFrom(r: string, s: string)
  {
    exists i, j :: 0 <= i <= j <= |s| && r == s[i..j] && AllSpace(s[..i]) && AllSpace(s[j..])
  }

  /**
   * `trim` cuts one block out of `s`: everything before and after the block
   * is white space, and the block itself neither starts nor ends with it.
   */
  lemma TrimSlice(s: string)
    ensures exists i, j :: 0 <= i <= j <= |s| && Trim(s) == s[i..j] && AllSpace(s[..i]) && AllSpace(s[j..])
    ensures IsTrimmed(Trim(s))
  {
    var a := TrimStart(s);
    var r := TrimEnd(a);
    var i := |s| - |a|;
    var j := i + |r|;
    LeadingSpace(s);
    TrailingSpace(a);
    TrimStartSpec(s);
    TrimEndSpec(a);
    assert a == s[i..];
    assert r == s[i..j] by {
      assert r == a[..|r|];
    }
    assert s[j..] == a[|r|..];
    assert IsTrimmed(r) by {
      if r != [] {
        assert r[0] == a[0];
      }
    }
  }

  /** What `TrimStart` cuts off is all white space. */
  lemma LeadingSpace(s: string)
    ensures AllSpace(s[..|s| - |TrimStart(s)|])
  {
    TrimStartSpec(s);
    var i := |s| - |TrimStart(s)|;
    forall k | 0 <= k < i ensures IsSpace(s[..i][k]) {
      assert s[..i][k] == s[k];
    }
  }

  /** What `TrimEnd` cuts off is all white space. */
  lemma TrailingSpace(a: string)
    ensures AllSpace(a[|TrimEnd(a)|..])
  {
    TrimEndSpec(a);
    var n := |TrimEnd(a)|;
    forall k | 0 <= k < |a| - n ensures IsSpace(a[n..][k]) {
      assert a[n..][k] == a[k + n];
    }
  }

  /** `trim` removes white space from the ends of its input and nothing else. */
  lemma TrimIsTrimmedFrom(s: string)
    ensures TrimmedFrom(Trim(s), s)
  {
    TrimSlice(s);
  }

  lemma {:induction false} TrimEndEmpty(a: string)
    requires TrimEnd(a) == []
    ensures AllSpace(a)
  {
    TrimEndSpec(a);
  }

  /** `!s.trim()` holds exactly when every character of `s` is white space. */
  lemma TrimBlank(s: string)
    ensures Trim(s) == [] <==> AllSpace(s)
  {
    var a := TrimStart(s);
    TrimStartSpec(s);
    if Trim(s) == [] {
      TrimEndEmpty(a);
    }
  }

  /** Trimming a trimmed string changes nothing. */
  lemma TrimIdempotent(s: string)
    ensures Trim(Trim(s)) == Trim(s)
  {
    TrimSlice(s);
    var t := Trim(s);
    assert TrimStart(t) == t;
    assert TrimEnd(t) == t;
  }

  // ---------------------------------------------------------------------------
  // Number#toString for whole numbers, and template literals `${n}`

  function DigitChar(d: nat): (c: char)
    requires d < 10
    ensures '0' <= c <= '9'
  {
    (48 + d) as char
  }

  /** The decimal digits of `n`, most significant first, with no leading zero. */
  function NatToString(n: nat): (r: string)
    ensures r != []
    ensures forall i :: 0 <= i < |r| ==> '0' <= r[i] <= '9'
    ensures |r| > 1 ==> r[0] != '0'
  {
    if n < 10 then [DigitChar(n)] else NatToString(n / 10) + [DigitChar(n % 10)]
  }

  /** The value a decimal digit string denotes. */
  function DigitsValue(s: string): int
    requires forall i :: 0 <= i < |s| ==> '0' <= s[i] <= '9'
  {
    if s == [] then 0 else 10 * DigitsValue(s[..|s| - 1]) + (s[|s| - 1] as int - 48)
  }

  /** Reading back the digits of `n` gives `n`. */
  lemma {:induction false} NatToStringValue(n: nat)
    ensures DigitsValue(NatToString(n)) == n
  {
    var r := NatToString(n);
    if n >= 10 {
      NatToStringValue(n / 10);
      assert r[..|r| - 1] == NatToString(n / 10);
    }
  }

  // ---------------------------------------------------------------------------
  // Array.prototype.join and String.prototype.split with a one-character separator

  /** `lines.join(sep)`; joining no lines gives the empty string. */
  function Join(lines: seq<string>, sep: char): (r: string)
  {
    if lines == [] then []
    else if |lines| == 1 then lines[0]
    else lines[0] + [sep] + Join(lines[1..], sep)
  }

  /** `s.split(sep)`: the pieces between separators; a string without `sep` is one piece. */
  function Split(s: string, sep: char): (r: seq<string>)
    ensures |r| >= 1
  {
    if s == [] then [[]]
    else if s[0] == sep then [[]] + Split(s[1..], sep)
    else var rest := Split(s[1..], sep); [[s[0]] + rest[0]] + rest[1..]
  }

  lemma {:induction false} SplitNoSep(a: string, sep: char)
    requires sep !in a
    ensures Split(a, sep) == [a]
  {
    if a != [] {
      SplitNoSep(a[1..], sep);
      assert [a[0]] + a[1..] == a;
    }
  }

  lemma {:induction false} SplitAfterPiece(a: string, b: string, sep: char)
    requires sep !in a
    ensures Split(a + [sep] + b, sep) == [a] + Split(b, sep)
  {
    var s := a + [sep] + b;
    if a == [] {
      assert s == [sep] + b;
      assert s[1..] == b;
    } else {
      assert s[0] == a[0];
      assert s[1..] == a[1..] + [sep] + b;
      SplitAfterPiece(a[1..], b, sep);
      assert [a[0]] + a[1..] == a;
    }
  }

  /** Splitting a joined list gives the list back, provided no piece contains the separator. */
  lemma {:induction false} SplitJoin(lines: seq<string>, sep: char)
    requires lines != []
    requires forall i :: 0 <= i < |lines| ==> sep !in lines[i]
    ensures Split(Join(lines, sep), sep) == lines
  {
    if |lines| == 1 {
      SplitNoSep(lines[0], sep);
    } else {
      SplitJoin(lines[1..], sep);
      SplitAfterPiece(lines[0], Join(lines[1..], sep), sep);
      assert [lines[0]] + lines[1..] == lines;
    }
  }
}
