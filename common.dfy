/**
 * Shared vocabulary of the journal service model: optional values, results,
 * the parsed answer of the external text-generation service, HTTP outcomes,
 * and the JavaScript array and string operations the servers rely on
 * (slice, join, split, filter, trim), stated over Dafny sequences.
 */
module Common {

  datatype Option<+T> = None | Some(value: T)

  /** A thrown JavaScript Error carrying a fixed message, or a value. */
  datatype Result<+T> = Success(value: T) | Failure(error: string)

  /**
   * What the external text-generation service hands back once its JSON has
   * been parsed: either a parsed object, or nothing usable (a network error,
   * an error status, or content that is not JSON all end up here).
   */
  datatype AiReply<+R> = Parsed(result: R) | Unavailable

  /** An HTTP answer: a JSON body with status 200, or a status with a message. */
  datatype HttpResult<+T> = Ok(body: T) | Err(status: nat, message: string)

  function Min(a: int, b: int): int { if a <= b then a else b }
  function Max(a: int, b: int): int { if a <= b then b else a }

  // ---------------------------------------------------------------------
  // JavaScript `||` on optional values
  // ---------------------------------------------------------------------

  /** `s || d` for a string: an absent or empty string is falsy. */
  function OrString(s: Option<string>, d: string): (r: string)
    ensures s.Some? && s.value != "" ==> r == s.value
    ensures s.None? || s.value == "" ==> r == d
  {
    if s.Some? && s.value != "" then s.value else d
  }

  /** `xs || d` for an array: every array, even `[]`, is truthy. */
  function OrSeq<T>(xs: Option<seq<T>>, d: seq<T>): (r: seq<T>)
    ensures xs.Some? ==> r == xs.value
    ensures xs.None? ==> r == d
  {
    if xs.Some? then xs.value else d
  }

  /** Length of an array that may be absent, as the `if (xs)` guard sees it. */
  function LengthOr0<T>(xs: Option<seq<T>>): (n: nat)
    ensures n == 0 <==> xs.None? || xs.value == []
  {
    if xs.Some? then |xs.value| else 0
  }

  // ---------------------------------------------------------------------
  // Array.prototype.slice
  // ---------------------------------------------------------------------

  /** `s.slice(0, n)`: the first `n` items, or all of them. */
  function TakeFirst<T>(s: seq<T>, n: nat): (r: seq<T>)
    ensures |r| == Min(|s|, n)
    ensures r == s[..|r|]
  {
    if |s| <= n then s else s[..n]
  }

  /** `s.slice(-n)` for n > 0: the last `n` items, or all of them. */
  function TakeLast<T>(s: seq<T>, n: nat): (r: seq<T>)
    ensures |r| == Min(|s|, n)
    ensures r == s[|s| - |r|..]
  {
    if |s| <= n then s else s[|s| - n..]
  }

  /** `s.slice(1)`: everything but the first item; `[]` stays `[]`. */
  function DropFirst<T>(s: seq<T>): (r: seq<T>)
    ensures |r| == Max(0, |s| - 1)
    ensures s != [] ==> s == [s[0]] + r
  {
    if s == [] then [] else s[1..]
  }

  /** Items older than the last `n` never reach `TakeLast`. */
  lemma TakeLastIgnoresOlder<T>(older: seq<T>, recent: seq<T>, n: nat)
    requires |recent| >= n
    ensures TakeLast(older + recent, n) == TakeLast(recent, n)
  {
    var whole := older + recent;
    assert whole[|whole| - n..] == recent[|recent| - n..];
  }

  /** Items after the first `n` never reach `TakeFirst`. */
  lemma TakeFirstIgnoresLater<T>(first: seq<T>, later: seq<T>, n: nat)
    requires |first| >= n
    ensures TakeFirst(first + later, n) == TakeFirst(first, n)
  {
    assert (first + later)[..n] == first[..n];
  }

  // ---------------------------------------------------------------------
  // Array.prototype.join
  // ---------------------------------------------------------------------

  /** `xs.join(sep)`. */
  function Join(xs: seq<string>, sep: string): (r: string)
    ensures xs == [] ==> r == ""
    ensures |xs| == 1 ==> r == xs[0]
  {
    if |xs| == 0 then "" else if |xs| == 1 then xs[0] else xs[0] + sep + Join(xs[1..], sep)
  }

  /** `x` occurs in `s` starting at some position. */
  ghost predicate OccursAt(x: string, s: string, k: int) {
    0 <= k <= |s| - |x| && s[k..k + |x|] == x
  }

  ghost predicate IsInfix(x: string, s: string) {
    exists k :: OccursAt(x, s, k)
  }

  lemma InfixOfConcat(x: string, a: string, b: string)
    requires IsInfix(x, b)
    ensures IsInfix(x, a + b)
  {
    var k :| OccursAt(x, b, k);
    assert (a + b)[|a| + k..|a| + k + |x|] == x;
    assert OccursAt(x, a + b, |a| + k);
  }

  lemma InfixOfPrefix(x: string, b: string)
    ensures IsInfix(x, x + b)
  {
    assert (x + b)[0..|x|] == x;
    assert OccursAt(x, x + b, 0);
  }

  /** Every item of the array appears, unbroken, in its join. */
  lemma {:induction false} JoinContainsEach(xs: seq<string>, sep: string, i: nat)
    requires i < |xs|
    ensures IsInfix(xs[i], Join(xs, sep))
    decreases |xs|
  {
    if |xs| == 1 {
      InfixOfPrefix(xs[0], "");
      assert xs[0] + "" == xs[0];
    } else if i == 0 {
      InfixOfPrefix(xs[0], sep + Join(xs[1..], sep));
      assert xs[0] + sep + Join(xs[1..], sep) == xs[0] + (sep + Join(xs[1..], sep));
    } else {
      JoinContainsEach(xs[1..], sep, i - 1);
      InfixOfConcat(xs[i], xs[0] + sep, Join(xs[1..], sep));
    }
  }

  // ---------------------------------------------------------------------
  // String.prototype.split, left to right, non-overlapping
  // ---------------------------------------------------------------------

  /** Split `s`, the current piece being `cur`, at every occurrence of `sep`. */
  function SplitFrom(s: string, sep: string, cur: string): (r: seq<string>)
    requires sep != ""
    ensures |r| >= 1
    decreases |s|
  {
    if |s| >= |sep| && s[..|sep|] == sep then [cur] + SplitFrom(s[|sep|..], sep, "")
    else if s == "" then [cur]
    else SplitFrom(s[1..], sep, cur + [s[0]])
  }

  /** `s.split(sep)` for a non-empty separator; `"".split(sep)` is `[""]`. */
  function Split(s: string, sep: string): (r: seq<string>)
    requires sep != ""
  {
    SplitFrom(s, sep, "")
  }

  /** `xs.filter(x => x)`: drops the empty strings, keeps the order. */
  function DropEmpty(xs: seq<string>): (r: seq<string>)
    ensures forall x :: x in r <==> x in xs && x != ""
    ensures |r| <= |xs|
  {
    if xs == [] then [] else (if xs[0] == "" then [] else [xs[0]]) + DropEmpty(xs[1..])
  }

  /** Text that holds no character of the separator's first character. */
  predicate FreeOf(x: string, c: char) {
    forall k :: 0 <= k < |x| ==> x[k] != c
  }

  /** Characters that cannot start a separator are moved into the current piece. */
  lemma {:induction false} SplitFromSkips(x: string, rest: string, sep: string, cur: string)
    requires sep != "" && FreeOf(x, sep[0])
    ensures SplitFrom(x + rest, sep, cur) == SplitFrom(rest, sep, cur + x)
    decreases |x|
  {
    if x == "" {
      assert x + rest == rest;
      assert cur + x == cur;
    } else {
      var s := x + rest;
      assert s[0] == x[0] && x[0] != sep[0];
      assert !(|s| >= |sep| && s[..|sep|] == sep);
      assert s[1..] == x[1..] + rest;
      SplitFromSkips(x[1..], rest, sep, cur + [x[0]]);
      assert cur + [x[0]] + x[1..] == cur + x;
    }
  }

  /**
   * Joining then splitting gives the pieces back when no piece holds the
   * separator's first character (for `'|||'`: no `'|'` at all).
   */
  lemma {:induction false} SplitJoin(xs: seq<string>, sep: string)
    requires sep != "" && xs != []
    requires forall i :: 0 <= i < |xs| ==> FreeOf(xs[i], sep[0])
    ensures Split(Join(xs, sep), sep) == xs
    decreases |xs|
  {
    if |xs| == 1 {
      SplitFromSkips(xs[0], "", sep, "");
      assert xs[0] + "" == xs[0];
      assert "" + xs[0] == xs[0];
    } else {
      var tail := Join(xs[1..], sep);
      assert Join(xs, sep) == xs[0] + (sep + tail);
      SplitFromSkips(xs[0], sep + tail, sep, "");
      assert "" + xs[0] == xs[0];
      var s := sep + tail;
      assert s[..|sep|] == sep && s[|sep|..] == tail;
      SplitJoin(xs[1..], sep);
      assert [xs[0]] + xs[1..] == xs;
    }
  }

  /** With every piece non-empty, the empty-piece filter changes nothing. */
  lemma {:induction false} DropEmptyKeepsNonEmpty(xs: seq<string>)
    requires forall i :: 0 <= i < |xs| ==> xs[i] != ""
    ensures DropEmpty(xs) == xs
  {
    if xs != [] {
      DropEmptyKeepsNonEmpty(xs[1..]);
    }
  }

  // ---------------------------------------------------------------------
  // String.prototype.trim
  // ---------------------------------------------------------------------

  /** ECMAScript WhiteSpace and LineTerminator code points, which trim removes. */
  predicate IsJsWhitespace(c: char) {
    c == ' ' || c == '\t' || c == '\n' || c == '\r' || c == '\U{000B}' || c == '\U{000C}'
    || c == '\U{00A0}' || c == '\U{1680}' || ('\U{2000}' <= c <= '\U{200A}')
    || c == '\U{2028}' || c == '\U{2029}' || c == '\U{202F}' || c == '\U{205F}'
    || c == '\U{3000}' || c == '\U{FEFF}'
  }

  predicate AllWhitespace(s: string) {
    forall k :: 0 <= k < |s| ==> IsJsWhitespace(s[k])
  }

  /** Drops leading white space; what remains is a suffix of `s`. */
  function TrimStart(s: string): (r: string)
    ensures |r| <= |s| && r == s[|s| - |r|..]
    ensures forall k :: 0 <= k < |s| - |r| ==> IsJsWhitespace(s[k])
    ensures r == "" || !IsJsWhitespace(r[0])
  {
    if s != "" && IsJsWhitespace(s[0]) then TrimStart(s[1..]) else s
  }

  /** Drops trailing white space; what remains is a prefix of `s`. */
  function TrimEnd(s: string): (r: string)
    ensures |r| <= |s| && r == s[..|r|]
    ensures forall k :: |r| <= k < |s| ==> IsJsWhitespace(s[k])
    ensures r == "" || !IsJsWhitespace(r[|r| - 1])
  {
    if s != "" && IsJsWhitespace(s[|s| - 1]) then TrimEnd(s[..|s| - 1]) else s
  }

  /** `r` sits at `k` in `s` with nothing but white space before and after it. */
  ghost predicate SurroundedByWhitespace(r: string, s: string, k: int) {
    OccursAt(r, s, k) && AllWhitespace(s[..k]) && AllWhitespace(s[k + |r|..])
  }

  /**
   * Cutting white space off the front of `s` (leaving `a`) and then off
   * the back of `a` (leaving `r`) leaves `r` surrounded by white space in `s`.
   */
  lemma TrimPieces(s: string, a: string, r: string)
    requires |a| <= |s| && a == s[|s| - |a|..]
    requires forall i :: 0 <= i < |s| - |a| ==> IsJsWhitespace(s[i])
    requires |r| <= |a| && r == a[..|r|]
    requires forall i :: |r| <= i < |a| ==> IsJsWhitespace(a[i])
    ensures SurroundedByWhitespace(r, s, |s| - |a|)
  {
    var k := |s| - |a|;
    assert s[k..k + |r|] == s[k..][..|r|];
    var head := s[..k];
    assert AllWhitespace(head) by {
      forall i | 0 <= i < |head| ensures IsJsWhitespace(head[i]) {
        assert head[i] == s[i];
      }
    }
    var tail := s[k + |r|..];
    assert AllWhitespace(tail) by {
      forall i | 0 <= i < |tail| ensures IsJsWhitespace(tail[i]) {
        assert tail[i] == a[|r| + i];
      }
    }
  }

  /** `s.trim()`: only leading and trailing white space is removed. */
  function Trim(s: string): (r: string)
    ensures r == "" || (!IsJsWhitespace(r[0]) && !IsJsWhitespace(r[|r| - 1]))
    ensures IsInfix(r, s)
    ensures exists k :: SurroundedByWhitespace(r, s, k)
  {
    TrimPieces(s, TrimStart(s), TrimEnd(TrimStart(s)));
    TrimEnd(TrimStart(s))
  }

  /** `s.trim().length === 0` exactly when every character of `s` is white space. */
  lemma TrimEmptyIff(s: string)
    ensures Trim(s) == "" <==> AllWhitespace(s)
  {
  }
}
