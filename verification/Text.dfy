/** Strings as sequences of Unicode code points, with the text operations the modelled code
    relies on: UTF-8 length, trimming by a white-space predicate, splitting into words. */
module Text {

  datatype Option<+T> = None | Some(value: T)

  datatype Result<+T, +E> = Success(value: T) | Failure(error: E)

  /** The number of bytes of the UTF-8 form of a code point. */
  function Utf8Width(c: char): (n: nat)
    ensures 1 <= n <= 4
  {
    var v := c as int;
    if v < 0x80 then 1 else if v < 0x800 then 2 else if v < 0x10000 then 3 else 4
  }

  function Utf8Length(s: string): (n: nat)
    ensures |s| <= n <= 4 * |s|
  {
    if s == [] then 0 else Utf8Width(s[0]) + Utf8Length(s[1..])
  }

  /** How many bits of a code point `n` bytes of UTF-8 carry (RFC 3629, section 3). */
  function Utf8Bits(n: nat): (bits: nat)
    requires 1 <= n <= 4
  {
    if n == 1 then 7 else 5 * n + 1
  }

  function PowerOfTwo(n: nat): nat {
    if n == 0 then 1 else 2 * PowerOfTwo(n - 1)
  }

  /** A code point takes as few bytes as can carry it. */
  lemma {:induction false} WidthIsLeast(c: char, n: nat)
    requires 1 <= n <= 4
    ensures Utf8Width(c) <= n <==> c as int < PowerOfTwo(Utf8Bits(n))
  {
    assert PowerOfTwo(7) == 0x80 && PowerOfTwo(11) == 0x800;
    assert PowerOfTwo(16) == 0x10000 && PowerOfTwo(21) == 0x200000;
  }

  lemma {:induction false} LengthsAddUp(a: string, b: string)
    ensures Utf8Length(a + b) == Utf8Length(a) + Utf8Length(b)
    ensures a != "" ==> Utf8Length(a) == Utf8Width(a[0]) + Utf8Length(a[1..])
  {
    if a == "" {
      assert a + b == b;
    } else {
      LengthsAddUp(a[1..], b);
      assert (a + b)[1..] == a[1..] + b;
    }
  }

  /** The Unicode property White_Space, which Rust's `str::trim` and `split_whitespace` use. */
  predicate IsWhiteSpace(c: char) {
    var v := c as int;
    || 0x9 <= v <= 0xD || v == 0x20 || v == 0x85 || v == 0xA0 || v == 0x1680
    || 0x2000 <= v <= 0x200A || v == 0x2028 || v == 0x2029 || v == 0x202F || v == 0x205F
    || v == 0x3000
  }

  /** The white space and line terminators that JavaScript's `String.prototype.trim` removes. */
  predicate IsJsSpace(c: char) {
    var v := c as int;
    || 0x9 <= v <= 0xD || v == 0x20 || v == 0xA0 || v == 0x1680 || 0x2000 <= v <= 0x200A
    || v == 0x2028 || v == 0x2029 || v == 0x202F || v == 0x205F || v == 0x3000 || v == 0xFEFF
  }

  /** The characters for which Python's `str.isspace` holds, which `str.strip` removes. */
  predicate IsPySpace(c: char) {
    IsWhiteSpace(c) || 0x1C <= c as int <= 0x1F
  }

  function TrimStart(space: char -> bool, s: string): string {
    if s != [] && space(s[0]) then TrimStart(space, s[1..]) else s
  }

  function TrimEnd(space: char -> bool, s: string): string {
    if s != [] && space(s[|s| - 1]) then TrimEnd(space, s[..|s| - 1]) else s
  }

  function Trim(space: char -> bool, s: string): string {
    TrimEnd(space, TrimStart(space, s))
  }

  /** Text with no white space at either end. */
  predicate Trimmed(space: char -> bool, s: string) {
    s == [] || (!space(s[0]) && !space(s[|s| - 1]))
  }

  lemma {:induction false} TrimStartIsSuffix(space: char -> bool, s: string)
    ensures TrimStart(space, s) != [] ==> !space(TrimStart(space, s)[0])
    ensures |TrimStart(space, s)| <= |s| && TrimStart(space, s) == s[|s| - |TrimStart(space, s)|..]
  {
    if s != [] && space(s[0]) {
      TrimStartIsSuffix(space, s[1..]);
    }
  }

  lemma {:induction false} TrimEndIsPrefix(space: char -> bool, s: string)
    ensures TrimEnd(space, s) <= s
    ensures TrimEnd(space, s) != [] ==> !space(TrimEnd(space, s)[|TrimEnd(space, s)| - 1])
  {
    if s != [] && space(s[|s| - 1]) {
      TrimEndIsPrefix(space, s[..|s| - 1]);
    }
  }

  predicate AllSpace(space: char -> bool, s: string) {
    forall i | 0 <= i < |s| :: space(s[i])
  }

  lemma {:induction false} TrimStartDropsSpace(space: char -> bool, a: string, s: string)
    requires AllSpace(space, a)
    ensures TrimStart(space, a + s) == TrimStart(space, s)
  {
    if a == "" {
      assert a + s == s;
    } else {
      TrimStartDropsSpace(space, a[1..], s);
      assert (a + s)[1..] == a[1..] + s;
    }
  }

  lemma {:induction false} TrimEndDropsSpace(space: char -> bool, s: string, b: string)
    requires AllSpace(space, b)
    ensures TrimEnd(space, s + b) == TrimEnd(space, s)
  {
    if b == "" {
      assert s + b == s;
    } else {
      TrimEndDropsSpace(space, s, b[..|b| - 1]);
      assert (s + b)[..|s + b| - 1] == s + b[..|b| - 1];
    }
  }

  lemma {:induction false} TrimStartSplits(space: char -> bool, s: string) returns (a: string)
    ensures s == a + TrimStart(space, s) && AllSpace(space, a)
  {
    a := "";
    if s != "" && space(s[0]) {
      var rest := TrimStartSplits(space, s[1..]);
      a := [s[0]] + rest;
    }
  }

  lemma {:induction false} TrimEndSplits(space: char -> bool, s: string) returns (b: string)
    ensures s == TrimEnd(space, s) + b && AllSpace(space, b)
  {
    b := "";
    if s != "" && space(s[|s| - 1]) {
      var rest := TrimEndSplits(space, s[..|s| - 1]);
      b := rest + [s[|s| - 1]];
    }
  }

  /** `text` is `s` without the white space around it. */
  ghost predicate Surrounds(space: char -> bool, s: string, text: string) {
    Trimmed(space, text) && exists a, b :: s == a + text + b && AllSpace(space, a) && AllSpace(space, b)
  }

  lemma {:induction false} TrimExactly(space: char -> bool, s: string, text: string)
    ensures Trim(space, s) == text <==> Surrounds(space, s, text)
  {
    hide TrimStart, TrimEnd;
    TrimmedIsFixed(space, s);
    var a := TrimStartSplits(space, s);
    var b := TrimEndSplits(space, TrimStart(space, s));
    assert s == a + Trim(space, s) + b;
    if Surrounds(space, s, text) {
      var before, after :| s == before + text + after && AllSpace(space, before) && AllSpace(space, after);
      TrimOfSurrounded(space, before, text, after);
    }
  }

  lemma {:induction false} TrimOfSurrounded(space: char -> bool, a: string, text: string, b: string)
    requires AllSpace(space, a) && AllSpace(space, b) && Trimmed(space, text)
    ensures Trim(space, a + text + b) == text
  {
    assert a + text + b == a + (text + b);
    TrimStartDropsSpace(space, a, text + b);
    if text == "" {
      assert text + b == b && b == b + "";
      TrimStartDropsSpace(space, b, "");
    } else {
      TrimEndDropsSpace(space, text, b);
    }
  }

  /** Trimming changes nothing exactly when there is nothing to trim, and leaves nothing more. */
  lemma {:induction false} TrimmedIsFixed(space: char -> bool, s: string)
    ensures Trim(space, s) == s <==> Trimmed(space, s)
    ensures Trimmed(space, Trim(space, s))
  {
    var start := TrimStart(space, s);
    TrimStartIsSuffix(space, s);
    TrimEndIsPrefix(space, start);
  }

  /** One leading white-space character is trimmed away. */
  lemma {:induction false} TrimDropsSpace(space: char -> bool, c: char, s: string)
    requires space(c)
    ensures Trim(space, [c] + s) == Trim(space, s)
  {
    assert ([c] + s)[1..] == s;
  }

  /** Text that ends in anything but white space is not trimmed away. */
  lemma {:induction false} LastCharacterStays(space: char -> bool, s: string)
    requires s != "" && !space(s[|s| - 1])
    ensures Trim(space, s) != ""
  {
    if space(s[0]) {
      LastCharacterStays(space, s[1..]);
    }
  }

  /** How many leading characters belong to the first word. */
  function WordLength(s: string): (n: nat)
    ensures n <= |s|
    ensures forall i :: 0 <= i < n ==> !IsWhiteSpace(s[i])
    ensures n < |s| ==> IsWhiteSpace(s[n])
  {
    if s == [] || IsWhiteSpace(s[0]) then 0 else 1 + WordLength(s[1..])
  }

  /** Rust's `split_whitespace`: the maximal runs of characters that are not white space. */
  function SplitWhitespace(s: string): seq<string>
    decreases |s|
  {
    if s == [] then []
    else if IsWhiteSpace(s[0]) then SplitWhitespace(s[1..])
    else
      var n := WordLength(s);
      [s[..n]] + SplitWhitespace(s[n..])
  }

  lemma {:induction false} WordLengthOfJoin(a: string, w: char, b: string)
    requires IsWhiteSpace(w)
    ensures WordLength(a + [w] + b) == WordLength(a)
  {
    if a == [] {
      assert (a + [w] + b)[0] == w;
    } else {
      assert (a + [w] + b)[0] == a[0] && (a + [w] + b)[1..] == a[1..] + [w] + b;
      WordLengthOfJoin(a[1..], w, b);
    }
  }

  lemma {:induction false} SplitWord(s: string, n: nat)
    requires s != "" && !IsWhiteSpace(s[0]) && n == WordLength(s)
    ensures SplitWhitespace(s) == [s[..n]] + SplitWhitespace(s[n..])
  {
  }

  /** Splitting texts joined by a white-space character splits each of them. */
  lemma {:induction false} SplitOfJoin(a: string, w: char, b: string)
    requires IsWhiteSpace(w)
    ensures SplitWhitespace(a + [w] + b) == SplitWhitespace(a) + SplitWhitespace(b)
    decreases |a|, 1
  {
    var s := a + [w] + b;
    if a == [] {
      assert s[1..] == b;
    } else if IsWhiteSpace(a[0]) {
      assert s[1..] == a[1..] + [w] + b;
      SplitOfJoin(a[1..], w, b);
    } else {
      SplitFirstWord(a, w, b);
    }
  }

  lemma {:induction false} SplitFirstWord(a: string, w: char, b: string)
    requires IsWhiteSpace(w) && a != "" && !IsWhiteSpace(a[0])
    ensures SplitWhitespace(a + [w] + b) == SplitWhitespace(a) + SplitWhitespace(b)
    decreases |a|, 0
  {
    hide IsWhiteSpace, SplitWhitespace;
    var s, n := a + [w] + b, WordLength(a);
    WordLengthOfJoin(a, w, b);
    assert s[0] == a[0];
    assert s[..n] == a[..n] && s[n..] == a[n..] + [w] + b;
    SplitWord(s, n);
    SplitWord(a, n);
    SplitOfJoin(a[n..], w, b);
  }

  /** `s[i..j]` is a maximal run of characters that are not white space. */
  predicate IsWord(s: string, i: nat, j: nat) {
    && i < j <= |s|
    && (forall k | i <= k < j :: !IsWhiteSpace(s[k]))
    && (i > 0 ==> IsWhiteSpace(s[i - 1])) && (j < |s| ==> IsWhiteSpace(s[j]))
  }

  ghost predicate HasWord(s: string, piece: string) {
    exists i: nat, j: nat :: IsWord(s, i, j) && s[i..j] == piece
  }

  /** Where a word of a suffix stands in the whole, if no word is cut in two. */
  lemma {:induction false} WordOfSuffix(s: string, n: nat, i: nat, j: nat)
    requires 0 < n <= |s| && (IsWhiteSpace(s[n - 1]) || n == |s| || IsWhiteSpace(s[n]))
    ensures IsWord(s[n..], i, j) <==> IsWord(s, n + i, n + j)
    ensures i < j <= |s| - n ==> s[n..][i..j] == s[n + i..n + j]
  {
    if IsWord(s, n + i, n + j) {
      assert forall k | i <= k < j :: s[n..][k] == s[n + k];
    }
  }

  lemma {:induction false} WordInSuffix(s: string, n: nat, piece: string)
    requires 0 < n <= |s| && (IsWhiteSpace(s[n - 1]) || n == |s| || IsWhiteSpace(s[n]))
    ensures HasWord(s[n..], piece) <==> exists i: nat, j: nat :: n <= i && IsWord(s, i, j) && s[i..j] == piece
  {
    hide IsWhiteSpace;
    if HasWord(s[n..], piece) {
      var i: nat, j: nat :| IsWord(s[n..], i, j) && s[n..][i..j] == piece;
      WordOfSuffix(s, n, i, j);
    }
    if i: nat, j: nat :| n <= i && IsWord(s, i, j) && s[i..j] == piece {
      WordOfSuffix(s, n, i - n, j - n);
    }
  }

  /** The pieces are exactly the maximal runs. */
  lemma {:induction false} WordsAreMaximalRuns(s: string, piece: string)
    ensures piece in SplitWhitespace(s) <==> HasWord(s, piece)
    decreases |s|
  {
    if s != "" {
      var n := if IsWhiteSpace(s[0]) then 1 else WordLength(s);
      WordsAreMaximalRuns(s[n..], piece);
      WordInSuffix(s, n, piece);
      if !IsWhiteSpace(s[0]) {
        assert IsWord(s, 0, n);
      }
      if HasWord(s, piece) {
        var i: nat, j: nat :| IsWord(s, i, j) && s[i..j] == piece;
        FirstWordIsWhole(s, n, i, j);
      }
    }
  }

  lemma {:induction false} FirstWordIsWhole(s: string, n: nat, i: nat, j: nat)
    requires s != "" && n == (if IsWhiteSpace(s[0]) then 1 else WordLength(s)) && IsWord(s, i, j)
    ensures n <= i || (i == 0 && j == n && !IsWhiteSpace(s[0]))
  {
  }
}
