/**
 * String helpers the controller relies on: JavaScript's `String.prototype.trim`
 * and the `join("")` of recognised transcript segments.
 */
module Text {

  /**
   * The characters `trim` strips: ECMAScript's WhiteSpace (tab, vertical tab,
   * form feed, the byte order mark and every space separator) and its
   * LineTerminator characters (line feed, carriage return, U+2028, U+2029).
   */
  predicate IsWhitespace(c: char) {
    c == '\t' || c == '\n' || c == '\U{B}' || c == '\U{C}' || c == '\r' ||
    c == ' ' || c == '\U{A0}' || c == '\U{1680}' ||
    ('\U{2000}' <= c <= '\U{200A}') ||
    c == '\U{2028}' || c == '\U{2029}' || c == '\U{202F}' || c == '\U{205F}' ||
    c == '\U{3000}' || c == '\U{FEFF}'
  }

  /** Every character of `s` is whitespace (the empty string included). */
  predicate IsBlank(s: string) {
    forall i :: 0 <= i < |s| ==> IsWhitespace(s[i])
  }

  /** `s` neither starts nor ends with whitespace. */
  predicate IsUnpadded(s: string) {
    s == [] || (!IsWhitespace(s[0]) && !IsWhitespace(s[|s| - 1]))
  }

  /** The index of the first non-whitespace character of `s` at or after `i`, or `|s|`. */
  function SkipStart(s: string, i: nat): (k: nat)
    requires i <= |s|
    ensures i <= k <= |s| && (k == |s| || !IsWhitespace(s[k]))
    decreases |s| - i
  {
    if i < |s| && IsWhitespace(s[i]) then SkipStart(s, i + 1) else i
  }

  /** The end of `s[lo..j]` once its trailing whitespace is removed. */
  function SkipEnd(s: string, lo: nat, j: nat): (k: nat)
    requires lo <= j <= |s|
    ensures lo <= k <= j && (k == lo || !IsWhitespace(s[k - 1]))
  {
    if lo < j && IsWhitespace(s[j - 1]) then SkipEnd(s, lo, j - 1) else j
  }

  /**
   * JavaScript's `s.trim()`: the slice of `s` that is left once the whitespace
   * at both ends is removed.
   */
  function Trim(s: string): (r: string)
    ensures IsUnpadded(r) && |r| <= |s|
  {
    var a := SkipStart(s, 0);
    s[a..SkipEnd(s, a, |s|)]
  }

  /** Everything `SkipStart` passes over is whitespace. */
  lemma {:induction false} SkipStartBlank(s: string, i: nat)
    requires i <= |s|
    ensures forall x :: i <= x < SkipStart(s, i) ==> IsWhitespace(s[x])
    decreases |s| - i
  {
    if i < |s| && IsWhitespace(s[i]) {
      SkipStartBlank(s, i + 1);
    }
  }

  /** Everything `SkipEnd` cuts off is whitespace. */
  lemma {:induction false} SkipEndBlank(s: string, lo: nat, j: nat)
    requires lo <= j <= |s|
    ensures forall x :: SkipEnd(s, lo, j) <= x < j ==> IsWhitespace(s[x])
  {
    if lo < j && IsWhitespace(s[j - 1]) {
      SkipEndBlank(s, lo, j - 1);
    }
  }

  /** The trimmed string is the slice of the input between the two cut points, with only whitespace outside it. */
  lemma TrimSlice(s: string)
    ensures var a := SkipStart(s, 0);
            var b := SkipEnd(s, a, |s|);
            Trim(s) == s[a..b] && IsBlank(s[..a]) && IsBlank(s[b..])
  {
    var a := SkipStart(s, 0);
    var b := SkipEnd(s, a, |s|);
    SkipStartBlank(s, 0);
    SkipEndBlank(s, a, |s|);
    assert forall x :: 0 <= x < a ==> s[..a][x] == s[x];
    assert forall x :: 0 <= x < |s| - b ==> s[b..][x] == s[b + x];
  }

  /** A blank string trims to the empty string, and only a blank one does. */
  lemma BlankIffTrimsToEmpty(s: string)
    ensures IsBlank(s) <==> Trim(s) == ""
  {
    var a := SkipStart(s, 0);
    var b := SkipEnd(s, a, |s|);
    TrimSlice(s);
    if Trim(s) == "" {
      // Nothing is left between the cut points, so whitespace runs from `a` to the end.
      SkipEndBlank(s, a, |s|);
      assert a == |s| && s[..a] == s;
    } else {
      assert !IsWhitespace(s[a]);
    }
  }

  /** `SkipStart` stops exactly at the end of a run of whitespace. */
  lemma {:induction false} SkipStartPadded(s: string, i: nat, n: nat)
    requires i <= n <= |s|
    requires forall x :: i <= x < n ==> IsWhitespace(s[x])
    requires n == |s| || !IsWhitespace(s[n])
    ensures SkipStart(s, i) == n
    decreases n - i
  {
    if i < n {
      SkipStartPadded(s, i + 1, n);
    }
  }

  /** `SkipEnd` stops exactly at the start of a trailing run of whitespace. */
  lemma {:induction false} SkipEndPadded(s: string, lo: nat, j: nat, n: nat)
    requires lo <= n <= j <= |s|
    requires forall x :: n <= x < j ==> IsWhitespace(s[x])
    requires n == lo || !IsWhitespace(s[n - 1])
    ensures SkipEnd(s, lo, j) == n
    decreases j - n
  {
    if n < j {
      SkipEndPadded(s, lo, j - 1, n);
    }
  }

  /** Trimming leaves a string that has nothing at its ends to trim unchanged. */
  lemma TrimUnpadded(s: string)
    requires IsUnpadded(s)
    ensures Trim(s) == s
  {
    SkipStartPadded(s, 0, 0);
    SkipEndPadded(s, 0, |s|, |s|);
    assert s[0..|s|] == s;
  }

  /** Trimming twice is trimming once. */
  lemma TrimIdempotent(s: string)
    ensures Trim(Trim(s)) == Trim(s)
  {
    TrimUnpadded(Trim(s));
  }

  /**
   * An independent description of `trim`: whatever blank padding surrounds an
   * unpadded core, trimming returns exactly that core.
   */
  lemma TrimPadded(left: string, core: string, right: string)
    requires IsBlank(left) && IsBlank(right) && IsUnpadded(core)
    ensures Trim(left + core + right) == core
  {
    var s := left + core + right;
    var m, n := |left|, |left| + |core|;
    Pieces(left, core, right);
    assert forall x :: 0 <= x < m ==> s[x] == left[x];
    assert forall x :: n <= x < |s| ==> s[x] == right[x - n];
    if core == [] {
      SkipStartPadded(s, 0, |s|);
      SkipEndPadded(s, |s|, |s|, |s|);
    } else {
      assert s[m] == core[0] && s[n - 1] == core[|core| - 1];
      SkipStartPadded(s, 0, m);
      SkipEndPadded(s, m, |s|, n);
    }
  }

  /** `parts.join("")`: the segments concatenated in order. */
  function Concat(parts: seq<string>): string
  {
    if parts == [] then "" else parts[0] + Concat(parts[1..])
  }

  /** Joining distributes over splitting the list of segments. */
  lemma {:induction false} ConcatAppend(a: seq<string>, b: seq<string>)
    ensures Concat(a + b) == Concat(a) + Concat(b)
  {
    if a == [] {
      assert a + b == b;
    } else {
      assert (a + b)[1..] == a[1..] + b;
      ConcatAppend(a[1..], b);
    }
  }

  /** The joined text is blank exactly when every segment is blank. */
  lemma {:induction false} ConcatBlank(parts: seq<string>)
    ensures IsBlank(Concat(parts)) <==> forall i :: 0 <= i < |parts| ==> IsBlank(parts[i])
  {
    if parts != [] {
      ConcatBlank(parts[1..]);
      var h, t := parts[0], Concat(parts[1..]);
      assert Concat(parts) == h + t;
      assert IsBlank(h + t) <==> IsBlank(h) && IsBlank(t) by {
        if IsBlank(h + t) {
          forall i | 0 <= i < |h| ensures IsWhitespace(h[i]) { assert (h + t)[i] == h[i]; }
          forall i | 0 <= i < |t| ensures IsWhitespace(t[i]) { assert (h + t)[|h| + i] == t[i]; }
        }
      }
      if forall i :: 0 <= i < |parts| ==> IsBlank(parts[i]) {
        forall i | 0 <= i < |parts| - 1 ensures IsBlank(parts[1..][i]) { assert parts[1..][i] == parts[i + 1]; }
      }
      if IsBlank(h) && IsBlank(t) {
        forall i | 0 <= i < |parts| ensures IsBlank(parts[i]) {
          if i > 0 { assert parts[1..][i - 1] == parts[i]; }
        }
      }
    }
  }

  // Proof helpers. Concatenations of long string constants are costly for the
  // verifier to take apart on its own; these lemmas slice and regroup them over
  // plain variables so that the reply lemmas can use them.

  /** The three pieces of a concatenation can be sliced back out of it. */
  lemma Pieces(a: string, b: string, c: string)
    ensures |a + b + c| == |a| + |b| + |c|
    ensures (a + b + c)[0..|a|] == a
    ensures (a + b + c)[|a|..|a| + |b|] == b
    ensures (a + b + c)[|a| + |b|..|a| + |b| + |c|] == c
  {
    assert (a + b + c)[|a| + |b|..] == c;
  }

  /** Regrouping a five-piece concatenation. */
  lemma Regroup(a: string, b: string, c: string, d: string, e: string)
    ensures a + b + (c + d + e) == (a + b + c) + d + e
  {
  }

  /** Regrouping a six-piece concatenation around its third piece. */
  lemma Regroup6(a: string, b: string, c: string, d: string, e: string, f: string)
    ensures a + b + c + d + e + f == (a + b) + c + (d + e + f)
  {
  }

  /** Regrouping a six-piece concatenation into a flat one. */
  lemma Flatten6(a: string, b: string, c: string, d: string, e: string, f: string)
    ensures a + (b + c) + (d + e + f) == a + b + c + d + e + f
  {
  }

  /** Dropping an empty piece from a concatenation. */
  lemma DropEmpty(a: string, b: string, c: string, d: string, e: string)
    requires b == ""
    ensures a + b + (c + d + e) == a + c + d + e
  {
  }
}
