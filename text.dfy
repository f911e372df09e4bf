/**
 * The JavaScript string built-ins the core relies on: `trim`, the `\s` class,
 * `replace(/\s+/g, '-')`, `toLowerCase`, the `||` fallback on strings and `length`.
 */
module Text {

  /** JavaScript white space and line terminators: the set matched by `\s` and removed by `trim`. */
  predicate IsSpace(c: char) {
    || c == ' ' || c == '\t' || c == '\n' || c == '\r' || c == '\U{B}' || c == '\U{C}'
    || c == '\U{A0}' || c == '\U{1680}' || ('\U{2000}' <= c <= '\U{200A}')
    || c == '\U{2028}' || c == '\U{2029}' || c == '\U{202F}' || c == '\U{205F}'
    || c == '\U{3000}' || c == '\U{FEFF}'
  }

  predicate NoSpace(s: string) {
    forall k :: 0 <= k < |s| ==> !IsSpace(s[k])
  }

  predicate AllSpace(s: string) {
    forall k :: 0 <= k < |s| ==> IsSpace(s[k])
  }

  /** Length of the run of white space that starts at index i. */
  function SpaceRun(s: string, i: nat): (n: nat)
    requires i <= |s|
    ensures i + n <= |s|
    ensures forall k :: i <= k < i + n ==> IsSpace(s[k])
    ensures i + n == |s| || !IsSpace(s[i + n])
    decreases |s| - i
  {
    if i < |s| && IsSpace(s[i]) then 1 + SpaceRun(s, i + 1) else 0
  }

  /** Length of the run of white space that ends just before index j. */
  function SpaceRunBefore(s: string, j: nat): (n: nat)
    requires j <= |s|
    ensures n <= j
    ensures forall k :: j - n <= k < j ==> IsSpace(s[k])
    ensures n == j || !IsSpace(s[j - n - 1])
  {
    if j > 0 && IsSpace(s[j - 1]) then 1 + SpaceRunBefore(s, j - 1) else 0
  }

  /** `String.prototype.trim`: the text between the leading and the trailing white space. */
  function Trim(s: string): string {
    var i := SpaceRun(s, 0);
    if i == |s| then [] else s[i..|s| - SpaceRunBefore(s, |s|)]
  }

  /** Trim keeps exactly the slice between the first and the last non-space character. */
  lemma TrimIsSlice(s: string, i: nat, j: nat)
    requires i < j <= |s|
    requires forall k :: 0 <= k < i ==> IsSpace(s[k])
    requires forall k :: j <= k < |s| ==> IsSpace(s[k])
    requires !IsSpace(s[i]) && !IsSpace(s[j - 1])
    ensures Trim(s) == s[i..j]
  {
    assert SpaceRun(s, 0) == i;
    assert SpaceRunBefore(s, |s|) == |s| - j;
  }

  /** Trim gives the empty string exactly when the input is all white space. */
  lemma TrimEmptyIff(s: string)
    ensures Trim(s) == "" <==> AllSpace(s)
  {
    var i := SpaceRun(s, 0);
    if i < |s| {
      assert !IsSpace(s[i]);
    }
  }

  /** The result of Trim neither starts nor ends with white space, and trimming again changes nothing. */
  lemma TrimResult(s: string)
    ensures Trim(s) == "" || (!IsSpace(Trim(s)[0]) && !IsSpace(Trim(s)[|Trim(s)| - 1]))
    ensures Trim(Trim(s)) == Trim(s)
  {
    var r := Trim(s);
    if r != "" {
      var i, j := SpaceRun(s, 0), |s| - SpaceRunBefore(s, |s|);
      assert r[0] == s[i] && r[|r| - 1] == s[j - 1];
      TrimIsSlice(r, 0, |r|);
    }
  }

  /** Trim of a slice: inside the slice, the white space runs are those of the whole text. */
  lemma SliceRuns(s: string, a: nat, f: nat, w: nat, n: nat)
    requires a <= f <= |s| && w < n <= f - a
    requires forall k :: a <= k < a + w ==> IsSpace(s[k])
    requires forall k :: a + n <= k < f ==> IsSpace(s[k])
    requires !IsSpace(s[a + w]) && !IsSpace(s[a + n - 1])
    ensures Trim(s[a..f]) == s[a + w..a + n]
  {
    var t := s[a..f];
    forall k | 0 <= k < w ensures IsSpace(t[k]) { assert t[k] == s[a + k]; }
    forall k | n <= k < |t| ensures IsSpace(t[k]) { assert t[k] == s[a + k]; }
    assert t[w] == s[a + w] && t[n - 1] == s[a + n - 1];
    TrimIsSlice(t, w, n);
    assert forall k :: 0 <= k < n - w ==> t[w..n][k] == s[a + w + k];
  }

  /**
   * Trim of the slice s[a..f] that holds a non-space character, in indices of s: it starts
   * after the white space run at a and ends before the white space run that ends at f.
   */
  lemma TrimOfSlice(s: string, a: nat, f: nat)
    requires a <= f <= |s| && a + SpaceRun(s, a) < f
    ensures a + SpaceRun(s, a) < f - SpaceRunBefore(s, f)
    ensures Trim(s[a..f]) == s[a + SpaceRun(s, a)..f - SpaceRunBefore(s, f)]
  {
    var w, m := SpaceRun(s, a), SpaceRunBefore(s, f);
    assert a + w < f - m;
    SliceRuns(s, a, f, w, f - m - a);
  }

  /** A slice trims to a non-empty string exactly when its leading white space stops inside it. */
  lemma NonBlankSlice(s: string, a: nat, f: nat)
    requires a <= f <= |s|
    ensures Trim(s[a..f]) != "" <==> a + SpaceRun(s, a) < f
  {
    var t := s[a..f];
    TrimEmptyIff(t);
    if a + SpaceRun(s, a) < f {
      assert t[SpaceRun(s, a)] == s[a + SpaceRun(s, a)];
    } else {
      forall k | 0 <= k < |t| ensures IsSpace(t[k]) { assert t[k] == s[a + k]; }
    }
  }

  /** Lower-cases the ASCII letters A-Z. */
  function LowerChar(c: char): char {
    if 'A' <= c <= 'Z' then (c as int + 32) as char else c
  }

  /** `String.prototype.toLowerCase`, on ASCII letters. */
  function ToLower(s: string): (r: string)
    ensures |r| == |s|
    ensures forall k :: 0 <= k < |s| ==> r[k] == LowerChar(s[k])
  {
    if s == [] then [] else [LowerChar(s[0])] + ToLower(s[1..])
  }

  /** `s.replace(/\s+/g, '-')`: every maximal run of white space becomes one hyphen. */
  function HyphenateSpaces(s: string): (r: string)
    ensures NoSpace(r)
    ensures |r| <= |s|
    decreases |s|
  {
    if s == [] then []
    else if IsSpace(s[0]) then "-" + HyphenateSpaces(s[SpaceRun(s, 0)..])
    else [s[0]] + HyphenateSpaces(s[1..])
  }

  /** The hyphenation leaves a string alone exactly when the string has no white space. */
  lemma {:induction false} HyphenateSpacesFixed(s: string)
    ensures HyphenateSpaces(s) == s <==> NoSpace(s)
  {
    if s != [] && !IsSpace(s[0]) {
      HyphenateSpacesFixed(s[1..]);
      assert NoSpace(s) <==> NoSpace(s[1..]) by {
        assert forall k :: 0 < k < |s| ==> s[k] == s[1..][k - 1];
      }
    }
  }

  /** A white-space run inside `a` that stops before the end of `a` is the same run in `a + b`. */
  lemma {:induction false} SpaceRunConcat(a: string, b: string, i: nat)
    requires i <= |a|
    requires i + SpaceRun(a, i) < |a| || b == [] || !IsSpace(b[0])
    ensures SpaceRun(a + b, i) == SpaceRun(a, i)
    decreases |a| - i
  {
    var s := a + b;
    if i < |a| {
      assert s[i] == a[i];
      if IsSpace(a[i]) {
        SpaceRunConcat(a, b, i + 1);
      }
    } else if b != [] {
      assert s[i] == b[0];
    }
  }

  /** A non-empty run of white space alone becomes a single hyphen. */
  lemma {:induction false} HyphenateAllSpace(w: string)
    requires w != [] && AllSpace(w)
    ensures HyphenateSpaces(w) == "-"
  {
    assert SpaceRun(w, 0) == |w|;
    assert w[|w|..] == [];
  }

  /**
   * The replacement works run by run: where the boundary between `a` and `b` does not fall
   * inside a white-space run, hyphenating `a + b` hyphenates the two halves apart.
   */
  lemma {:induction false} HyphenateConcat(a: string, b: string)
    requires a == [] || b == [] || !IsSpace(a[|a| - 1]) || !IsSpace(b[0])
    ensures HyphenateSpaces(a + b) == HyphenateSpaces(a) + HyphenateSpaces(b)
    decreases |a|
  {
    var s := a + b;
    if a == [] {
      assert s == b;
    } else if b == [] {
      assert s == a;
    } else if !IsSpace(a[0]) {
      assert s[0] == a[0] && s[1..] == a[1..] + b;
      HyphenateConcat(a[1..], b);
    } else {
      var n := SpaceRun(a, 0);
      assert s[0] == a[0];
      SpaceRunConcat(a, b, 0);
      if n < |a| {
        assert s[n..] == a[n..] + b;
        HyphenateConcat(a[n..], b);
      } else {
        assert s[n..] == b;
        assert a[n..] == [];
      }
    }
  }

  /**
   * Each maximal white-space run becomes exactly one hyphen: cutting a text at a run `w`
   * (with no white space on either side of it) yields the two hyphenated halves joined by `-`.
   * Together with HyphenateSpacesFixed (the other characters are kept as they are, in order)
   * this determines the replacement completely.
   */
  lemma {:induction false} HyphenateSplit(a: string, w: string, b: string)
    requires a == [] || !IsSpace(a[|a| - 1])
    requires w != [] && AllSpace(w)
    requires b == [] || !IsSpace(b[0])
    ensures HyphenateSpaces(a + w + b) == HyphenateSpaces(a) + "-" + HyphenateSpaces(b)
  {
    var wb := w + b;
    assert wb[0] == w[0];
    assert a + w + b == a + wb;
    calc {
      HyphenateSpaces(a + wb);
      { HyphenateConcat(a, wb); }
      HyphenateSpaces(a) + HyphenateSpaces(wb);
      { HyphenateConcat(w, b); HyphenateAllSpace(w); }
      HyphenateSpaces(a) + ("-" + HyphenateSpaces(b));
    }
  }

  /** Lower-casing works character by character, so it distributes over concatenation. */
  lemma {:induction false} ToLowerConcat(a: string, b: string)
    ensures ToLower(a + b) == ToLower(a) + ToLower(b)
  {
    var l, r := ToLower(a + b), ToLower(a) + ToLower(b);
    assert |l| == |r|;
    forall k | 0 <= k < |l| ensures l[k] == r[k] {
      if k < |a| { assert (a + b)[k] == a[k]; } else { assert (a + b)[k] == b[k - |a|]; }
    }
  }

  /** The slug, too, turns each white-space run into one hyphen and works on the two sides apart. */
  lemma {:induction false} SlugSplit(a: string, w: string, b: string)
    requires a == [] || !IsSpace(a[|a| - 1])
    requires w != [] && AllSpace(w)
    requires b == [] || !IsSpace(b[0])
    ensures Slug(a + w + b) == Slug(a) + "-" + Slug(b)
  {
    HyphenateSplit(a, w, b);
    var ha, hb := HyphenateSpaces(a), HyphenateSpaces(b);
    ToLowerConcat(ha + "-", hb);
    ToLowerConcat(ha, "-");
    assert ToLower("-") == "-";
  }

  /** The download-name stem used by every export: `s.replace(/\s+/g, '-').toLowerCase()`. */
  function Slug(s: string): string {
    ToLower(HyphenateSpaces(s))
  }

  /** A slug contains no white space and slugging it again changes nothing. */
  lemma SlugProperties(s: string)
    ensures NoSpace(Slug(s))
    ensures |Slug(s)| <= |s|
    ensures Slug(Slug(s)) == Slug(s)
  {
    var h := HyphenateSpaces(s);
    var l := ToLower(h);
    assert forall k :: 0 <= k < |l| ==> !IsSpace(l[k]) by {
      forall k | 0 <= k < |l| ensures !IsSpace(l[k]) {
        assert l[k] == LowerChar(h[k]);
      }
    }
    HyphenateSpacesFixed(l);
    assert ToLower(l) == l;
  }

  /** A file name built from a slug and a suffix without white space has no white space. */
  lemma SlugFileNameHasNoSpace(s: string, suffix: string)
    requires NoSpace(suffix)
    ensures NoSpace(Slug(s) + suffix)
  {
    SlugProperties(s);
    var n := Slug(s) + suffix;
    forall k | 0 <= k < |n| ensures !IsSpace(n[k]) {
      if k < |Slug(s)| { assert n[k] == Slug(s)[k]; } else { assert n[k] == suffix[k - |Slug(s)|]; }
    }
  }

  /** JavaScript's `a || b` on two strings: the empty string is falsy. */
  function Or(a: string, b: string): (r: string)
    ensures r == a || r == b
    ensures r == "" <==> a == "" && b == ""
  {
    if a != "" then a else b
  }

  // ---------------------------------------------------------------------------
  // JavaScript string lengths
  // ---------------------------------------------------------------------------

  /** The UTF-16 code units of one character: two for a character above U+FFFF (a surrogate pair). */
  function Units(c: char): nat {
    if c as int > 0xFFFF then 2 else 1
  }

  /** `s.length`: the number of UTF-16 code units, not of characters. */
  function Utf16Length(s: string): (n: nat)
    ensures |s| <= n <= 2 * |s|
    ensures n == |s| <==> forall k :: 0 <= k < |s| ==> Units(s[k]) == 1
  {
    if s == [] then 0
    else
      assert forall k :: 0 < k < |s| ==> s[k] == s[1..][k - 1];
      Units(s[0]) + Utf16Length(s[1..])
  }

  /** A text made only of characters above U+FFFF is twice as long in code units as in characters. */
  lemma {:induction false} WideLength(s: string)
    requires forall k :: 0 <= k < |s| ==> Units(s[k]) == 2
    ensures Utf16Length(s) == 2 * |s|
  {
    if s != [] {
      assert forall k :: 0 <= k < |s[1..]| ==> s[1..][k] == s[k + 1];
      WideLength(s[1..]);
    }
  }
}
