/**
 * The two regular expressions the AI gateway applies to reply text, hand-coded.
 *
 * 1. `/```(?:json)?\s*([\s\S]+?)\s*```/` (first match, capture group 1), written as the
 *    backtracking engine explores it: leftmost start, `(?:json)?` and `\s*` greedy,
 *    the body lazy. The lemmas below say what the capture is.
 * 2. The fence clean-up chain `.replace(/```[\w-]*\n/g, '').replace(/```\n/g, '').replace(/```/g, '').trim()`.
 */
module Fences {
  import opened Wrappers
  import opened Text

  /** Three backticks start at index i. */
  predicate FenceAt(s: string, i: int) {
    0 <= i && i + 3 <= |s| && s[i] == '`' && s[i + 1] == '`' && s[i + 2] == '`'
  }

  predicate NoFence(s: string) {
    forall i :: 0 <= i < |s| ==> !FenceAt(s, i)
  }

  /** The optional `json` tag right after an opening fence. */
  predicate JsonTagAt(s: string, i: nat) {
    i + 4 <= |s| && s[i..i + 4] == "json"
  }

  // ---------------------------------------------------------------------------
  // The search for /```(?:json)?\s*([\s\S]+?)\s*```/
  // ---------------------------------------------------------------------------

  /** `\s*```` at index e with the greedy `\s*` taking k spaces first, then k - 1, ..., 0. */
  predicate CloseWith(s: string, e: nat, k: nat)
    requires e + k <= |s|
  {
    FenceAt(s, e + k) || (k > 0 && CloseWith(s, e, k - 1))
  }

  /** The closing part `\s*```` matches at index e. */
  predicate CloseAt(s: string, e: nat)
    requires e <= |s|
  {
    CloseWith(s, e, SpaceRun(s, e))
  }

  /** Backing off the greedy `\s*` never helps: the closing part matches only after the whole space run. */
  lemma CloseAtIff(s: string, e: nat)
    requires e <= |s|
    ensures CloseAt(s, e) <==> FenceAt(s, e + SpaceRun(s, e))
  {
    var n := SpaceRun(s, e);
    var k := n;
    while k > 0
      invariant 0 <= k <= n
      invariant CloseWith(s, e, n) <==> FenceAt(s, e + n) || CloseWith(s, e, k)
    {
      assert IsSpace(s[e + k - 1]);
      k := k - 1;
    }
  }

  /** The lazy body `[\s\S]+?` tries the capture end e, then e + 1, ... up to the end of the text. */
  function LazyEnd(s: string, e: nat): (r: Option<nat>)
    requires e <= |s|
    ensures r.Some? ==> e <= r.value <= |s| && CloseAt(s, r.value)
    ensures r.Some? ==> forall x :: e <= x < r.value ==> !CloseAt(s, x)
    decreases |s| - e
  {
    if CloseAt(s, e) then Some(e) else if e < |s| then LazyEnd(s, e + 1) else None
  }

  /**
   * `\s*([\s\S]+?)\s*```` from index a, the leading `\s*` taking k spaces, then fewer.
   * Yields the capture as a (start, end) pair.
   */
  function LeadWith(s: string, a: nat, k: nat): (r: Option<(nat, nat)>)
    requires a + k <= |s|
    ensures r.Some? ==> a <= r.value.0 <= a + k && r.value.0 < r.value.1 <= |s| && CloseAt(s, r.value.1)
    decreases k
  {
    var b := a + k;
    var e := if b < |s| then LazyEnd(s, b + 1) else None;
    if e.Some? then Some((b, e.value)) else if k > 0 then LeadWith(s, a, k - 1) else None
  }

  function Lead(s: string, a: nat): Option<(nat, nat)>
    requires a <= |s|
  {
    LeadWith(s, a, SpaceRun(s, a))
  }

  /** After the opening fence at q - 3: the greedy `(?:json)?` tries the tagged reading first. */
  function AfterOpen(s: string, q: nat): Option<(nat, nat)>
    requires q <= |s|
  {
    if JsonTagAt(s, q) && Lead(s, q + 4).Some? then Lead(s, q + 4) else Lead(s, q)
  }

  /** The leftmost match at or after index p: (opening fence, capture start, capture end). */
  function Search(s: string, p: nat): (r: Option<(nat, nat, nat)>)
    requires p <= |s|
    ensures r.Some? ==> p <= r.value.0 && FenceAt(s, r.value.0)
    ensures r.Some? ==> r.value.0 + 3 <= r.value.1 < r.value.2 <= |s| && CloseAt(s, r.value.2)
    decreases |s| - p
  {
    if p + 3 > |s| then None
    else if FenceAt(s, p) && AfterOpen(s, p + 3).Some? then
      Some((p, AfterOpen(s, p + 3).value.0, AfterOpen(s, p + 3).value.1))
    else Search(s, p + 1)
  }

  /** `text.match(...)[1]`, or None when the text does not match. */
  function FirstBlock(s: string): Option<string> {
    match Search(s, 0)
    case Some((_, b, e)) => Some(s[b..e])
    case None => None
  }

  /** The text handed to JSON.parse: the first block's capture, or the whole reply. */
  function JsonCandidate(s: string): string {
    FirstBlock(s).GetOr(s)
  }

  lemma {:induction false} LazyEndReaches(s: string, e: nat, f: nat)
    requires e <= f <= |s| && CloseAt(s, f)
    ensures LazyEnd(s, e).Some? && LazyEnd(s, e).value <= f
    decreases f - e
  {
    if !CloseAt(s, e) {
      LazyEndReaches(s, e + 1, f);
    }
  }

  lemma {:induction false} LazyEndExact(s: string, e: nat, x: nat)
    requires e <= x <= |s| && CloseAt(s, x)
    requires forall z :: e <= z < x ==> !CloseAt(s, z)
    ensures LazyEnd(s, e) == Some(x)
    decreases x - e
  {
    if e < x {
      LazyEndExact(s, e + 1, x);
    }
  }

  lemma FenceCloses(s: string, f: nat)
    requires FenceAt(s, f)
    ensures CloseAt(s, f)
  {
    assert SpaceRun(s, f) == 0;
    CloseAtIff(s, f);
  }

  /** The lead part succeeds whenever some fence starts after the first body character. */
  lemma LeadSucceeds(s: string, a: nat, f: nat)
    requires a + 1 <= f && FenceAt(s, f)
    ensures Lead(s, a).Some?
  {
    var w := SpaceRun(s, a);
    FenceCloses(s, f);
    if a + w + 1 <= f {
      LazyEndReaches(s, a + w + 1, f);
    } else {
      assert !IsSpace(s[f]);
      assert f == a + w && w > 0;
      LazyEndExact(s, f, f);
      assert LeadWith(s, a, w - 1).Some?;
    }
  }

  lemma {:induction false} SearchFinds(s: string, p0: nat, p: nat, f: nat)
    requires p0 <= p && FenceAt(s, p) && FenceAt(s, f) && p + 4 <= f
    ensures Search(s, p0).Some?
    decreases p - p0
  {
    if p0 < p {
      SearchFinds(s, p0 + 1, p, f);
    } else {
      LeadSucceeds(s, p + 3, f);
    }
  }

  /** The reply has a block exactly when an opening fence is followed, at least one character later, by another fence. */
  lemma BlockIffFencePair(s: string)
    ensures FirstBlock(s).Some? <==> exists p, f :: FenceAt(s, p) && FenceAt(s, f) && p + 4 <= f
  {
    if Search(s, 0).Some? {
      var (p, b, e) := Search(s, 0).value;
      CloseAtIff(s, e);
      assert FenceAt(s, p) && FenceAt(s, e + SpaceRun(s, e));
    }
    if exists p, f :: FenceAt(s, p) && FenceAt(s, f) && p + 4 <= f {
      var p, f :| FenceAt(s, p) && FenceAt(s, f) && p + 4 <= f;
      SearchFinds(s, 0, p, f);
    }
  }

  /** Without a fenced block the whole reply is the JSON candidate. */
  lemma NoBlockWholeReply(s: string)
    requires forall p, f :: FenceAt(s, p) && FenceAt(s, f) ==> f < p + 4
    ensures JsonCandidate(s) == s
  {
    BlockIffFencePair(s);
  }

  lemma {:induction false} SearchSkips(s: string, i: nat, p: nat)
    requires i <= p && p + 3 <= |s|
    requires forall k :: i <= k < p ==> !FenceAt(s, k)
    ensures Search(s, i) == Search(s, p)
    decreases p - i
  {
    if i < p {
      SearchStep(s, i);
      SearchSkips(s, i + 1, p);
    }
  }

  /** The search moves past an index where no fence starts. */
  lemma SearchStep(s: string, i: nat)
    requires i + 3 <= |s| && !FenceAt(s, i)
    ensures Search(s, i) == Search(s, i + 1)
  {
  }

  /** Where the body of the block opened at p starts: after the fence and the optional `json` tag. */
  function BodyStart(s: string, p: nat): nat
    requires FenceAt(s, p)
  {
    if JsonTagAt(s, p + 3) then p + 7 else p + 3
  }

  /** The lazy capture starting at b stops at e when only white space separates e from the next fence f. */
  lemma CaptureEnd(s: string, b: nat, e: nat, f: nat)
    requires b < e <= f && FenceAt(s, f)
    requires !IsSpace(s[e - 1])
    requires forall k :: e <= k < f ==> IsSpace(s[k])
    requires forall i :: b < i < f ==> !FenceAt(s, i)
    ensures LazyEnd(s, b + 1) == Some(e)
  {
    assert !IsSpace(s[f]);
    assert SpaceRun(s, e) == f - e;
    CloseAtIff(s, e);
    forall z | b + 1 <= z < e ensures !CloseAt(s, z) {
      CloseAtIff(s, z);
      assert z + SpaceRun(s, z) <= e - 1;
    }
    LazyEndExact(s, b + 1, e);
  }

  /** The body [a, f) with non-blank content: the lazy capture is that body with its surrounding white space cut off. */
  lemma LeadIsTrimmedBody(s: string, a: nat, f: nat)
    requires a <= f && FenceAt(s, f)
    requires forall i :: a <= i < f ==> !FenceAt(s, i)
    requires a + SpaceRun(s, a) < f
    ensures Lead(s, a).Some? && s[Lead(s, a).value.0..Lead(s, a).value.1] == Trim(s[a..f])
  {
    TrimOfSlice(s, a, f);
    var b, e := a + SpaceRun(s, a), f - SpaceRunBefore(s, f);
    assert Trim(s[a..f]) == s[b..e];
    LeadCapture(s, a, f);
    assert Lead(s, a) == Some((b, e));
  }

  /** The lazy capture after the leading white space at a ends before the white space run that precedes the fence f. */
  lemma LeadCapture(s: string, a: nat, f: nat)
    requires a <= f && FenceAt(s, f)
    requires forall i :: a <= i < f ==> !FenceAt(s, i)
    requires a + SpaceRun(s, a) < f - SpaceRunBefore(s, f)
    ensures Lead(s, a) == Some((a + SpaceRun(s, a), f - SpaceRunBefore(s, f)))
  {
    var b, e := a + SpaceRun(s, a), f - SpaceRunBefore(s, f);
    BodyEnd(s, b, f);
    CaptureEnd(s, b, e, f);
    LeadFirst(s, a, b, e);
  }

  /** The white space run before the fence f leaves a non-space character just before it, after b. */
  lemma BodyEnd(s: string, b: nat, f: nat)
    requires FenceAt(s, f) && b < f - SpaceRunBefore(s, f)
    ensures !IsSpace(s[f - SpaceRunBefore(s, f) - 1])
    ensures forall k :: f - SpaceRunBefore(s, f) <= k < f ==> IsSpace(s[k])
  {
  }

  /** When the lazy body finds its end with the whole leading white space taken, that is the lead's result. */
  lemma LeadFirst(s: string, a: nat, b: nat, e: nat)
    requires a <= |s| && b == a + SpaceRun(s, a)
    requires b < |s| && LazyEnd(s, b + 1) == Some(e)
    ensures Lead(s, a) == Some((b, e))
  {
    assert LeadWith(s, a, b - a) == Some((b, e));
  }

  /**
   * The JSON candidate of a reply whose first fence opens a block with non-blank content is
   * exactly that content with the white space around it removed.
   */
  lemma CandidateIsTrimmedBody(s: string, p: nat, f: nat)
    requires FenceAt(s, p) && forall i :: 0 <= i < p ==> !FenceAt(s, i)
    requires BodyStart(s, p) <= f && FenceAt(s, f)
    requires forall i :: BodyStart(s, p) <= i < f ==> !FenceAt(s, i)
    requires Trim(s[BodyStart(s, p)..f]) != ""
    ensures FirstBlock(s) == Some(Trim(s[BodyStart(s, p)..f]))
    ensures JsonCandidate(s) == Trim(s[BodyStart(s, p)..f])
  {
    var a := BodyStart(s, p);
    SearchSkips(s, 0, p);
    NonBlankSlice(s, a, f);
    LeadIsTrimmedBody(s, a, f);
    assert AfterOpen(s, p + 3) == Lead(s, a);
  }

  // ---------------------------------------------------------------------------
  // The clean-up chain for generated code
  // ---------------------------------------------------------------------------

  /** `[\w-]`: ASCII letters, digits, underscore and hyphen. */
  predicate IsWordOrHyphen(c: char) {
    ('a' <= c <= 'z') || ('A' <= c <= 'Z') || ('0' <= c <= '9') || c == '_' || c == '-'
  }

  function WordRun(s: string, i: nat): (n: nat)
    requires i <= |s|
    ensures i + n <= |s|
    ensures forall k :: i <= k < i + n ==> IsWordOrHyphen(s[k])
    ensures i + n == |s| || !IsWordOrHyphen(s[i + n])
    decreases |s| - i
  {
    if i < |s| && IsWordOrHyphen(s[i]) then 1 + WordRun(s, i + 1) else 0
  }

  /**
   * `.replace(/```[\w-]*\n/g, '')`. The greedy `[\w-]*` only matches when the whole word run
   * is followed by a newline, since every shorter run is followed by a word character.
   */
  function StripTaggedOpenings(s: string): string
    decreases |s|
  {
    if s == [] then []
    else if FenceAt(s, 0) && 3 + WordRun(s, 3) < |s| && s[3 + WordRun(s, 3)] == '\n' then
      StripTaggedOpenings(s[4 + WordRun(s, 3)..])
    else [s[0]] + StripTaggedOpenings(s[1..])
  }

  /** `.replace(/```\n/g, '')`. */
  function StripBareOpenings(s: string): string
    decreases |s|
  {
    if s == [] then []
    else if FenceAt(s, 0) && 3 < |s| && s[3] == '\n' then StripBareOpenings(s[4..])
    else [s[0]] + StripBareOpenings(s[1..])
  }

  /** `.replace(/```/g, '')`. */
  function RemoveFences(s: string): string
    decreases |s|
  {
    if s == [] then []
    else if FenceAt(s, 0) then RemoveFences(s[3..])
    else [s[0]] + RemoveFences(s[1..])
  }

  /** The whole clean-up applied to component and test replies. */
  function CleanCode(s: string): string {
    Trim(RemoveFences(StripBareOpenings(StripTaggedOpenings(s))))
  }

  /** Number of backticks the string starts with. */
  function Ticks(s: string): nat {
    if s != [] && s[0] == '`' then 1 + Ticks(s[1..]) else 0
  }

  /** Removing fences from a run of n backticks leaves n mod 3 of them. */
  lemma {:induction false} RemoveFencesTicks(s: string)
    ensures Ticks(RemoveFences(s)) == Ticks(s) % 3
    decreases |s|
  {
    if s == [] {
    } else if FenceAt(s, 0) {
      RemoveFencesTicks(s[3..]);
      TicksOfFence(s);
    } else {
      RemoveFencesTicks(s[1..]);
      TicksOfCons(s[0], RemoveFences(s[1..]));
    }
  }

  /** A fence at the front adds three to the backticks that follow it. */
  lemma TicksOfFence(s: string)
    requires FenceAt(s, 0)
    ensures Ticks(s) == 3 + Ticks(s[3..])
  {
    var s1 := s[1..];
    var s2 := s1[1..];
    assert s1[0] == '`' && s2[0] == '`' && s2[1..] == s[3..];
    assert Ticks(s2) == 1 + Ticks(s[3..]);
  }

  /** The backticks at the front of c followed by r. */
  lemma TicksOfCons(c: char, r: string)
    ensures Ticks([c] + r) == if c == '`' then 1 + Ticks(r) else 0
  {
    assert ([c] + r)[1..] == r;
  }

  /** No triple backtick survives the last removal. */
  lemma {:induction false} RemoveFencesLeavesNone(s: string)
    ensures NoFence(RemoveFences(s))
    decreases |s|
  {
    if s == [] {
    } else if FenceAt(s, 0) {
      RemoveFencesLeavesNone(s[3..]);
    } else {
      var r := RemoveFences(s[1..]);
      RemoveFencesLeavesNone(s[1..]);
      RemoveFencesTicks(s[1..]);
      var t := [s[0]] + r;
      assert RemoveFences(s) == t;
      forall i | 0 <= i < |t| ensures !FenceAt(t, i) {
        if i > 0 && FenceAt(t, i) {
          assert FenceAt(r, i - 1);
        }
      }
    }
  }

  lemma SliceKeepsNoFence(s: string, i: nat, j: nat)
    requires i <= j <= |s| && NoFence(s)
    ensures NoFence(s[i..j])
  {
    forall k | 0 <= k < j - i ensures !FenceAt(s[i..j], k) {
      if FenceAt(s[i..j], k) {
        assert FenceAt(s, i + k);
      }
    }
  }

  lemma TrimKeepsNoFence(s: string)
    requires NoFence(s)
    ensures NoFence(Trim(s))
  {
    var i := SpaceRun(s, 0);
    if i < |s| {
      SliceKeepsNoFence(s, i, |s| - SpaceRunBefore(s, |s|));
    }
  }

  /** Cleaned code contains no triple backtick and has no white space at either end. */
  lemma CleanCodeProperties(s: string)
    ensures NoFence(CleanCode(s))
    ensures CleanCode(s) == "" || (!IsSpace(CleanCode(s)[0]) && !IsSpace(CleanCode(s)[|CleanCode(s)| - 1]))
  {
    var x := RemoveFences(StripBareOpenings(StripTaggedOpenings(s)));
    RemoveFencesLeavesNone(StripBareOpenings(StripTaggedOpenings(s)));
    TrimKeepsNoFence(x);
    TrimResult(x);
  }

  lemma NoFenceTail(s: string)
    requires s != [] && NoFence(s)
    ensures NoFence(s[1..])
  {
    SliceKeepsNoFence(s, 1, |s|);
    assert s[1..|s|] == s[1..];
  }

  /** Each of the three replacements leaves fence-free text alone. */
  lemma {:induction false} ReplacementsFixFenceFree(s: string)
    requires NoFence(s)
    ensures StripTaggedOpenings(s) == s && StripBareOpenings(s) == s && RemoveFences(s) == s
    decreases |s|
  {
    if s != [] {
      assert !FenceAt(s, 0);
      NoFenceTail(s);
      ReplacementsFixFenceFree(s[1..]);
    }
  }

  /** A reply without any triple backtick is only trimmed. */
  lemma CleanCodeOfPlainReply(s: string)
    requires NoFence(s)
    ensures CleanCode(s) == Trim(s)
  {
    ReplacementsFixFenceFree(s);
  }

  /** Cleaning already-cleaned code changes nothing. */
  lemma CleanCodeIdempotent(s: string)
    ensures CleanCode(CleanCode(s)) == CleanCode(s)
  {
    CleanCodeProperties(s);
    CleanCodeOfPlainReply(CleanCode(s));
    var x := RemoveFences(StripBareOpenings(StripTaggedOpenings(s)));
    TrimResult(x);
  }
}
