/**
 * The Python string operations the classifiers rely on: `str.strip()`,
 * substring membership `kw in text`, `str.lower()` (ASCII letters only),
 * and the keyword tallies `sum(1 for kw in kws if kw in text)` and
 * `any(kw in text for kw in kws)`.
 */
module Text {

  /** Python's `str.isspace()` for one code point. */
  predicate IsSpace(c: char)
  {
    var n := c as int;
    (0x09 <= n <= 0x0D) || (0x1C <= n <= 0x20) || n == 0x85 || n == 0xA0
    || n == 0x1680 || (0x2000 <= n <= 0x200A) || n == 0x2028 || n == 0x2029
    || n == 0x202F || n == 0x205F || n == 0x3000
  }

  predicate AllSpace(s: string)
  {
    forall i :: 0 <= i < |s| ==> IsSpace(s[i])
  }

  /** Drops leading whitespace: the result is a suffix of `s`. */
  function StripLeft(s: string): (r: string)
    ensures |r| <= |s| && r == s[|s| - |r|..]
    ensures AllSpace(s[..|s| - |r|])
    ensures r != [] ==> !IsSpace(r[0])
  {
    if s != [] && IsSpace(s[0]) then StripLeft(s[1..]) else s
  }

  /** Drops trailing whitespace: the result is a prefix of `s`. */
  function StripRight(s: string): (r: string)
    ensures |r| <= |s| && r == s[..|r|]
    ensures AllSpace(s[|r|..])
    ensures r != [] ==> !IsSpace(r[|r| - 1])
  {
    if s != [] && IsSpace(s[|s| - 1]) then StripRight(s[..|s| - 1]) else s
  }

  /** Python's `s.strip()`. */
  function Strip(s: string): string
  {
    StripRight(StripLeft(s))
  }

  /** `s.strip()` is empty exactly when `s` is whitespace only. */
  lemma StripEmptyIff(s: string)
    ensures Strip(s) == [] <==> AllSpace(s)
  {
    var l := StripLeft(s);
    if Strip(s) == [] {
      assert AllSpace(l[0..]);
    }
  }

  /** The text `f"{subject} {body}".strip()` is empty exactly when both parts are blank. */
  lemma JoinedStripEmptyIff(subject: string, body: string)
    ensures Strip(subject + " " + body) == [] <==> AllSpace(subject) && AllSpace(body)
  {
    var s := subject + " " + body;
    StripEmptyIff(s);
    if AllSpace(subject) && AllSpace(body) {
      forall i | 0 <= i < |s| ensures IsSpace(s[i]) {
        if i > |subject| {
          assert s[i] == body[i - |subject| - 1];
        }
      }
    }
    if AllSpace(s) {
      forall i | 0 <= i < |subject| ensures IsSpace(subject[i]) {
        assert s[i] == subject[i];
      }
      forall i | 0 <= i < |body| ensures IsSpace(body[i]) {
        assert s[|subject| + 1 + i] == body[i];
      }
    }
  }

  /** `kw` occurs in `text` starting at position `i`. */
  predicate OccursAt(kw: string, text: string, i: nat)
  {
    i + |kw| <= |text| && text[i..i + |kw|] == kw
  }

  /** Python's `kw in text` on two strings. */
  predicate Contains(kw: string, text: string)
  {
    exists i: nat :: i <= |text| && OccursAt(kw, text, i)
  }

  /** A keyword occurs in any text built around it. */
  lemma OccursBetween(pre: string, kw: string, post: string)
    ensures OccursAt(kw, pre + kw + post, |pre|) && Contains(kw, pre + kw + post)
  {
    var t := pre + kw + post;
    assert t[|pre|..|pre| + |kw|] == kw;
    assert OccursAt(kw, t, |pre|);
  }

  /** `sum(1 for kw in kws if kw in text)`: an entry listed twice counts twice. */
  function Count(kws: seq<string>, text: string): nat
  {
    if kws == [] then 0
    else Count(kws[..|kws| - 1], text) + (if Contains(kws[|kws| - 1], text) then 1 else 0)
  }

  /** The tally of a concatenated keyword list is the sum of the tallies. */
  lemma {:induction false} CountConcat(a: seq<string>, b: seq<string>, text: string)
    ensures Count(a + b, text) == Count(a, text) + Count(b, text)
  {
    if b != [] {
      var b' := b[..|b| - 1];
      assert (a + b)[..|a + b| - 1] == a + b';
      CountConcat(a, b', text);
    } else {
      assert a + b == a;
    }
  }

  /** The tally is between 0 and the list length and is 0 exactly when nothing matches. */
  lemma {:induction false} CountZeroIff(kws: seq<string>, text: string)
    ensures Count(kws, text) <= |kws|
    ensures Count(kws, text) == 0 <==> forall i :: 0 <= i < |kws| ==> !Contains(kws[i], text)
  {
    if kws != [] {
      var p := kws[..|kws| - 1];
      CountZeroIff(p, text);
      assert forall i :: 0 <= i < |p| ==> p[i] == kws[i];
    }
  }

  /**
   * Every listed position whose keyword occurs adds one: the tally is at
   * least the number of distinct matching positions `hits` names.
   */
  lemma {:induction false} CountAtLeastHits(kws: seq<string>, text: string, hits: seq<nat>)
    requires forall j :: 0 <= j < |hits| ==> hits[j] < |kws| && Contains(kws[hits[j]], text)
    requires forall j, k :: 0 <= j < k < |hits| ==> hits[j] < hits[k]
    ensures Count(kws, text) >= |hits|
  {
    if hits != [] {
      var last := hits[|hits| - 1];
      var p := kws[..last];
      var hs := hits[..|hits| - 1];
      forall j | 0 <= j < |hs| ensures hs[j] < |p| && Contains(p[hs[j]], text) {
        assert hits[j] < hits[|hits| - 1];
      }
      CountAtLeastHits(p, text, hs);
      CountConcat(p, kws[last..], text);
      assert kws == p + kws[last..];
      var q := kws[last..];
      CountConcat([q[0]], q[1..], text);
      assert q == [q[0]] + q[1..];
      assert Count([q[0]], text) == 1 by {
        assert [q[0]][..0] == [];
      }
    }
  }

  /** `any(kw in text for kw in kws)`. */
  predicate AnyIn(kws: seq<string>, text: string)
  {
    exists i :: 0 <= i < |kws| && Contains(kws[i], text)
  }

  /** `any(...)` is the same test as a non-zero tally. */
  lemma AnyInIffCount(kws: seq<string>, text: string)
    ensures AnyIn(kws, text) <==> Count(kws, text) > 0
  {
    CountZeroIff(kws, text);
  }

  function LowerChar(c: char): (d: char)
  {
    if 'A' <= c <= 'Z' then (c as int - 'A' as int + 'a' as int) as char else c
  }

  /**
   * `str.lower()` on the ASCII letters; every other code point is kept
   * (the full Unicode case mapping is not modelled).
   */
  function Lower(s: string): (r: string)
    ensures |r| == |s|
    ensures forall i :: 0 <= i < |s| ==> r[i] == LowerChar(s[i])
  {
    seq(|s|, i requires 0 <= i < |s| => LowerChar(s[i]))
  }

  /** `s` holds no ASCII upper-case letter. */
  predicate NoUpper(s: string)
  {
    forall i :: 0 <= i < |s| ==> !('A' <= s[i] <= 'Z')
  }

  lemma NoUpperConcat(a: string, b: string)
    requires NoUpper(a) && NoUpper(b)
    ensures NoUpper(a + b)
  {
    forall i | 0 <= i < |a + b| ensures !('A' <= (a + b)[i] <= 'Z') {
      if i >= |a| {
        assert (a + b)[i] == b[i - |a|];
      }
    }
  }

  /** Lowering works character by character, so it distributes over concatenation. */
  lemma LowerConcat(a: string, b: string)
    ensures Lower(a + b) == Lower(a) + Lower(b)
  {
  }

  /** Lowering twice is lowering once, and lower-case text is its own lowering. */
  lemma LowerIdempotent(s: string)
    ensures Lower(Lower(s)) == Lower(s)
    ensures NoUpper(s) ==> Lower(s) == s
  {
  }
}
