/** The string operations the storefront relies on: `toLowerCase`, `includes`
    and `replace` with a string pattern. Only ASCII letters are case-mapped. */
module Text {

  /** ASCII `toLowerCase` of one character; every other character is kept. */
  function LowerChar(c: char): char
  {
    if 'A' <= c <= 'Z' then (c as int + 32) as char else c
  }

  /** `s.toLowerCase()`, restricted to ASCII letters. */
  function Lower(s: string): (r: string)
    ensures |r| == |s|
    ensures forall i :: 0 <= i < |r| ==> !('A' <= r[i] <= 'Z')
    ensures forall i :: 0 <= i < |s| && !('A' <= s[i] <= 'Z') ==> r[i] == s[i]
    ensures forall i :: 0 <= i < |s| && 'A' <= s[i] <= 'Z' ==> r[i] as int == s[i] as int + 32
  {
    seq(|s|, i requires 0 <= i < |s| => LowerChar(s[i]))
  }

  /** Lower-casing twice is lower-casing once. */
  lemma LowerIdempotent(s: string)
    ensures Lower(Lower(s)) == Lower(s)
  {
  }

  /** `sub` occurs in `s` starting at position `i`. */
  predicate OccursAt(s: string, sub: string, i: int)
  {
    0 <= i <= |s| - |sub| && s[i..i + |sub|] == sub
  }

  /** An occurrence in the tail of `s` is an occurrence in `s`, one place on. */
  lemma OccursInTail(s: string, sub: string, i: int)
    requires s != [] && 0 <= i
    ensures OccursAt(s[1..], sub, i) <==> OccursAt(s, sub, i + 1)
  {
    if i + |sub| <= |s| - 1 {
      assert s[1..][i..i + |sub|] == s[i + 1..i + 1 + |sub|];
    }
  }

  /** `s.includes(sub)`: `sub` occurs in `s` at some position. */
  function Contains(s: string, sub: string): (b: bool)
    ensures b <==> exists i :: OccursAt(s, sub, i)
    decreases |s|
  {
    if sub <= s then
      assert OccursAt(s, sub, 0);
      true
    else if s == [] then false
    else
      var rest := Contains(s[1..], sub);
      assert rest ==> exists i :: OccursAt(s, sub, i) by {
        if rest {
          var i :| OccursAt(s[1..], sub, i);
          OccursInTail(s, sub, i);
        }
      }
      assert (exists i :: OccursAt(s, sub, i)) ==> rest by {
        if exists i :: OccursAt(s, sub, i) {
          var i :| OccursAt(s, sub, i);
          assert i != 0;
          OccursInTail(s, sub, i - 1);
        }
      }
      rest
  }

  /** The empty string occurs in every string. */
  lemma ContainsEmpty(s: string)
    ensures Contains(s, "")
  {
    assert OccursAt(s, "", 0);
  }

  /** `s.replace(pat, rep)` with a string pattern: the first occurrence of `pat`
      is replaced (see the two lemmas below). */
  function ReplaceFirst(s: string, pat: string, rep: string): (r: string)
    ensures pat <= s ==> r == rep + s[|pat|..]
    decreases |s|
  {
    if pat <= s then rep + s[|pat|..]
    else if s == [] then s
    else [s[0]] + ReplaceFirst(s[1..], pat, rep)
  }

  /** A string without `pat` is returned unchanged. */
  lemma {:induction false} ReplaceFirstWithoutPattern(s: string, pat: string, rep: string)
    requires !Contains(s, pat)
    ensures ReplaceFirst(s, pat, rep) == s
    decreases |s|
  {
    if s != [] {
      assert !(pat <= s) by {
        if |pat| <= |s| {
          assert !OccursAt(s, pat, 0);
          assert s[0..|pat|] == s[..|pat|];
        }
      }
      forall i | 0 <= i
        ensures !OccursAt(s[1..], pat, i)
      {
        OccursInTail(s, pat, i);
      }
      ReplaceFirstWithoutPattern(s[1..], pat, rep);
    }
  }

  /** `sub` does not occur at `i` when one of its characters, the `k`th, differs
      from (or runs past the end of) `s` there. */
  lemma MismatchAt(s: string, sub: string, i: int, k: int)
    requires 0 <= i && 0 <= k < |sub|
    requires i + k >= |s| || s[i + k] != sub[k]
    ensures !OccursAt(s, sub, i)
  {
    if 0 <= i <= |s| - |sub| {
      assert s[i..i + |sub|][k] == s[i + k];
    }
  }

  /** Only the first occurrence is rewritten: when no occurrence of `pat`
      starts inside `pre`, `pre + pat + post` becomes `pre + rep + post`. */
  lemma {:induction false} ReplaceAfterPrefix(pre: string, pat: string, post: string, rep: string)
    requires forall i :: 0 <= i < |pre| ==> !OccursAt(pre + pat + post, pat, i)
    ensures ReplaceFirst(pre + pat + post, pat, rep) == pre + rep + post
    decreases |pre|
  {
    var s := pre + pat + post;
    if pre == [] {
      assert s == pat + post;
      assert s[|pat|..] == post;
    } else {
      assert !(pat <= s) by {
        assert !OccursAt(s, pat, 0);
        assert s[0..|pat|] == s[..|pat|];
      }
      assert s[1..] == pre[1..] + pat + post;
      forall i | 0 <= i < |pre[1..]|
        ensures !OccursAt(pre[1..] + pat + post, pat, i)
      {
        OccursInTail(s, pat, i);
      }
      ReplaceAfterPrefix(pre[1..], pat, post, rep);
      assert [s[0]] + (pre[1..] + rep + post) == pre + rep + post;
    }
  }
}
