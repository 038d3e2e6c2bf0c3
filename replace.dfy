/**
 * Go's `bytes.Replace(s, old, new, -1)` ("replace all") and `bytes.Count`,
 * over character sequences; the interface code uses them to put a peer's
 * label into a policy template.
 *
 * Both scan left to right and take matches that do not overlap: after a match
 * the scan resumes just after it. An empty pattern matches before every
 * character and once more at the end.
 */
module Replace {

  /** `pat` occurs in `s` starting at position `i`. */
  predicate OccursAt(s: string, pat: string, i: nat)
  {
    i <= |s| && pat <= s[i..]
  }

  /** `pat` occurs somewhere in `s`, overlapping occurrences included. */
  predicate Occurs(s: string, pat: string)
  {
    exists i: nat | i <= |s| :: OccursAt(s, pat, i)
  }

  /** The position of the leftmost occurrence of `pat` in `s`, or `|s|` when there is none before the end. */
  function FirstMatch(s: string, pat: string): (j: nat)
    ensures j <= |s|
    ensures forall i :: 0 <= i < j ==> !OccursAt(s, pat, i)
    ensures j < |s| ==> OccursAt(s, pat, j)
    decreases |s|
  {
    if s == [] || pat <= s then 0
    else
      OccursAtTail(s, pat);
      1 + FirstMatch(s[1..], pat)
  }

  /** Occurrences past the first character are the occurrences in the tail, shifted by one. */
  lemma OccursAtTail(s: string, pat: string)
    requires s != []
    ensures forall i :: 1 <= i <= |s| ==> (OccursAt(s, pat, i) <==> OccursAt(s[1..], pat, i - 1))
  {
    forall i | 1 <= i <= |s|
      ensures OccursAt(s, pat, i) <==> OccursAt(s[1..], pat, i - 1)
    {
      assert s[i..] == s[1..][i - 1..];
    }
  }

  /** `bytes.Count`: the number of non-overlapping occurrences of `pat` in `s` (`|s| + 1` for an empty pattern). */
  function Count(s: string, pat: string): (c: nat)
    ensures pat != [] ==> c * |pat| <= |s|
    decreases |s|
  {
    if pat == [] then |s| + 1
    else if pat <= s then
      var rest := Count(s[|pat|..], pat);
      assert (1 + rest) * |pat| == |pat| + rest * |pat|;
      1 + rest
    else if s == [] then 0
    else Count(s[1..], pat)
  }

  /** `bytes.Replace` with a negative limit: every non-overlapping occurrence of `pat`, left to right, becomes `rep`. */
  function ReplaceAll(s: string, pat: string, rep: string): (r: string)
    ensures rep == pat ==> r == s
    decreases |s|
  {
    if pat == [] then Interleave(s, rep)
    else if pat <= s then
      assert s == pat + s[|pat|..];
      rep + ReplaceAll(s[|pat|..], pat, rep)
    else if s == [] then []
    else [s[0]] + ReplaceAll(s[1..], pat, rep)
  }

  /** Replacement of the empty pattern: `rep` before every character and at the end. */
  function Interleave(s: string, rep: string): (r: string)
    ensures rep == [] ==> r == s
  {
    if s == [] then rep else rep + [s[0]] + Interleave(s[1..], rep)
  }

  lemma {:induction false} InterleaveLength(s: string, rep: string)
    ensures |Interleave(s, rep)| == |s| + (|s| + 1) * |rep|
  {
    if s != [] {
      InterleaveLength(s[1..], rep);
      assert (|s| + 1) * |rep| == |rep| + |s| * |rep|;
    }
  }

  /**
   * The length of the result is the one bytes.Replace allocates:
   * `len(s) + n * (len(new) - len(old))` where `n` is the count of matches.
   */
  lemma {:induction false} ReplaceAllLength(s: string, pat: string, rep: string)
    ensures |ReplaceAll(s, pat, rep)| == |s| + Count(s, pat) * (|rep| - |pat|)
    decreases |s|
  {
    var d := |rep| - |pat|;
    if pat == [] {
      InterleaveLength(s, rep);
    } else if pat <= s {
      var t := s[|pat|..];
      assert ReplaceAll(s, pat, rep) == rep + ReplaceAll(t, pat, rep);
      assert Count(s, pat) == 1 + Count(t, pat);
      ReplaceAllLength(t, pat, rep);
      var c := Count(t, pat);
      assert |ReplaceAll(s, pat, rep)| == |rep| + |t| + c * d;
      assert |s| == |pat| + |t|;
      Distribute(c, d);
    } else if s != [] {
      assert ReplaceAll(s, pat, rep) == [s[0]] + ReplaceAll(s[1..], pat, rep);
      assert Count(s, pat) == Count(s[1..], pat);
      ReplaceAllLength(s[1..], pat, rep);
    }
  }

  /** Multiplication distributes over `1 + c`; kept apart so the length proof stays small. */
  lemma Distribute(c: int, d: int)
    ensures (1 + c) * d == d + c * d
  {
  }

  /** For a non-empty pattern, a count of zero means exactly that the pattern does not occur. */
  lemma {:induction false} CountZeroIffAbsent(s: string, pat: string)
    requires pat != []
    ensures Count(s, pat) == 0 <==> !Occurs(s, pat)
    decreases |s|
  {
    if pat <= s {
      assert OccursAt(s, pat, 0);
    } else if s != [] {
      CountZeroIffAbsent(s[1..], pat);
      OccursAtTail(s, pat);
      assert Occurs(s, pat) ==> Occurs(s[1..], pat) by {
        if Occurs(s, pat) {
          var i: nat :| i <= |s| && OccursAt(s, pat, i);
          assert OccursAt(s[1..], pat, i - 1);
        }
      }
      assert Occurs(s[1..], pat) ==> Occurs(s, pat) by {
        if Occurs(s[1..], pat) {
          var i: nat :| i <= |s[1..]| && OccursAt(s[1..], pat, i);
          assert OccursAt(s, pat, i + 1);
        }
      }
    }
  }

  /** When nothing matches, the result is the input unchanged (bytes.Replace returns a copy). */
  lemma {:induction false} ReplaceAllWithoutMatch(s: string, pat: string, rep: string)
    requires Count(s, pat) == 0
    ensures ReplaceAll(s, pat, rep) == s
    decreases |s|
  {
    if s != [] {
      ReplaceAllWithoutMatch(s[1..], pat, rep);
    }
  }

  /** One step of the scan where a match starts: it is replaced and counted. */
  lemma StepAtMatch(s: string, pat: string, rep: string)
    requires pat != [] && pat <= s
    ensures ReplaceAll(s, pat, rep) == rep + ReplaceAll(s[|pat|..], pat, rep)
    ensures Count(s, pat) == 1 + Count(s[|pat|..], pat)
  {
  }

  /** One step of the scan where no match starts: the character is copied. */
  lemma StepPastChar(s: string, pat: string, rep: string)
    requires pat != [] && s != [] && !(pat <= s)
    ensures ReplaceAll(s, pat, rep) == [s[0]] + ReplaceAll(s[1..], pat, rep)
    ensures Count(s, pat) == Count(s[1..], pat)
  {
  }

  /** If no match starts in the first `n` positions of `s`, none starts in the first `n - 1` of its tail. */
  lemma NoMatchInTail(s: string, n: nat, pat: string)
    requires 0 < n <= |s|
    requires forall i :: 0 <= i < n ==> !OccursAt(s, pat, i)
    ensures forall i :: 0 <= i < n - 1 ==> !OccursAt(s[1..], pat, i)
  {
    forall i | 0 <= i < n - 1
      ensures !OccursAt(s[1..], pat, i)
    {
      assert s[i + 1..] == s[1..][i..];
      assert !OccursAt(s, pat, i + 1);
    }
  }

  /** Putting back the first character of `s` in front of a prefix of its tail. */
  lemma ConsPrefix(s: string, n: nat, x: string)
    requires 0 < n <= |s|
    ensures s[1..][n - 1..] == s[n..]
    ensures [s[0]] + (s[1..][..n - 1] + x) == s[..n] + x
  {
    assert [s[0]] + s[1..][..n - 1] == s[..n];
  }

  /**
   * The two sequence identities the split at a match needs: dropping `j`
   * then `m` characters drops `j + m`, and concatenation regroups. Kept apart
   * so the split proof stays small.
   */
  lemma DropAndRegroup(s: string, j: nat, m: nat, rep: string, tail: string)
    requires j + m <= |s|
    ensures s[j..][m..] == s[j + m..]
    ensures s[..j] + (rep + tail) == s[..j] + rep + tail
  {
  }

  /** The first `n` characters of `s`, where no match starts, are copied unchanged and count nothing. */
  lemma {:induction false} ReplaceAllSkip(s: string, n: nat, pat: string, rep: string)
    requires pat != [] && n <= |s|
    requires forall i :: 0 <= i < n ==> !OccursAt(s, pat, i)
    ensures ReplaceAll(s, pat, rep) == s[..n] + ReplaceAll(s[n..], pat, rep)
    ensures Count(s, pat) == Count(s[n..], pat)
    decreases n
  {
    if n == 0 {
      assert s[..0] + ReplaceAll(s, pat, rep) == ReplaceAll(s, pat, rep);
      assert s[0..] == s;
    } else {
      var t := s[1..];
      assert s[0..] == s;
      assert !OccursAt(s, pat, 0);
      StepPastChar(s, pat, rep);
      NoMatchInTail(s, n, pat);
      ReplaceAllSkip(t, n - 1, pat, rep);
      ConsPrefix(s, n, ReplaceAll(s[n..], pat, rep));
    }
  }

  /**
   * With `j` the leftmost match, the result is the text before it, then `rep`,
   * then the replaced remainder.
   */
  lemma ReplaceAllSplit(s: string, pat: string, rep: string, j: nat)
    requires pat != [] && OccursAt(s, pat, j)
    requires forall i :: 0 <= i < j ==> !OccursAt(s, pat, i)
    ensures j + |pat| <= |s|
    ensures ReplaceAll(s, pat, rep) == s[..j] + rep + ReplaceAll(s[j + |pat|..], pat, rep)
    ensures Count(s, pat) == 1 + Count(s[j + |pat|..], pat)
  {
    ReplaceAllSkip(s, j, pat, rep);
    DropAndRegroup(s, j, |pat|, rep, ReplaceAll(s[j + |pat|..], pat, rep));
    StepAtMatch(s[j..], pat, rep);
  }

  /** When no match starts before the end, replacing changes nothing and the count is zero. */
  lemma ReplaceAllPastLastMatch(s: string, pat: string, rep: string)
    requires pat != [] && FirstMatch(s, pat) == |s|
    ensures ReplaceAll(s, pat, rep) == s
    ensures Count(s, pat) == 0
  {
    ReplaceAllSkip(s, |s|, pat, rep);
    assert s[..|s|] == s;
    assert s[|s|..] == [];
    assert s + [] == s;
  }

  /**
   * A template holding the pattern exactly once: the result is the text
   * before it, then `rep`, then the text after it.
   */
  lemma ReplaceAllSingle(p: string, q: string, pat: string, rep: string)
    requires pat != []
    requires forall i :: 0 <= i < |p| ==> !OccursAt(p + pat + q, pat, i)
    requires !Occurs(q, pat)
    ensures ReplaceAll(p + pat + q, pat, rep) == p + rep + q
    ensures Count(p + pat + q, pat) == 1
  {
    var s := p + pat + q;
    assert s[|p|..] == pat + q;
    assert OccursAt(s, pat, |p|);
    ReplaceAllSplit(s, pat, rep, |p|);
    assert s[..|p|] == p;
    assert s[|p| + |pat|..] == q;
    CountZeroIffAbsent(q, pat);
    ReplaceAllWithoutMatch(q, pat, rep);
  }

  /**
   * No occurrence of the pattern is left when the replacement is non-empty
   * and shares no character with the pattern.
   */
  lemma {:induction false} ReplaceAllLeavesNoMatch(s: string, pat: string, rep: string)
    requires pat != [] && rep != []
    requires forall k :: 0 <= k < |rep| ==> rep[k] !in pat
    ensures !Occurs(ReplaceAll(s, pat, rep), pat)
    decreases |s|
  {
    var j := FirstMatch(s, pat);
    if j < |s| {
      ReplaceAllSplit(s, pat, rep, j);
      var t := s[j + |pat|..];
      ReplaceAllLeavesNoMatch(t, pat, rep);
      NoMatchBeforeFirst(s, pat);
      NoMatchAroundReplacement(s[..j], rep, ReplaceAll(t, pat, rep), pat);
    } else {
      ReplaceAllPastLastMatch(s, pat, rep);
      NoMatchBeforeFirst(s, pat);
    }
  }

  /**
   * No occurrence starts in the text before the first match; when there is
   * no match, none occurs at all.
   */
  lemma NoMatchBeforeFirst(s: string, pat: string)
    requires pat != []
    ensures forall i :: 0 <= i < FirstMatch(s, pat) ==> !OccursAt(s[..FirstMatch(s, pat)], pat, i)
    ensures FirstMatch(s, pat) == |s| ==> !Occurs(s, pat)
  {
    var j := FirstMatch(s, pat);
    assert s == s[..j] + s[j..];
    forall i | 0 <= i < j
      ensures !OccursAt(s[..j], pat, i)
    {
      if OccursAt(s[..j], pat, i) {
        OccursInPrefix(s[..j], s[j..], pat, i);
      }
    }
    if j == |s| {
      assert !OccursAt(s, pat, |s|);
    }
  }

  /** An occurrence in `p` is an occurrence in every extension of `p`. */
  lemma OccursInPrefix(p: string, x: string, pat: string, i: nat)
    requires OccursAt(p, pat, i)
    ensures OccursAt(p + x, pat, i)
  {
    assert (p + x)[i..] == p[i..] + x;
  }

  /**
   * The text before a replacement, free of any occurrence, the replacement
   * itself, and a remainder free of any occurrence, together hold none.
   */
  lemma NoMatchAroundReplacement(p: string, rep: string, r': string, pat: string)
    requires pat != [] && rep != []
    requires forall k :: 0 <= k < |rep| ==> rep[k] !in pat
    requires forall i :: 0 <= i < |p| ==> !OccursAt(p, pat, i)
    requires !Occurs(r', pat)
    ensures !Occurs(p + rep + r', pat)
  {
    var r := p + rep + r';
    if Occurs(r, pat) {
      var i: nat :| i <= |r| && OccursAt(r, pat, i);
      NoMatchAcrossReplacement(p, rep, r', pat, i);
      if i + |pat| <= |p| {
        forall k | 0 <= k < |pat|
          ensures pat[k] == p[i..][k]
        {
          CharOfOccurrence(r, pat, i, i + k);
        }
        assert OccursAt(p, pat, i);
      }
      assert false;
    }
  }

  /**
   * The step of the proof above: an occurrence in `p + rep + r'` must start in
   * `p` and end there, or start in `r'`.
   */
  lemma NoMatchAcrossReplacement(p: string, rep: string, r': string, pat: string, i: nat)
    requires pat != [] && rep != []
    requires forall k :: 0 <= k < |rep| ==> rep[k] !in pat
    requires OccursAt(p + rep + r', pat, i)
    ensures i + |pat| <= |p| || (i >= |p| + |rep| && OccursAt(r', pat, i - |p| - |rep|))
  {
    var r := p + rep + r';
    if i < |p| + |rep| && i + |pat| > |p| {
      var m := if i < |p| then |p| else i;
      CharOfOccurrence(r, pat, i, m);
      assert false;
    } else if i >= |p| + |rep| {
      assert r[i..] == r'[i - |p| - |rep|..];
    }
  }

  lemma CharOfOccurrence(r: string, pat: string, i: nat, m: nat)
    requires OccursAt(r, pat, i) && i <= m < i + |pat|
    ensures m < |r| && pat[m - i] == r[m]
  {
    assert pat[m - i] == r[i..][m - i];
  }

  /**
   * A replacement that merely does not contain the pattern can still leave
   * one behind: matches are taken left to right and the text around a
   * replacement can join up into a new occurrence.
   */
  lemma ReplaceAllCanLeaveMatch()
    ensures ReplaceAll("aabb", "ab", "a") == "aab"
    ensures Occurs(ReplaceAll("aabb", "ab", "a"), "ab")
  {
    var s := "aabb";
    assert s[1] == 'a' != "ab"[1];
    assert !("ab" <= s);
    assert s[1..] == "abb";
    assert "ab" <= s[1..];
    assert s[1..][2..] == "b";
    assert ReplaceAll("b", "ab", "a") == "b" by {
      assert !("ab" <= "b");
      assert "b"[1..] == [];
    }
    assert OccursAt("aab", "ab", 1) by {
      assert "aab"[1..] == "ab";
    }
  }
}
