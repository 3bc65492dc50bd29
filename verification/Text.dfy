/** Byte strings as the C++ tokenizer and the Go cache see them: ASCII lower-casing,
    white-space splitting and substring search. A `char` stands for one byte. */
module Text {

  import opened Options

  // ---------- lower case ----------

  predicate IsUpper(c: char) {
    'A' <= c <= 'Z'
  }

  /** Lower case as the C locale has it, one letter after the other. */
  lemma LettersLowered()
    ensures Lower("ABCDEFGHIJKLM") == "abcdefghijklm"
    ensures Lower("NOPQRSTUVWXYZ") == "nopqrstuvwxyz"
  {
  }

  /** Nothing else is changed. */
  lemma OthersKept(c: char)
    ensures Lower([c]) != [c] ==> c in "ABCDEFGHIJKLMNOPQRSTUVWXYZ"
  {
    if IsUpper(c) {
      assert "ABCDEFGHIJKLMNOPQRSTUVWXYZ"[c as int - 65] == c;
    }
  }

  function LowerChar(c: char): char {
    if IsUpper(c) then (c as int + 32) as char else c
  }

  function Lower(s: string): (r: string)
    ensures |r| == |s|
  {
    seq(|s|, i requires 0 <= i < |s| => LowerChar(s[i]))
  }

  predicate NoUpper(s: string) {
    forall i :: 0 <= i < |s| ==> !IsUpper(s[i])
  }

  // ---------- words ----------

  predicate IsSpace(c: char) {
    c == ' ' || 9 <= c as int <= 13
  }

  /** White space as the C locale has it. */
  lemma SpacesAre(c: char)
    ensures IsSpace(c) <==> c in [' ', '\t', '\n', '\U{000B}', '\U{000C}', '\r']
  {
    assert '\t' as int == 9 && '\n' as int == 10 && '\U{000B}' as int == 11 && '\U{000C}' as int == 12 && '\r' as int == 13;
  }

  /** The first position at or after `i` that holds no space. */
  function SkipSpace(s: string, i: nat): (b: nat)
    requires i <= |s|
    ensures i <= b <= |s|
    ensures b < |s| ==> !IsSpace(s[b])
    decreases |s| - i
  {
    if i < |s| && IsSpace(s[i]) then SkipSpace(s, i + 1) else i
  }

  /** The first position at or after `i` that holds a space, or the end. */
  function WordEnd(s: string, i: nat): (e: nat)
    requires i <= |s|
    ensures i <= e <= |s|
    ensures i < |s| && !IsSpace(s[i]) ==> i < e
    decreases |s| - i
  {
    if i < |s| && !IsSpace(s[i]) then WordEnd(s, i + 1) else i
  }

  /** What one `stream >> word` does from position `i`: the word and the new position. */
  function NextWord(s: string, i: nat): (r: Option<(string, nat)>)
    requires i <= |s|
    ensures r.Some? ==> i < r.value.1 <= |s| && r.value.0 != ""
  {
    var b := SkipSpace(s, i);
    if b == |s| then None else Some((s[b..WordEnd(s, b)], WordEnd(s, b)))
  }

  function WordsFrom(s: string, i: nat): seq<string>
    requires i <= |s|
    decreases |s| - i
  {
    match NextWord(s, i)
    case None => []
    case Some(next) => [next.0] + WordsFrom(s, next.1)
  }

  function Words(s: string): seq<string> {
    WordsFrom(s, 0)
  }

  lemma {:induction false} WordEndCovers(s: string, i: nat)
    requires i <= |s|
    ensures forall k :: i <= k < WordEnd(s, i) ==> !IsSpace(s[k])
    decreases |s| - i
  {
    if i < |s| && !IsSpace(s[i]) {
      WordEndCovers(s, i + 1);
    }
  }

  lemma {:induction false} WordsHaveNoSpace(s: string, i: nat)
    requires i <= |s|
    ensures forall w :: w in WordsFrom(s, i) ==> w != "" && forall k :: 0 <= k < |w| ==> !IsSpace(w[k])
    decreases |s| - i
  {
    WordEndCovers(s, SkipSpace(s, i));
    match NextWord(s, i)
    case None =>
    case Some(next) => WordsHaveNoSpace(s, next.1);
  }

  lemma {:induction false} SkipSpaceShift(a: string, b: string, i: nat)
    requires i <= |b|
    ensures SkipSpace(a + b, |a| + i) == |a| + SkipSpace(b, i)
    decreases |b| - i
  {
    if i < |b| && IsSpace(b[i]) {
      SkipSpaceShift(a, b, i + 1);
    }
  }

  lemma {:induction false} WordEndShift(a: string, b: string, i: nat)
    requires i <= |b|
    ensures WordEnd(a + b, |a| + i) == |a| + WordEnd(b, i)
    decreases |b| - i
  {
    if i < |b| && !IsSpace(b[i]) {
      WordEndShift(a, b, i + 1);
    }
  }

  lemma NextWordShift(a: string, b: string, i: nat)
    requires i <= |b|
    ensures NextWord(b, i).None? ==> NextWord(a + b, |a| + i).None?
    ensures NextWord(b, i).Some? ==> NextWord(a + b, |a| + i) == Some((NextWord(b, i).value.0, |a| + NextWord(b, i).value.1))
  {
    SkipSpaceShift(a, b, i);
    var p := SkipSpace(b, i);
    WordEndShift(a, b, p);
    assert (a + b)[|a| + p..|a| + WordEnd(b, p)] == b[p..WordEnd(b, p)];
  }

  /** Two texts that yield the same next word, and the same words after it, yield the same words. */
  lemma SameNextSameWords(s: string, i: nat, t: string, j: nat)
    requires i <= |s| && j <= |t|
    requires NextWord(s, i).None? == NextWord(t, j).None?
    requires NextWord(s, i).Some? ==> NextWord(s, i).value.0 == NextWord(t, j).value.0
    requires NextWord(s, i).Some? ==> WordsFrom(s, NextWord(s, i).value.1) == WordsFrom(t, NextWord(t, j).value.1)
    ensures WordsFrom(s, i) == WordsFrom(t, j)
  {
  }

  /** Splitting looks only at what follows the position it starts from. */
  lemma {:induction false} WordsOfSuffix(a: string, b: string, i: nat)
    requires i <= |b|
    ensures WordsFrom(a + b, |a| + i) == WordsFrom(b, i)
    decreases |b| - i
  {
    var s := a + b;
    NextWordShift(a, b, i);
    if NextWord(b, i).Some? {
      WordsOfSuffix(a, b, NextWord(b, i).value.1);
    }
    SameNextSameWords(s, |a| + i, b, i);
  }

  predicate AllSpace(s: string) {
    forall k :: 0 <= k < |s| ==> IsSpace(s[k])
  }

  /** Text after the next space does not change where the current word ends. */
  lemma {:induction false} WordEndPrefix(a: string, z: string, i: nat)
    requires i <= |a|
    requires z != "" && IsSpace(z[0])
    ensures WordEnd(a + z, i) == WordEnd(a, i)
    decreases |a| - i
  {
    if i < |a| && !IsSpace(a[i]) {
      WordEndPrefix(a, z, i + 1);
    }
  }

  lemma {:induction false} SkipSpacePrefix(a: string, z: string, i: nat)
    requires i <= |a|
    ensures SkipSpace(a + z, i) == if SkipSpace(a, i) < |a| then SkipSpace(a, i) else SkipSpace(a + z, |a|)
    decreases |a| - i
  {
    if i < |a| && IsSpace(a[i]) {
      SkipSpacePrefix(a, z, i + 1);
    }
  }

  lemma {:induction false} SkipGap(gap: string, b: string, i: nat)
    requires i <= |gap| && AllSpace(gap)
    ensures SkipSpace(gap + b, i) == SkipSpace(gap + b, |gap|)
    decreases |gap| - i
  {
    if i < |gap| {
      SkipGap(gap, b, i + 1);
    }
  }

  lemma NextWordPrefix(a: string, z: string, i: nat)
    requires i <= |a| && SkipSpace(a, i) < |a|
    requires z != "" && IsSpace(z[0])
    ensures NextWord(a, i).Some? && NextWord(a + z, i) == NextWord(a, i)
  {
    var p := SkipSpace(a, i);
    SkipSpacePrefix(a, z, i);
    WordEndPrefix(a, z, p);
    assert (a + z)[p..WordEnd(a, p)] == a[p..WordEnd(a, p)];
  }

  lemma SameSkipSameWords(s: string, i: nat, j: nat)
    requires i <= |s| && j <= |s| && SkipSpace(s, i) == SkipSpace(s, j)
    ensures WordsFrom(s, i) == WordsFrom(s, j)
  {
  }

  lemma WordsAfterGap(gap: string, b: string)
    requires AllSpace(gap)
    ensures WordsFrom(gap + b, 0) == Words(b)
  {
    SkipGap(gap, b, 0);
    SameSkipSameWords(gap + b, 0, |gap|);
    WordsOfSuffix(gap, b, 0);
  }

  lemma OneWordMore(s: string, i: nat, t: string, words: seq<string>)
    requires i <= |s| && i <= |t| && NextWord(s, i).Some? && NextWord(t, i) == NextWord(s, i)
    requires WordsFrom(t, NextWord(s, i).value.1) == WordsFrom(s, NextWord(s, i).value.1) + words
    ensures WordsFrom(t, i) == WordsFrom(s, i) + words
  {
    var (word, next) := NextWord(s, i).value;
    Associates([word], WordsFrom(s, next), words);
  }

  lemma OnlySpaceLeft(s: string, i: nat)
    requires i <= |s| && SkipSpace(s, i) == |s|
    ensures WordsFrom(s, i) == []
  {
  }

  lemma WordsBeyond(a: string, z: string, i: nat)
    requires i <= |a| && SkipSpace(a + z, i) == SkipSpace(a + z, |a|)
    ensures WordsFrom(a + z, i) == Words(z)
  {
    SameSkipSameWords(a + z, i, |a|);
    WordsOfSuffix(a, z, 0);
  }

  /** A run of spaces splits a text: the words before it, then the words after it. */
  lemma {:induction false} WordsAcrossSpace(a: string, gap: string, b: string, i: nat)
    requires i <= |a| && gap != "" && AllSpace(gap)
    ensures WordsFrom(a + (gap + b), i) == WordsFrom(a, i) + Words(b)
    decreases |a| - i
  {
    var z := gap + b;
    SkipSpacePrefix(a, z, i);
    if SkipSpace(a, i) < |a| {
      NextWordPrefix(a, z, i);
      WordsAcrossSpace(a, gap, b, NextWord(a, i).value.1);
      OneWordMore(a, i, a + z, Words(b));
    } else {
      OnlySpaceLeft(a, i);
      WordsBeyond(a, z, i);
      WordsAfterGap(gap, b);
    }
  }

  lemma LowerKeepsSpaces(s: string)
    ensures forall i :: 0 <= i < |s| ==> IsSpace(Lower(s)[i]) == IsSpace(s[i])
  {
  }

  lemma LowerConcat(a: string, b: string)
    ensures Lower(a + b) == Lower(a) + Lower(b)
  {
  }

  // ---------- substrings ----------

  predicate StartsWith(s: string, prefix: string) {
    |prefix| <= |s| && s[..|prefix|] == prefix
  }

  /** `strings.Contains`. */
  predicate Contains(s: string, sub: string) {
    exists i :: 0 <= i <= |s| && StartsWith(s[i..], sub)
  }

  lemma ContainsInfix(a: string, sub: string, b: string)
    ensures Contains(a + sub + b, sub)
  {
    assert (a + sub + b)[|a|..] == sub + b;
    assert StartsWith((a + sub + b)[|a|..], sub);
  }

  /** One text contains another exactly when it is something, then the other, then something. */
  lemma ContainsExactly(s: string, sub: string)
    ensures Contains(s, sub) <==> exists a, b :: s == a + sub + b
  {
    if Contains(s, sub) {
      var i :| 0 <= i <= |s| && StartsWith(s[i..], sub);
      assert s == s[..i] + sub + s[i + |sub|..];
    }
    if a, b :| s == a + sub + b {
      ContainsInfix(a, sub, b);
    }
  }
}
