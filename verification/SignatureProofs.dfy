/** Which log lines share a cache entry: what the signature ignores and what it never ignores, for words
    at any place of a line. */
module SignatureProofs {
  import opened Options
  import opened Text
  import opened FuzzyCaching

  // ---------- kept words of a line, part by part ----------

  lemma {:induction false} KeptConcat(a: seq<string>, b: seq<string>)
    ensures Kept(a + b) == Kept(a) + Kept(b)
  {
    if b == [] {
      assert a + b == a;
    } else {
      var n := |b| - 1;
      KeptConcat(a, b[..n]);
      assert (a + b)[..|a| + n] == a + b[..n];
      Associates(Kept(a), Kept(b[..n]), if IsVolatile(b[n]) then [] else [b[n]]);
    }
  }

  lemma {:induction false} JoinedConcat(a: seq<string>, b: seq<string>)
    ensures Joined(a + b) == Joined(a) + Joined(b)
  {
    if b == [] {
      assert a + b == a;
    } else {
      var n := |b| - 1;
      JoinedConcat(a, b[..n]);
      assert b == b[..n] + [b[n]] && a + b == (a + b[..n]) + [b[n]];
      JoinedOneMore(a + b[..n], b[n]);
      JoinedOneMore(b[..n], b[n]);
      Associates(Joined(a), Joined(b[..n]), b[n]);
    }
  }

  predicate NoSpace(s: string) {
    forall i :: 0 <= i < |s| ==> !IsSpace(s[i])
  }

  predicate IsWord(s: string) {
    s != "" && NoSpace(s)
  }

  /** Two parts of a line with white space between them, which may be missing at an end of the line. */
  predicate Separated(a: string, gap: string, b: string) {
    AllSpace(gap) && (a == "" || b == "" || gap != "")
  }

  /** A word has its place between `a` and `b`: at the start, inside, or at the end of a line. */
  predicate Placed(a: string, gap: string, gap': string, b: string) {
    AllSpace(gap) && AllSpace(gap') && (a == "" || gap != "") && (b == "" || gap' != "")
  }

  lemma KeptAcrossSpace(a: string, gap: string, b: string)
    requires Separated(a, gap, b)
    ensures KeptWords(a + gap + b) == KeptWords(a) + KeptWords(b)
  {
    if gap == "" {
      assert a + gap + b == if a == "" then b else a;
    } else {
      LowerConcat(a + gap, b);
      LowerConcat(a, gap);
      LowerKeepsSpaces(gap);
      assert a + gap + b == a + (gap + b);
      assert Lower(a) + Lower(gap) + Lower(b) == Lower(a) + (Lower(gap) + Lower(b));
      WordsAcrossSpace(Lower(a), Lower(gap), Lower(b), 0);
      KeptConcat(Words(Lower(a)), Words(Lower(b)));
    }
  }

  lemma {:induction false} WordEndOfWord(word: string, i: nat)
    requires i <= |word| && NoSpace(word)
    ensures WordEnd(word, i) == |word|
    decreases |word| - i
  {
    if i < |word| {
      WordEndOfWord(word, i + 1);
    }
  }

  lemma OneWord(word: string)
    requires IsWord(word)
    ensures Words(word) == [word]
  {
    assert SkipSpace(word, 0) == 0;
    WordEndOfWord(word, 0);
    assert word[0..|word|] == word;
    assert NextWord(word, 0) == Some((word, |word|));
    assert NextWord(word, |word|) == None;
    assert WordsFrom(word, |word|) == [];
    assert [word] + [] == [word];
  }

  /** A word is kept in lower case, or not at all. */
  lemma KeptOfWord(word: string)
    requires IsWord(word)
    ensures KeptWords(word) == if IsVolatile(Lower(word)) then [] else [Lower(word)]
  {
    LowerKeepsSpaces(word);
    OneWord(Lower(word));
    KeptOneMore([Lower(word)], 0);
    assert [Lower(word)][..1] == [Lower(word)] && [Lower(word)][..0] == [];
  }

  /** The text that is hashed, with a word at any place of the line. */
  lemma WordInLine(a: string, gap: string, word: string, gap': string, b: string)
    requires Placed(a, gap, gap', b) && word != ""
    ensures Joined(KeptWords(a + gap + word + gap' + b)) == Joined(KeptWords(a)) + Joined(KeptWords(word)) + Joined(KeptWords(b))
  {
    KeptAcrossSpace(a + gap + word, gap', b);
    KeptAcrossSpace(a, gap, word);
    JoinedConcat(KeptWords(a) + KeptWords(word), KeptWords(b));
    JoinedConcat(KeptWords(a), KeptWords(word));
  }

  lemma JoinedOne(word: string)
    ensures Joined([word]) == word
  {
    assert [word][..0] == [];
  }

  // ---------- what is ignored ----------

  /** Lines that differ only in letter case share a signature. */
  lemma CaseDoesNotMatter(a: string, b: string)
    requires Lower(a) == Lower(b)
    ensures Signature(a) == Signature(b)
  {
  }

  /** The amount and kind of white space between words does not matter. */
  lemma SpacingDoesNotMatter(a: string, gap: string, gap': string, b: string)
    requires Separated(a, gap, b) && Separated(a, gap', b)
    ensures Signature(a + gap + b) == Signature(a + gap' + b)
  {
    KeptAcrossSpace(a, gap, b);
    KeptAcrossSpace(a, gap', b);
  }

  /** Inserting a volatile word does not matter, wherever in the line it is put. */
  lemma VolatileWordsDoNotMatter(a: string, gap: string, word: string, gap': string, b: string, gap'': string)
    requires Placed(a, gap, gap', b) && IsWord(word) && Separated(a, gap'', b)
    requires Contains(Lower(word), "pod-") || Contains(Lower(word), "127.0.0.1") || Contains(Lower(word), "time=")
    ensures Signature(a + gap + word + gap' + b) == Signature(a + gap'' + b)
  {
    KeptAcrossSpace(a + gap + word, gap', b);
    KeptAcrossSpace(a, gap, word);
    KeptAcrossSpace(a, gap'', b);
    KeptOfWord(word);
    assert KeptWords(a) + [] == KeptWords(a);
  }

  /** The lines that the injector writes start with their time, and it does not matter. */
  lemma InjectedTimesShare(time: string, time': string, rest: string)
    requires NoSpace(time) && NoSpace(time')
    ensures Signature("TIME=" + time + " " + rest) == Signature("TIME=" + time' + " " + rest)
  {
    LeadingTime(time, rest);
    LeadingTime(time', rest);
  }

  lemma TimeIsVolatile(time: string)
    ensures Contains(Lower("TIME=" + time), "time=")
  {
    LowerConcat("TIME=", time);
    assert Lower("TIME=") == "time=";
    ContainsInfix("", "time=", Lower(time));
    assert "" + "time=" + Lower(time) == Lower("TIME=" + time);
  }

  lemma AtStart(word: string, rest: string)
    ensures "" + "" + word + " " + rest == word + " " + rest
    ensures "" + "" + rest == rest
  {
  }

  lemma LeadingTime(time: string, rest: string)
    requires NoSpace(time)
    ensures Signature("TIME=" + time + " " + rest) == Signature(rest)
  {
    var word := "TIME=" + time;
    TimeIsVolatile(time);
    VolatileWordsDoNotMatter("", "", word, " ", rest, "");
    AtStart(word, rest);
  }

  // ---------- what is never ignored ----------

  /** Lines whose joined kept words differ in exactly one byte never share a signature. */
  lemma OneKeptByteApart(line: string, line': string, a: string, x: char, y: char, z: string)
    requires Joined(KeptWords(line)) == a + [x] + z && Joined(KeptWords(line')) == a + [y] + z
    requires Byte(x) != Byte(y)
    ensures Signature(line) != Signature(line')
  {
    OneByteApart(a, x, y, z);
  }

  lemma Surround(before: string, u: string, x: char, v: string, after: string)
    ensures before + (u + [x] + v) + after == (before + u) + [x] + (v + after)
  {
  }

  /** Two words that differ in one byte, at any place of a line: the lines share a signature exactly when
      the words are volatile. */
  lemma HostsApart(a: string, gap: string, one: string, two: string, gap': string, b: string, u: string, x: char, y: char, v: string)
    requires Placed(a, gap, gap', b) && IsWord(one) && IsWord(two)
    requires Lower(one) == u + [x] + v && Lower(two) == u + [y] + v && Byte(x) != Byte(y)
    requires IsVolatile(Lower(one)) == IsVolatile(Lower(two))
    ensures Signature(a + gap + one + gap' + b) == Signature(a + gap + two + gap' + b) <==> IsVolatile(Lower(one))
  {
    WordInLine(a, gap, one, gap', b);
    WordInLine(a, gap, two, gap', b);
    KeptOfWord(one);
    KeptOfWord(two);
    if !IsVolatile(Lower(one)) {
      JoinedOne(Lower(one));
      JoinedOne(Lower(two));
      var before, after := Joined(KeptWords(a)), Joined(KeptWords(b));
      Surround(before, u, x, v, after);
      Surround(before, u, y, v, after);
      OneKeptByteApart(a + gap + one + gap' + b, a + gap + two + gap' + b, before + u, x, y, v + after);
    }
  }

  /** The example of the project's README, as a word of its own or inside one: the same log from gateway-01
      and from gateway-02 does not share a cache entry. */
  lemma GatewaysApart(a: string, gap: string, p: string, q: string, gap': string, b: string)
    requires Placed(a, gap, gap', b) && NoSpace(p) && NoSpace(q)
    requires !IsVolatile(Lower(p + "gateway-01" + q)) && !IsVolatile(Lower(p + "gateway-02" + q))
    ensures Signature(a + gap + (p + "gateway-01" + q) + gap' + b) != Signature(a + gap + (p + "gateway-02" + q) + gap' + b)
  {
    var one, two := p + "gateway-01" + q, p + "gateway-02" + q;
    LowerAround(p, "gateway-01", q);
    LowerAround(p, "gateway-02", q);
    assert Lower("gateway-01") == "gateway-0" + ['1'] && Lower("gateway-02") == "gateway-0" + ['2'];
    assert Lower(one) == (Lower(p) + "gateway-0") + ['1'] + Lower(q);
    assert Lower(two) == (Lower(p) + "gateway-0") + ['2'] + Lower(q);
    HostsApart(a, gap, one, two, gap', b, Lower(p) + "gateway-0", '1', '2', Lower(q));
  }

  lemma LowerAround(p: string, s: string, q: string)
    ensures Lower(p + s + q) == Lower(p) + Lower(s) + Lower(q)
  {
    LowerConcat(p + s, q);
    LowerConcat(p, s);
  }

  lemma PrefixChars(s: string, sub: string, c: char)
    requires StartsWith(s, sub) && c in sub
    ensures c in s
  {
  }

  lemma MissingChar(s: string, sub: string, c: char)
    requires c in sub && c !in s
    ensures !Contains(s, sub)
  {
    if i :| 0 <= i <= |s| && StartsWith(s[i..], sub) {
      PrefixChars(s[i..], sub, c);
      assert false;
    }
  }

  lemma SourceKept(word: string)
    requires word == "SOURCE=gateway-01" || word == "SOURCE=gateway-02"
    ensures !IsVolatile(Lower(word))
  {
    assert "pod-"[0] == 'p' && "127.0.0.1"[2] == '7' && "time="[2] == 'm';
    MissingChar(Lower(word), "pod-", 'p');
    MissingChar(Lower(word), "127.0.0.1", '7');
    MissingChar(Lower(word), "time=", 'm');
  }

  lemma AtEnd(line: string, word: string)
    ensures line + " " + word + "" + "" == line + " " + word
  {
  }

  /** And so for the last word of every line that the injector writes. */
  lemma SourcesApart(line: string)
    ensures Signature(line + " " + "SOURCE=gateway-01") != Signature(line + " " + "SOURCE=gateway-02")
  {
    var one, two := "SOURCE=gateway-01", "SOURCE=gateway-02";
    SourceKept(one);
    SourceKept(two);
    assert "SOURCE=" + "gateway-01" + "" == one && "SOURCE=" + "gateway-02" + "" == two;
    GatewaysApart(line, " ", "SOURCE=", "", "", "");
    AtEnd(line, one);
    AtEnd(line, two);
  }

  // ---------- what goes unnoticed ----------

  lemma PairInLine(a: string, gap: string, u: string, m: string, v: string, gap': string, b: string)
    requires Placed(a, gap, gap', b) && m != "" && AllSpace(m)
    requires IsWord(u) && IsWord(v) && !IsVolatile(Lower(u)) && !IsVolatile(Lower(v))
    ensures Joined(KeptWords(a + gap + (u + m + v) + gap' + b)) == Joined(KeptWords(a)) + Lower(u + v) + Joined(KeptWords(b))
  {
    WordInLine(a, gap, u + m + v, gap', b);
    KeptAcrossSpace(u, m, v);
    KeptOfWord(u);
    KeptOfWord(v);
    JoinedConcat([Lower(u)], [Lower(v)]);
    JoinedOne(Lower(u));
    JoinedOne(Lower(v));
    LowerConcat(u, v);
  }

  /** Kept words are joined without a separator: two lines that differ only in where two neighbouring kept
      words are divided share a signature. */
  lemma BoundaryGoesUnnoticed(a: string, gap: string, u: string, m: string, v: string, u': string, m': string, v': string,
      gap': string, b: string)
    requires Placed(a, gap, gap', b) && m != "" && AllSpace(m) && m' != "" && AllSpace(m')
    requires IsWord(u) && IsWord(v) && !IsVolatile(Lower(u)) && !IsVolatile(Lower(v))
    requires IsWord(u') && IsWord(v') && !IsVolatile(Lower(u')) && !IsVolatile(Lower(v'))
    requires u + v == u' + v'
    ensures Signature(a + gap + (u + m + v) + gap' + b) == Signature(a + gap + (u' + m' + v') + gap' + b)
  {
    PairInLine(a, gap, u, m, v, gap', b);
    PairInLine(a, gap, u', m', v', gap', b);
  }
}
