/** What the tokenizer is for: the greedy split is the longest-match split and the best one,
    the ids have a fixed shape, and the word list can be read back from the ids. */
module TokenizingProofs {
  import opened Options
  import opened Text
  import opened Tokenizing

  // ---------- the loaded vocabulary ----------

  /** A line holds a word on its own, or followed by one carriage return. */
  predicate HoldsWord(line: string, w: string) {
    line == w + "\r" || (line == w && (w == "" || w[|w| - 1] != '\r'))
  }

  lemma StripCrExact(line: string, w: string)
    ensures StripCr(line) == w <==> HoldsWord(line, w)
  {
    if line != "" && line[|line| - 1] == '\r' {
      assert line == line[..|line| - 1] + "\r";
    }
    if line == w + "\r" {
      assert line[..|line| - 1] == w;
    }
  }

  /** `w` is loaded with the number of the last line that holds it. */
  ghost predicate LastLine(lines: seq<string>, w: string, id: int) {
    0 <= id < |lines| && HoldsWord(lines[id], w) && forall i :: id < i < |lines| ==> !HoldsWord(lines[i], w)
  }

  /** A word maps to the last line that holds it, and every line that holds a word is loaded.
      The file line is therefore the inverse of the map. */
  lemma {:induction false} LastLineWins(lines: seq<string>, w: string)
    ensures w in VocabOf(lines) ==> w != "" && LastLine(lines, w, VocabOf(lines)[w])
    ensures w !in VocabOf(lines) && w != "" ==> forall i :: 0 <= i < |lines| ==> !HoldsWord(lines[i], w)
  {
    if lines != [] {
      var n := |lines| - 1;
      StripCrExact(lines[n], w);
      LastLineWins(lines[..n], w);
      assert forall i :: 0 <= i < n ==> lines[..n][i] == lines[i];
    }
  }

  lemma LineOfWord(lines: seq<string>, w: string)
    requires w in VocabOf(lines)
    ensures 0 <= VocabOf(lines)[w] < |lines| && StripCr(lines[VocabOf(lines)[w]]) == w
  {
    LastLineWins(lines, w);
    StripCrExact(lines[VocabOf(lines)[w]], w);
  }

  lemma VocabInjective(lines: seq<string>, v: string, w: string)
    requires v in VocabOf(lines) && w in VocabOf(lines)
    requires VocabOf(lines)[v] == VocabOf(lines)[w]
    ensures v == w
  {
    LineOfWord(lines, v);
    LineOfWord(lines, w);
  }

  // ---------- soundness and completeness of the greedy split ----------

  /** From `start` to `stop` along `cuts`, every piece being the longest known one at its place. */
  ghost predicate LongestWalk(vocab: map<string, int>, word: string, start: nat, cuts: seq<nat>, stop: nat)
    requires start <= |word|
    decreases |cuts|
  {
    if cuts == [] then start == stop
    else
      && start < cuts[0] <= |word|
      && Piece(word, start, cuts[0]) in vocab
      && (forall x {:trigger Piece(word, start, x)} :: cuts[0] < x <= |word| ==> Piece(word, start, x) !in vocab)
      && LongestWalk(vocab, word, cuts[0], cuts[1..], stop)
  }

  ghost predicate NoPieceAt(vocab: map<string, int>, word: string, start: nat)
    requires start <= |word|
  {
    forall x {:trigger Piece(word, start, x)} :: start < x <= |word| ==> Piece(word, start, x) !in vocab
  }

  /** The longest-match walk along `cuts` reaches `stop` before the end and finds no known piece there. */
  ghost predicate StuckAt(vocab: map<string, int>, word: string, start: nat, cuts: seq<nat>, stop: nat)
    requires start <= |word|
  {
    stop < |word| && LongestWalk(vocab, word, start, cuts, stop) && NoPieceAt(vocab, word, stop)
  }

  lemma {:induction false} GreedyIsLongestWalk(vocab: map<string, int>, word: string, start: nat, cuts: seq<nat>)
    requires start <= |word|
    ensures Greedy(vocab, word, start) == Some(cuts) <==> LongestWalk(vocab, word, start, cuts, |word|)
    decreases |word| - start
  {
    var e := LongestEnd(vocab, word, start, |word|);
    if start < |word| && cuts != [] && start < cuts[0] <= |word| {
      GreedyIsLongestWalk(vocab, word, cuts[0], cuts[1..]);
      assert [cuts[0]] + cuts[1..] == cuts;
      if LongestWalk(vocab, word, start, cuts, |word|) {
        assert e == cuts[0];
      }
      if Greedy(vocab, word, start) == Some(cuts) {
        assert ([e] + Greedy(vocab, word, e).value)[1..] == Greedy(vocab, word, e).value;
      }
    }
  }

  /** [UNK] is emitted exactly when the longest-match walk reaches a position with no known piece. */
  lemma {:induction false} UnknownExactly(vocab: map<string, int>, word: string, start: nat)
    requires start <= |word|
    ensures Greedy(vocab, word, start).None? <==>
      exists cuts: seq<nat>, stop: nat :: StuckAt(vocab, word, start, cuts, stop)
    decreases |word| - start
  {
    if Greedy(vocab, word, start).None? {
      var cuts, stop := WalkToStuck(vocab, word, start);
    } else {
      forall cuts: seq<nat>, stop: nat
        ensures !StuckAt(vocab, word, start, cuts, stop)
      {
        if StuckAt(vocab, word, start, cuts, stop) {
          StuckMeansNone(vocab, word, start, cuts, stop);
        }
      }
    }
  }

  lemma {:induction false} WalkToStuck(vocab: map<string, int>, word: string, start: nat) returns (cuts: seq<nat>, stop: nat)
    requires start <= |word| && Greedy(vocab, word, start).None?
    ensures StuckAt(vocab, word, start, cuts, stop)
    decreases |word| - start
  {
    var e := LongestEnd(vocab, word, start, |word|);
    if e == start {
      cuts, stop := [], start;
    } else {
      var rest;
      rest, stop := WalkToStuck(vocab, word, e);
      cuts := [e] + rest;
      assert cuts[1..] == rest;
    }
  }

  lemma {:induction false} StuckMeansNone(vocab: map<string, int>, word: string, start: nat, cuts: seq<nat>, stop: nat)
    requires start <= |word| && StuckAt(vocab, word, start, cuts, stop)
    ensures Greedy(vocab, word, start).None?
    decreases |cuts|
  {
    var e := LongestEnd(vocab, word, start, |word|);
    if cuts == [] {
      assert e == start;
    } else {
      assert e == cuts[0];
      StuckMeansNone(vocab, word, cuts[0], cuts[1..], stop);
    }
  }

  /** A word whose every character is known on its own, plain at the front and marked elsewhere, never becomes [UNK]. */
  lemma {:induction false} CoveredIsKnown(vocab: map<string, int>, word: string, start: nat)
    requires start <= |word|
    requires forall i {:trigger Piece(word, i, i + 1)} :: 0 <= i < |word| ==> Piece(word, i, i + 1) in vocab
    ensures Greedy(vocab, word, start).Some?
    decreases |word| - start
  {
    if start < |word| {
      assert Piece(word, start, start + 1) in vocab;
      CoveredIsKnown(vocab, word, LongestEnd(vocab, word, start, |word|));
    }
  }

  /** The pieces that `cuts` makes, as looked up. */
  function CutPieces(word: string, start: nat, cuts: seq<nat>): seq<string>
    requires start <= |word|
    decreases |cuts|
  {
    if cuts == [] || !(start <= cuts[0] <= |word|) then []
    else [Piece(word, start, cuts[0])] + CutPieces(word, cuts[0], cuts[1..])
  }

  function Unmarked(pieces: seq<string>, first: bool): string {
    if pieces == [] then ""
    else (if first then pieces[0] else if |pieces[0]| < 2 then "" else pieces[0][2..]) + Unmarked(pieces[1..], false)
  }

  /** The pieces of any split, with the mark taken off all but the first, spell the word. */
  lemma {:induction false} PiecesSpellWord(vocab: map<string, int>, word: string, start: nat, cuts: seq<nat>)
    requires start <= |word| && IsSplit(vocab, word, start, cuts)
    ensures Unmarked(CutPieces(word, start, cuts), start == 0) == word[start..]
    decreases |cuts|
  {
    if cuts != [] {
      var c := cuts[0];
      PiecesSpellWord(vocab, word, c, cuts[1..]);
      assert CutPieces(word, start, cuts)[1..] == CutPieces(word, c, cuts[1..]);
      assert word[start..] == word[start..c] + word[c..];
    }
  }

  // ---------- greedy is optimal ----------

  /** Dropping the first character of a marked piece leaves a marked piece. */
  ghost predicate SuffixClosed(vocab: map<string, int>) {
    forall s: string :: |s| >= 2 && "##" + s in vocab ==> "##" + s[1..] in vocab
  }

  lemma {:induction false} SuffixClosedPiece(vocab: map<string, int>, word: string, a: nat, b: nat, end: nat)
    requires SuffixClosed(vocab)
    requires a <= b < end <= |word| && 0 < b
    requires a > 0 || a == b
    requires a > 0 ==> Piece(word, a, end) in vocab
    ensures a > 0 ==> Piece(word, b, end) in vocab
    decreases b - a
  {
    if 0 < a < b {
      var s := word[a..end];
      assert "##" + s in vocab && s[1..] == word[a + 1..end];
      SuffixClosedPiece(vocab, word, a + 1, b, end);
    }
  }

  /** Starting further to the right never needs more pieces. */
  lemma {:induction false} SplitFromFurther(vocab: map<string, int>, word: string, a: nat, cuts: seq<nat>, g: nat)
    returns (rest: seq<nat>)
    requires SuffixClosed(vocab)
    requires 0 < a <= g <= |word| && IsSplit(vocab, word, a, cuts)
    ensures IsSplit(vocab, word, g, rest) && |rest| <= |cuts|
    decreases |cuts|
  {
    if cuts == [] {
      rest := [];
    } else if cuts[0] <= g {
      rest := SplitFromFurther(vocab, word, cuts[0], cuts[1..], g);
    } else {
      SuffixClosedPiece(vocab, word, a, g, cuts[0]);
      rest := cuts;
    }
  }

  /** When the marked vocabulary is closed under dropping leading characters, the greedy split
      succeeds whenever any split exists, and none has fewer pieces. */
  lemma {:induction false} GreedyOptimal(vocab: map<string, int>, word: string, start: nat, cuts: seq<nat>)
    requires SuffixClosed(vocab)
    requires start <= |word| && IsSplit(vocab, word, start, cuts)
    ensures Greedy(vocab, word, start).Some? && |Greedy(vocab, word, start).value| <= |cuts|
    decreases |word| - start
  {
    if cuts != [] {
      var e := LongestEnd(vocab, word, start, |word|);
      assert cuts[0] <= e;
      var rest := SplitFromFurther(vocab, word, cuts[0], cuts[1..], e);
      GreedyOptimal(vocab, word, e, rest);
    }
  }

  /** Without that closure it can fail: "abc" splits as a|##bc, but greedy takes "ab" and is stuck. */
  lemma GreedyNeedsClosure()
    ensures var vocab := map["a" := 1, "ab" := 2, "##bc" := 3];
      && IsSplit(vocab, "abc", 0, [1, 3])
      && Greedy(vocab, "abc", 0).None?
  {
    var vocab := map["a" := 1, "ab" := 2, "##bc" := 3];
    assert Piece("abc", 0, 1) == "a";
    assert Piece("abc", 1, 3) == "##bc";
    assert [1, 3][1..] == [3] && [3][1..] == [];
    assert IsSplit(vocab, "abc", 3, []);
    assert IsSplit(vocab, "abc", 1, [3]);
    assert Piece("abc", 0, 3) == "abc";
    assert Piece("abc", 0, 2) == "ab";
    assert Piece("abc", 2, 3) == "##c" && "##c" !in vocab;
    assert LongestEnd(vocab, "abc", 0, 3) == 2;
    assert LongestEnd(vocab, "abc", 2, 3) == 2;
  }

  // ---------- the fixed shape ----------

  lemma FixedShape(vocab: map<string, int>, text: string, maxLength: nat)
    requires maxLength >= 2
    ensures var content := Content(vocab, Words(text));
      var n := Min(|content|, maxLength - 2);
      && Encode(vocab, text, maxLength) == Some([101] + content[..n] + [102] + Zeros(maxLength - 2 - n))
      && |Encode(vocab, text, maxLength).value| == maxLength
  {
    var content := Content(vocab, Words(text));
    var ids := [CLS] + content;
    if |ids| >= maxLength {
      assert ids[..maxLength - 1] == [CLS] + content[..maxLength - 2];
    } else {
      assert content[..|content|] == content;
    }
  }

  // ---------- reading the words back ----------

  /** The four special tokens sit at the ids the code has built in. */
  ghost predicate Specials(lines: seq<string>) {
    && |lines| > 102
    && StripCr(lines[0]) == "[PAD]"
    && StripCr(lines[100]) == "[UNK]"
    && StripCr(lines[101]) == "[CLS]"
    && StripCr(lines[102]) == "[SEP]"
  }

  function TextOf(lines: seq<string>, id: int): string {
    if 0 <= id < |lines| then StripCr(lines[id]) else ""
  }

  function Texts(lines: seq<string>, ids: seq<int>): (r: seq<string>)
    ensures |r| == |ids|
  {
    seq(|ids|, i requires 0 <= i < |ids| => TextOf(lines, ids[i]))
  }

  /** Joins marked pieces to the word before them. */
  function Group(pieces: seq<string>): seq<string> {
    if pieces == [] then []
    else
      var n := |pieces| - 1;
      var before := Group(pieces[..n]);
      if StartsWith(pieces[n], "##") && before != [] then
        before[..|before| - 1] + [before[|before| - 1] + pieces[n][2..]]
      else before + [pieces[n]]
  }

  function UpToSep(ids: seq<int>): seq<int> {
    if ids == [] || ids[0] == SEP then [] else [ids[0]] + UpToSep(ids[1..])
  }

  /** The decoder: skip [CLS], read up to [SEP], look the file lines up, join the pieces. */
  function Decode(lines: seq<string>, ids: seq<int>): seq<string> {
    if ids == [] then [] else Group(Texts(lines, UpToSep(ids[1..])))
  }

  /** How a word shows up in its ids. */
  function Shown(vocab: map<string, int>, word: string): string {
    if Greedy(vocab, Lower(word), 0).Some? then Lower(word) else "[UNK]"
  }

  function ShownWords(vocab: map<string, int>, words: seq<string>): seq<string> {
    seq(|words|, i requires 0 <= i < |words| => Shown(vocab, words[i]))
  }

  lemma TextsConcat(lines: seq<string>, a: seq<int>, b: seq<int>)
    ensures Texts(lines, a + b) == Texts(lines, a) + Texts(lines, b)
  {
  }

  lemma {:induction false} CutIdsSpell(lines: seq<string>, word: string, start: nat, cuts: seq<nat>)
    requires start <= |word| && IsSplit(VocabOf(lines), word, start, cuts)
    ensures Texts(lines, CutIds(VocabOf(lines), word, start, cuts)) == CutPieces(word, start, cuts)
    decreases |cuts|
  {
    if cuts != [] {
      var p, more := Piece(word, start, cuts[0]), CutIds(VocabOf(lines), word, cuts[0], cuts[1..]);
      LineOfWord(lines, p);
      CutIdsSpell(lines, word, cuts[0], cuts[1..]);
      TextsConcat(lines, [VocabOf(lines)[p]], more);
    }
  }

  lemma Marked(s: string)
    ensures StartsWith(s, "##") <==> |s| >= 2 && s[0] == '#' && s[1] == '#'
  {
  }

  lemma GroupMarked(pieces: seq<string>, done: seq<string>, head: string, p: string)
    requires Group(pieces) == done + [head] && StartsWith(p, "##")
    ensures Group(pieces + [p]) == done + [head + p[2..]]
  {
    assert (pieces + [p])[..|pieces|] == pieces;
    assert (done + [head])[..|done|] == done;
  }

  lemma NextPieceText(word: string, start: nat, end: nat)
    requires 0 < start <= end <= |word|
    ensures word[..start] + Piece(word, start, end)[2..] == word[..end]
  {
    assert Piece(word, start, end)[2..] == word[start..end];
  }

  lemma {:induction false} GroupTail(pieces: seq<string>, done: seq<string>, vocab: map<string, int>, word: string, start: nat, cuts: seq<nat>)
    requires 0 < start <= |word| && IsSplit(vocab, word, start, cuts)
    requires Group(pieces) == done + [word[..start]]
    ensures Group(pieces + CutPieces(word, start, cuts)) == done + [word]
    decreases |cuts|
  {
    if cuts == [] {
      assert pieces + [] == pieces && word[..start] == word;
    } else {
      var c := cuts[0];
      var p := Piece(word, start, c);
      GroupMarked(pieces, done, word[..start], p);
      NextPieceText(word, start, c);
      GroupTail(pieces + [p], done, vocab, word, c, cuts[1..]);
      Shift(pieces, p, CutPieces(word, c, cuts[1..]));
    }
  }

  lemma GroupWord(pieces: seq<string>, vocab: map<string, int>, word: string, cuts: seq<nat>)
    requires word != "" && !StartsWith(word, "##") && IsSplit(vocab, word, 0, cuts)
    ensures Group(pieces + CutPieces(word, 0, cuts)) == Group(pieces) + [word]
  {
    var c := cuts[0];
    var p := Piece(word, 0, c);
    var more := pieces + [p];
    assert more[..|pieces|] == pieces;
    Marked(p);
    Marked(word);
    GroupTail(more, Group(pieces), vocab, word, c, cuts[1..]);
    Shift(pieces, p, CutPieces(word, c, cuts[1..]));
  }

  lemma GroupUnknown(pieces: seq<string>)
    ensures Group(pieces + ["[UNK]"]) == Group(pieces) + ["[UNK]"]
  {
    var more := pieces + ["[UNK]"];
    assert more[..|pieces|] == pieces;
    Marked("[UNK]");
  }

  /** The ids of one more word read back as one more shown word. */
  lemma ReadOneWord(lines: seq<string>, ids: seq<int>, word: string)
    requires Specials(lines)
    requires word != "" && !StartsWith(word, "##")
    ensures Group(Texts(lines, ids + WordIds(VocabOf(lines), Lower(word))))
      == Group(Texts(lines, ids)) + [Shown(VocabOf(lines), word)]
  {
    var vocab, low := VocabOf(lines), Lower(word);
    TextsConcat(lines, ids, WordIds(vocab, low));
    GreedySplits(vocab, low, 0);
    match Greedy(vocab, low, 0)
    case Some(cuts) =>
      CutIdsSpell(lines, low, 0, cuts);
      Marked(low);
      Marked(word);
      GroupWord(Texts(lines, ids), vocab, low, cuts);
    case None =>
      assert Texts(lines, [UNK]) == ["[UNK]"];
      GroupUnknown(Texts(lines, ids));
  }

  lemma ShownOneMore(vocab: map<string, int>, words: seq<string>)
    requires words != []
    ensures var n := |words| - 1;
      ShownWords(vocab, words) == ShownWords(vocab, words[..n]) + [Shown(vocab, words[n])]
  {
  }

  lemma {:induction false} ReadContent(lines: seq<string>, words: seq<string>)
    requires Specials(lines)
    requires forall w :: w in words ==> w != "" && !StartsWith(w, "##")
    ensures Group(Texts(lines, Content(VocabOf(lines), words))) == ShownWords(VocabOf(lines), words)
  {
    if words == [] {
      assert Texts(lines, []) == [];
    } else {
      var n := |words| - 1;
      var init, last := words[..n], words[n];
      assert forall w :: w in init ==> w in words;
      assert last in words;
      ReadContent(lines, init);
      ReadOneWord(lines, Content(VocabOf(lines), init), last);
      ShownOneMore(VocabOf(lines), words);
    }
  }

  lemma PieceIsNotSep(word: string, start: nat, end: nat)
    requires start <= end <= |word| && NoUpper(word)
    ensures Piece(word, start, end) != "[SEP]"
  {
    var p := Piece(word, start, end);
    assert NoUpper(p);
    assert IsUpper("[SEP]"[1]);
  }

  /** A lower-case piece is never the upper-case [SEP], so no content id is the [SEP] id. */
  lemma {:induction false} CutIdsNotSep(lines: seq<string>, word: string, start: nat, cuts: seq<nat>)
    requires Specials(lines) && NoUpper(word)
    requires start <= |word| && IsSplit(VocabOf(lines), word, start, cuts)
    ensures SEP !in CutIds(VocabOf(lines), word, start, cuts)
    decreases |cuts|
  {
    if cuts != [] {
      var p := Piece(word, start, cuts[0]);
      LineOfWord(lines, p);
      PieceIsNotSep(word, start, cuts[0]);
      CutIdsNotSep(lines, word, cuts[0], cuts[1..]);
    }
  }

  lemma {:induction false} ContentHasNoSep(lines: seq<string>, words: seq<string>)
    requires Specials(lines)
    ensures SEP !in Content(VocabOf(lines), words)
  {
    if words != [] {
      var n := |words| - 1;
      ContentHasNoSep(lines, words[..n]);
      var low := Lower(words[n]);
      GreedySplits(VocabOf(lines), low, 0);
      if Greedy(VocabOf(lines), low, 0).Some? {
        CutIdsNotSep(lines, low, 0, Greedy(VocabOf(lines), low, 0).value);
      }
    }
  }

  lemma {:induction false} UpToSepStops(a: seq<int>, b: seq<int>)
    requires SEP !in a
    ensures UpToSep(a + [SEP] + b) == a
  {
    if a != [] {
      UpToSepStops(a[1..], b);
      assert (a + [SEP] + b)[1..] == a[1..] + [SEP] + b;
      assert [a[0]] + a[1..] == a;
    }
  }

  lemma Untruncated(vocab: map<string, int>, text: string, maxLength: nat)
    requires |Content(vocab, Words(text))| + 2 <= maxLength
    ensures var content := Content(vocab, Words(text));
      Encode(vocab, text, maxLength) == Some([CLS] + content + [SEP] + Zeros(maxLength - 2 - |content|))
  {
    var content := Content(vocab, Words(text));
    FixedShape(vocab, text, maxLength);
    assert content[..|content|] == content;
  }

  /** Round trip: with the special tokens in place, no word starting with "##" and nothing
      truncated, the ids decode to the lower-cased words, unknown ones shown as [UNK]. */
  lemma EncodeDecode(lines: seq<string>, text: string, maxLength: nat)
    requires Specials(lines)
    requires forall w :: w in Words(text) ==> !StartsWith(w, "##")
    requires |Content(VocabOf(lines), Words(text))| + 2 <= maxLength
    ensures Encode(VocabOf(lines), text, maxLength).Some?
    ensures Decode(lines, Encode(VocabOf(lines), text, maxLength).value) == ShownWords(VocabOf(lines), Words(text))
  {
    var vocab, words := VocabOf(lines), Words(text);
    var content := Content(vocab, words);
    Untruncated(vocab, text, maxLength);
    ContentHasNoSep(lines, words);
    DecodeFramed(lines, content, Zeros(maxLength - 2 - |content|));
    WordsHaveNoSpace(text, 0);
    ReadContent(lines, words);
  }

  /** The decoder finds the content between [CLS] and the first [SEP]. */
  lemma DecodeFramed(lines: seq<string>, content: seq<int>, pad: seq<int>)
    requires SEP !in content
    ensures Decode(lines, [CLS] + content + [SEP] + pad) == Group(Texts(lines, content))
  {
    var ids := [CLS] + content + [SEP] + pad;
    assert ids[1..] == content + [SEP] + pad;
    UpToSepStops(content, pad);
  }

  /** Two untruncated texts with equal ids show the same words. */
  lemma EncodeInjective(lines: seq<string>, a: string, b: string, maxLength: nat)
    requires Specials(lines)
    requires forall w :: w in Words(a) + Words(b) ==> !StartsWith(w, "##")
    requires |Content(VocabOf(lines), Words(a))| + 2 <= maxLength && |Content(VocabOf(lines), Words(b))| + 2 <= maxLength
    requires Encode(VocabOf(lines), a, maxLength) == Encode(VocabOf(lines), b, maxLength)
    ensures ShownWords(VocabOf(lines), Words(a)) == ShownWords(VocabOf(lines), Words(b))
  {
    forall w | w in Words(a) ensures !StartsWith(w, "##") { assert w in Words(a) + Words(b); }
    forall w | w in Words(b) ensures !StartsWith(w, "##") { assert w in Words(a) + Words(b); }
    EncodeDecode(lines, a, maxLength);
    EncodeDecode(lines, b, maxLength);
  }
}
