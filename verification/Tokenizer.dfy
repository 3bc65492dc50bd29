/** The WordPiece tokenizer: loading the vocabulary, splitting one word greedily,
    and turning a text into a fixed-length list of ids. */
module Tokenizing {
  import opened Options
  import opened Text
  import opened FileLines

  const CLS := 101
  const SEP := 102
  const UNK := 100
  const PAD := 0

  // ---------- the vocabulary file ----------

  function StripCr(line: string): string {
    if line != "" && line[|line| - 1] == '\r' then line[..|line| - 1] else line
  }

  /** The vocabulary after reading `lines` in order: an empty line still uses up an id. */
  function VocabOf(lines: seq<string>): map<string, int> {
    if lines == [] then map[]
    else
      var n := |lines| - 1;
      var before := VocabOf(lines[..n]);
      if StripCr(lines[n]) == "" then before else before[StripCr(lines[n]) := n]
  }

  // ---------- one word ----------

  /** The text looked up for `word[start..end]`: every piece but the first is marked with "##". */
  function Piece(word: string, start: nat, end: nat): string
    requires start <= end <= |word|
  {
    if start == 0 then word[start..end] else "##" + word[start..end]
  }

  /** The end of the longest known piece in `word[start..end]`, or `start` when there is none. */
  function LongestEnd(vocab: map<string, int>, word: string, start: nat, end: nat): (e: nat)
    requires start <= end <= |word|
    ensures start <= e <= end
    ensures e > start ==> Piece(word, start, e) in vocab
    ensures forall x {:trigger Piece(word, start, x)} :: e < x <= end ==> Piece(word, start, x) !in vocab
  {
    if end == start then start
    else if Piece(word, start, end) in vocab then end
    else LongestEnd(vocab, word, start, end - 1)
  }

  /** Where the greedy split cuts `word[start..]`, or `None` when some position has no known piece. */
  function Greedy(vocab: map<string, int>, word: string, start: nat): Option<seq<nat>>
    requires start <= |word|
    decreases |word| - start
  {
    if start == |word| then Some([])
    else
      var e := LongestEnd(vocab, word, start, |word|);
      if e == start then None
      else
        match Greedy(vocab, word, e)
        case None => None
        case Some(rest) => Some([e] + rest)
  }

  /** `cuts` splits `word[start..]` into known pieces. */
  ghost predicate IsSplit(vocab: map<string, int>, word: string, start: nat, cuts: seq<nat>)
    requires start <= |word|
    decreases |cuts|
  {
    if cuts == [] then start == |word|
    else
      && start < cuts[0] <= |word|
      && Piece(word, start, cuts[0]) in vocab
      && IsSplit(vocab, word, cuts[0], cuts[1..])
  }

  /** The ids of the pieces that `cuts` makes. */
  function CutIds(vocab: map<string, int>, word: string, start: nat, cuts: seq<nat>): seq<int>
    requires start <= |word| && IsSplit(vocab, word, start, cuts)
    decreases |cuts|
  {
    if cuts == [] then [] else [vocab[Piece(word, start, cuts[0])]] + CutIds(vocab, word, cuts[0], cuts[1..])
  }

  lemma {:induction false} GreedySplits(vocab: map<string, int>, word: string, start: nat)
    requires start <= |word|
    ensures Greedy(vocab, word, start).Some? ==> IsSplit(vocab, word, start, Greedy(vocab, word, start).value)
    decreases |word| - start
  {
    if start < |word| {
      var e := LongestEnd(vocab, word, start, |word|);
      if e > start {
        GreedySplits(vocab, word, e);
        if Greedy(vocab, word, e).Some? {
          assert ([e] + Greedy(vocab, word, e).value)[1..] == Greedy(vocab, word, e).value;
        }
      }
    }
  }

  function WordIds(vocab: map<string, int>, word: string): seq<int> {
    GreedySplits(vocab, word, 0);
    match Greedy(vocab, word, 0)
    case None => [UNK]
    case Some(cuts) => CutIds(vocab, word, 0, cuts)
  }

  // ---------- a text ----------

  /** The ids of all words, before the frame of [CLS], [SEP] and padding. */
  function Content(vocab: map<string, int>, words: seq<string>): seq<int> {
    if words == [] then []
    else Content(vocab, words[..|words| - 1]) + WordIds(vocab, Lower(words[|words| - 1]))
  }

  function Zeros(n: nat): (r: seq<int>)
    ensures |r| == n && forall i :: 0 <= i < n ==> r[i] == 0
  {
    seq(n, _ => PAD)
  }

  /** The framed ids; `None` is the length error of resizing to `max_length - 1` when `max_length` is zero. */
  function Encode(vocab: map<string, int>, text: string, maxLength: nat): Option<seq<int>> {
    Framed([CLS] + Content(vocab, Words(text)), maxLength)
  }

  function Framed(ids: seq<int>, maxLength: nat): Option<seq<int>> {
    if maxLength == 0 then None
    else
      var kept := if |ids| >= maxLength then ids[..maxLength - 1] else ids;
      Some(kept + [SEP] + Zeros(maxLength - |kept| - 1))
  }

  // ---------- the class ----------

  class Tokenizer {
    var vocab: map<string, int>

    ghost predicate Valid()
      reads this
    {
      forall w :: w in vocab ==> vocab[w] >= 0
    }

    /** Reads the vocabulary file line by line. */
    constructor (content: string)
      ensures Valid()
      ensures forall lines :: IsFileOf(content, lines) ==> vocab == VocabOf(lines)
    {
      vocab := map[];
      new;
      var pos, index := 0, 0;
      ghost var lines := [];
      while GetLine(content, pos).Some?
        invariant pos <= |content|
        invariant index == |lines|
        invariant LinesFrom(content, 0) == lines + LinesFrom(content, pos)
        invariant Valid() && vocab == VocabOf(lines)
        decreases |content| - pos
      {
        var (line, next) := GetLine(content, pos).value;
        OneMoreLine(content, pos, lines);
        lines := lines + [line];
        if line != "" && line[|line| - 1] == '\r' {
          line := line[..|line| - 1];
        }
        if line != "" {
          vocab := vocab[line := index];
        }
        index := index + 1;
        pos := next;
      }
      assert lines + [] == lines;
      FilesHaveOneReading(content);
    }

    /** Appends the ids of one word to `output`. */
    method WordpieceTokenize(word: string, output: seq<int>) returns (result: seq<int>)
      requires Valid()
      ensures result == output + WordIds(vocab, word)
    {
      var isBad := false;
      var start := 0;
      var subwordIds: seq<int> := [];
      ghost var cuts: seq<nat> := [];
      StartOff(vocab, word);
      while start < |word|
        invariant start <= |word|
        invariant !isBad && GoesOn(vocab, word, cuts, start, subwordIds)
        decreases |word| - start
      {
        var end := |word|;
        var curId := -1;
        while start < end
          invariant start <= end <= |word|
          invariant curId == -1
          invariant LongestEnd(vocab, word, start, |word|) == LongestEnd(vocab, word, start, end)
        {
          var substr := if start == 0 then word[start..end] else "##" + word[start..end];
          if substr in vocab {
            curId := vocab[substr];
            break;
          }
          end := end - 1;
        }
        if curId == -1 {
          isBad := true;
          break;
        }
        GoOn(vocab, word, cuts, start, subwordIds, end);
        subwordIds := subwordIds + [curId];
        cuts := cuts + [end];
        start := end;
      }
      if isBad {
        result := output + [UNK];
      } else {
        result := output + subwordIds;
      }
    }

    method Tokenize(text: string, maxLength: nat) returns (r: Option<seq<int>>)
      requires Valid()
      ensures r == Encode(vocab, text, maxLength)
    {
      var ids := [CLS];
      var pos := 0;
      ghost var words: seq<string> := [];
      assert words + WordsFrom(text, 0) == Words(text);
      assert [CLS] + Content(vocab, words) == ids;
      while NextWord(text, pos).Some?
        invariant pos <= |text|
        invariant Words(text) == words + WordsFrom(text, pos)
        invariant ids == [CLS] + Content(vocab, words)
        decreases |text| - pos
      {
        var (word, next) := NextWord(text, pos).value;
        words := OneMoreWord(text, pos, words, vocab);
        ids := WordpieceTokenize(Lower(word), ids);
        pos := next;
      }
      assert words + [] == words;
      r := Frame(ids, maxLength);
    }

    /** The end of `tokenize`: truncation, [SEP] and padding. */
    method Frame(content: seq<int>, maxLength: nat) returns (r: Option<seq<int>>)
      ensures r == Framed(content, maxLength)
    {
      var ids := content;
      if |ids| >= maxLength {
        if maxLength == 0 {
          return None;
        }
        ids := ids[..maxLength - 1];
      }
      ghost var kept := ids;
      ids := ids + [SEP];
      while |ids| < maxLength
        invariant |kept| + 1 <= |ids| <= maxLength
        invariant ids == kept + [SEP] + Zeros(|ids| - |kept| - 1)
      {
        ids := ids + [PAD];
      }
      r := Some(ids);
    }
  }

  lemma OneMoreLine(content: string, pos: nat, lines: seq<string>)
    requires pos <= |content| && GetLine(content, pos).Some?
    ensures var (line, next) := GetLine(content, pos).value;
      && lines + LinesFrom(content, pos) == (lines + [line]) + LinesFrom(content, next)
      && VocabOf(lines + [line]) == if StripCr(line) == "" then VocabOf(lines) else VocabOf(lines)[StripCr(line) := |lines|]
  {
    var (line, next) := GetLine(content, pos).value;
    VocabOneMore(lines, line);
    Shift(lines, line, LinesFrom(content, next));
  }

  lemma VocabOneMore(lines: seq<string>, line: string)
    ensures VocabOf(lines + [line]) == if StripCr(line) == "" then VocabOf(lines) else VocabOf(lines)[StripCr(line) := |lines|]
  {
    assert (lines + [line])[..|lines|] == lines;
  }

  lemma OneMoreWord(text: string, pos: nat, words: seq<string>, vocab: map<string, int>) returns (seen: seq<string>)
    requires pos <= |text| && NextWord(text, pos).Some?
    requires Words(text) == words + WordsFrom(text, pos)
    ensures var (word, next) := NextWord(text, pos).value;
      && Words(text) == seen + WordsFrom(text, next)
      && [CLS] + Content(vocab, seen) == [CLS] + Content(vocab, words) + WordIds(vocab, Lower(word))
  {
    var (word, next) := NextWord(text, pos).value;
    seen := words + [word];
    assert seen[..|words|] == words;
    Shift(words, word, WordsFrom(text, next));
    assert Content(vocab, seen) == Content(vocab, words) + WordIds(vocab, Lower(word));
  }

  /** The greedy run has made `cuts`, stands at `start` and has collected `ids`. */
  ghost predicate GoesOn(vocab: map<string, int>, word: string, cuts: seq<nat>, start: nat, ids: seq<int>)
    requires start <= |word|
  {
    GreedySplits(vocab, word, 0);
    GreedySplits(vocab, word, start);
    match Greedy(vocab, word, start)
    case None => Greedy(vocab, word, 0).None?
    case Some(rest) =>
      && Greedy(vocab, word, 0) == Some(cuts + rest)
      && WordIds(vocab, word) == ids + CutIds(vocab, word, start, rest)
  }

  lemma StartOff(vocab: map<string, int>, word: string)
    ensures GoesOn(vocab, word, [], 0, [])
  {
    match Greedy(vocab, word, 0)
    case None =>
    case Some(rest) =>
      assert [] + rest == rest;
      assert [] + CutIds(vocab, word, 0, rest) == CutIds(vocab, word, 0, rest) by {
        GreedySplits(vocab, word, 0);
      }
  }

  lemma GoOn(vocab: map<string, int>, word: string, cuts: seq<nat>, start: nat, ids: seq<int>, end: nat)
    requires start < end <= |word|
    requires GoesOn(vocab, word, cuts, start, ids)
    requires end == LongestEnd(vocab, word, start, |word|)
    ensures Piece(word, start, end) in vocab
    ensures GoesOn(vocab, word, cuts + [end], end, ids + [vocab[Piece(word, start, end)]])
  {
    match Greedy(vocab, word, end)
    case None =>
    case Some(rest) =>
      GreedySplits(vocab, word, end);
      OneMoreCut(vocab, word, start, end, rest);
      Shift(cuts, end, rest);
      Shift(ids, vocab[Piece(word, start, end)], CutIds(vocab, word, end, rest));
  }

  lemma OneMoreCut(vocab: map<string, int>, word: string, start: nat, end: nat, rest: seq<nat>)
    requires start < end <= |word| && Piece(word, start, end) in vocab && IsSplit(vocab, word, end, rest)
    ensures IsSplit(vocab, word, start, [end] + rest)
    ensures CutIds(vocab, word, start, [end] + rest) == [vocab[Piece(word, start, end)]] + CutIds(vocab, word, end, rest)
  {
    assert ([end] + rest)[1..] == rest;
  }
}
