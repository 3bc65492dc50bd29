/** The fuzzy cache in front of the inference engine: the signature of a log line and the LRU list. */
module FuzzyCaching {
  import opened Options
  import opened Text

  // ---------- FNV-1a, 64 bit ----------

  const TWO64: nat := 0x1_0000_0000_0000_0000
  const FNV_OFFSET: nat := 0xcbf29ce484222325
  const FNV_PRIME: nat := 0x100000001b3
  /** The inverse of the prime modulo 2^64. */
  const FNV_INVERSE: nat := 0xce965057aff6957b

  const BITS: nat := 8
  const INVERSE_QUOTIENT: nat := 887285111055

  function Byte(c: char): (b: nat)
    ensures b < 256 && (c as int < 256 ==> b == c as int)
  {
    c as int % 256
  }

  /** Exclusive or of two `k`-bit numbers, bit by bit. */
  function Xor(a: nat, b: nat, k: nat): nat {
    if k == 0 then 0 else 2 * Xor(a / 2, b / 2, k - 1) + (a + b) % 2
  }

  function Pow2(k: nat): nat {
    if k == 0 then 1 else 2 * Pow2(k - 1)
  }

  lemma {:induction false} XorBounded(a: nat, b: nat, k: nat)
    ensures Xor(a, b, k) < Pow2(k)
  {
    if k > 0 {
      XorBounded(a / 2, b / 2, k - 1);
    }
  }

  lemma {:induction false} XorInjective(a: nat, b: nat, a': nat, b': nat, k: nat)
    requires a < Pow2(k) && b < Pow2(k) && a' < Pow2(k) && b' < Pow2(k)
    requires Xor(a, b, k) == Xor(a', b', k) && (a == a' || b == b')
    ensures a == a' && b == b'
  {
    if k > 0 {
      SplitBit(Xor(a / 2, b / 2, k - 1), (a + b) % 2, Xor(a' / 2, b' / 2, k - 1), (a' + b') % 2);
      XorInjective(a / 2, b / 2, a' / 2, b' / 2, k - 1);
      LowBits(a, b, a', b');
    }
  }

  lemma SplitBit(p: nat, q: nat, p': nat, q': nat)
    requires q < 2 && q' < 2 && 2 * p + q == 2 * p' + q'
    ensures p == p' && q == q'
  {
  }

  lemma LowBits(a: nat, b: nat, a': nat, b': nat)
    requires (a + b) % 2 == (a' + b') % 2 && a / 2 == a' / 2 && b / 2 == b' / 2 && (a == a' || b == b')
    ensures a == a' && b == b'
  {
  }

  function XorByte(a: nat, b: nat): (r: nat)
    ensures r < 256
  {
    XorBounded(a, b, BITS);
    assert Pow2(8) == 256;
    Xor(a, b, BITS)
  }

  /** The state with a byte xored into its low byte. */
  function Stirred(h: nat, b: nat): (r: nat)
    ensures h < TWO64 ==> r < TWO64
  {
    h - h % 256 + XorByte(h % 256, b)
  }

  /** One byte: xor into the low byte, multiply by the prime modulo 2^64. */
  function Mix(h: nat, b: nat): (r: nat)
    requires b < 256
    ensures r < TWO64
  {
    Stirred(h, b) * FNV_PRIME % TWO64
  }

  /** Writing a string to the running hash. */
  function Write(h: nat, s: string): nat {
    if s == [] then h else Mix(Write(h, s[..|s| - 1]), Byte(s[|s| - 1]))
  }

  function Hash(s: string): nat {
    Write(FNV_OFFSET, s)
  }

  lemma WriteOneMore(h: nat, s: string, c: char)
    ensures Write(h, s + [c]) == Mix(Write(h, s), Byte(c))
  {
    assert (s + [c])[..|s|] == s;
  }

  lemma {:induction false} WriteConcat(h: nat, a: string, b: string)
    ensures Write(h, a + b) == Write(Write(h, a), b)
  {
    if b == [] {
      assert a + b == a;
    } else {
      var n := |b| - 1;
      WriteConcat(h, a, b[..n]);
      assert b == b[..n] + [b[n]] && a + b == (a + b[..n]) + [b[n]];
      WriteOneMore(h, a + b[..n], b[n]);
      WriteOneMore(Write(h, a), b[..n], b[n]);
    }
  }

  /** The hash that the FNV specification publishes for the one-letter text "a". */
  lemma KnownHash()
    ensures Hash("") == 0xcbf29ce484222325
    ensures Hash("a") == 0xaf63dc4c8601ec8c
  {
    assert "a"[..0] == "";
    var b: nat := 97;
    assert Byte('a') == b;
    XorOfA();
  }

  /** 0x25 xor 0x61 is 0x44. */
  lemma XorOfA()
    ensures XorByte(0x25, 97) == 0x44
  {
    assert Xor(0, 0, 1) == 0;
    assert Xor(0, 1, 2) == 1;
    assert Xor(1, 3, 3) == 2;
    assert Xor(2, 6, 4) == 4;
    assert Xor(4, 12, 5) == 8;
    assert Xor(9, 24, 6) == 17;
    assert Xor(18, 48, 7) == 34;
    assert Xor(37, 97, 8) == 68;
  }

  /** Multiplying by the odd prime is injective modulo 2^64, because the prime has an inverse there. */
  lemma PrimeInjective(x: nat, y: nat)
    requires x < TWO64 && y < TWO64
    requires x * FNV_PRIME % TWO64 == y * FNV_PRIME % TWO64
    ensures x == y
  {
    assert FNV_PRIME * FNV_INVERSE == 1 + INVERSE_QUOTIENT * TWO64;
    var q := x * FNV_PRIME / TWO64 - y * FNV_PRIME / TWO64;
    assert (x - y) * FNV_PRIME == q * TWO64;
    var d := q * FNV_INVERSE - INVERSE_QUOTIENT * (x - y);
    assert (x - y) * FNV_PRIME * FNV_INVERSE == q * TWO64 * FNV_INVERSE;
    assert x - y == d * TWO64;
  }

  /** One step of the hash loses nothing: equal results come from equal states or from different bytes. */
  lemma MixInjective(h: nat, b: nat, h': nat, b': nat)
    requires h < TWO64 && h' < TWO64 && b < 256 && b' < 256
    requires Mix(h, b) == Mix(h', b') && (h == h' || b == b')
    ensures h == h' && b == b'
  {
    PrimeInjective(Stirred(h, b), Stirred(h', b'));
    StirredInjective(h, b, h', b');
  }

  lemma StirredInjective(h: nat, b: nat, h': nat, b': nat)
    requires b < 256 && b' < 256
    requires Stirred(h, b) == Stirred(h', b') && (h == h' || b == b')
    ensures h == h' && b == b'
  {
    var low, low' := h % 256, h' % 256;
    LowByte(h, XorByte(low, b));
    LowByte(h', XorByte(low', b'));
    XorByteInjective(low, b, low', b');
  }

  lemma LowByte(h: nat, x: nat)
    requires x < 256
    ensures (h - h % 256 + x) % 256 == x
  {
  }

  lemma XorByteInjective(a: nat, b: nat, a': nat, b': nat)
    requires a < 256 && b < 256 && a' < 256 && b' < 256
    requires XorByte(a, b) == XorByte(a', b') && (a == a' || b == b')
    ensures a == a' && b == b'
  {
    assert Pow2(8) == 256;
    XorInjective(a, b, a', b', BITS);
  }

  lemma {:induction false} WriteInjective(h: nat, h': nat, s: string)
    requires h < TWO64 && h' < TWO64 && Write(h, s) == Write(h', s)
    ensures h == h'
  {
    if s != [] {
      var n := |s| - 1;
      WriteBounded(h, s[..n]);
      WriteBounded(h', s[..n]);
      MixInjective(Write(h, s[..n]), Byte(s[n]), Write(h', s[..n]), Byte(s[n]));
      WriteInjective(h, h', s[..n]);
    }
  }

  lemma WriteBounded(h: nat, s: string)
    requires h < TWO64
    ensures Write(h, s) < TWO64
  {
  }

  /** Texts that differ in exactly one byte never have the same hash. */
  lemma OneByteApart(a: string, x: char, y: char, z: string)
    requires Byte(x) != Byte(y)
    ensures Hash(a + [x] + z) != Hash(a + [y] + z)
  {
    WriteConcat(FNV_OFFSET, a + [x], z);
    WriteConcat(FNV_OFFSET, a + [y], z);
    WriteConcat(FNV_OFFSET, a, [x]);
    WriteConcat(FNV_OFFSET, a, [y]);
    var h := Write(FNV_OFFSET, a);
    WriteBounded(FNV_OFFSET, a);
    assert [x][..0] == [] && [y][..0] == [];
    var hx, hy := Mix(h, Byte(x)), Mix(h, Byte(y));
    if Write(hx, z) == Write(hy, z) {
      WriteInjective(hx, hy, z);
      MixInjective(h, Byte(x), h, Byte(y));
    }
  }

  // ---------- the signature of a line ----------

  /** Words that change without changing the meaning: pods, the local address, time stamps. */
  predicate IsVolatile(word: string) {
    Contains(word, "pod-") || Contains(word, "127.0.0.1") || Contains(word, "time=")
  }

  function Kept(words: seq<string>): seq<string> {
    if words == [] then []
    else
      var n := |words| - 1;
      Kept(words[..n]) + if IsVolatile(words[n]) then [] else [words[n]]
  }

  function Joined(words: seq<string>): string {
    if words == [] then "" else Joined(words[..|words| - 1]) + words[|words| - 1]
  }

  function KeptWords(line: string): seq<string> {
    Kept(Words(Lower(line)))
  }

  function Signature(line: string): nat {
    Hash(Joined(KeptWords(line)))
  }

  lemma KeptOneMore(words: seq<string>, i: nat)
    requires i < |words|
    ensures Kept(words[..i + 1]) == if IsVolatile(words[i]) then Kept(words[..i]) else Kept(words[..i]) + [words[i]]
  {
    assert words[..i + 1][..i] == words[..i];
  }

  lemma JoinedOneMore(words: seq<string>, word: string)
    ensures Joined(words + [word]) == Joined(words) + word
  {
    assert (words + [word])[..|words|] == words;
  }

  // ---------- the LRU list, as its library promises it ----------

  datatype Spatial = Spatial(vector: seq<real>, x: real, y: real, z: real)

  /** One cached line; the most recently used entry comes first. */
  datatype Entry = Entry(sig: nat, val: Spatial)

  function Without(entries: seq<Entry>, sig: nat): seq<Entry> {
    if entries == [] then []
    else (if entries[0].sig == sig then [] else [entries[0]]) + Without(entries[1..], sig)
  }

  function Find(entries: seq<Entry>, sig: nat): (r: Option<Spatial>)
    ensures r.Some? ==> Entry(sig, r.value) in entries
    ensures r.None? ==> forall e :: e in entries ==> e.sig != sig
  {
    if entries == [] then None
    else if entries[0].sig == sig then Some(entries[0].val)
    else Find(entries[1..], sig)
  }

  /** A hit moves its entry to the front. */
  function Touch(entries: seq<Entry>, sig: nat): seq<Entry> {
    match Find(entries, sig)
    case None => entries
    case Some(val) => [Entry(sig, val)] + Without(entries, sig)
  }

  /** Adding puts the entry in front and drops the least recently used one beyond the capacity. */
  function Put(entries: seq<Entry>, sig: nat, val: Spatial, capacity: nat): seq<Entry> {
    var all := [Entry(sig, val)] + Without(entries, sig);
    if |all| > capacity then all[..capacity] else all
  }

  ghost predicate DistinctSigs(entries: seq<Entry>) {
    forall i, j :: 0 <= i < j < |entries| ==> entries[i].sig != entries[j].sig
  }

  lemma {:induction false} WithoutMembers(entries: seq<Entry>, sig: nat)
    ensures forall e :: e in Without(entries, sig) <==> e in entries && e.sig != sig
  {
    if entries != [] {
      WithoutMembers(entries[1..], sig);
    }
  }

  lemma {:induction false} WithoutShorter(entries: seq<Entry>, sig: nat)
    ensures |Without(entries, sig)| <= |entries|
    ensures Find(entries, sig).Some? ==> |Without(entries, sig)| < |entries|
  {
    if entries != [] {
      WithoutShorter(entries[1..], sig);
    }
  }

  lemma {:induction false} WithoutKeeps(entries: seq<Entry>, sig: nat)
    requires DistinctSigs(entries)
    ensures DistinctSigs(Without(entries, sig))
    ensures forall e :: e in Without(entries, sig) <==> e in entries && e.sig != sig
    ensures |Without(entries, sig)| <= |entries|
    ensures Find(entries, sig).Some? ==> |Without(entries, sig)| < |entries|
  {
    WithoutMembers(entries, sig);
    WithoutShorter(entries, sig);
    if entries != [] {
      WithoutKeeps(entries[1..], sig);
      WithoutMembers(entries[1..], sig);
    }
  }

  class ResilienceCache {
    var lru: seq<Entry>
    const capacity: nat

    constructor (size: nat)
      ensures lru == [] && capacity == size
    {
      lru := [];
      capacity := size;
    }

    method GetFuzzyHash(text: string) returns (signature: nat)
      ensures signature == Signature(text)
    {
      var clean := Lower(text);
      var words := Words(clean);
      signature := FNV_OFFSET;
      for i := 0 to |words|
        invariant signature == Hash(Joined(Kept(words[..i])))
      {
        KeptOneMore(words, i);
        if !IsVolatile(words[i]) {
          WriteConcat(FNV_OFFSET, Joined(Kept(words[..i])), words[i]);
          JoinedOneMore(Kept(words[..i]), words[i]);
          signature := Write(signature, words[i]);
        }
      }
      assert words[..|words|] == words;
    }

    method GetEmbedding(text: string) returns (r: Option<Spatial>)
      modifies this
      ensures r == Find(old(lru), Signature(text))
      ensures lru == Touch(old(lru), Signature(text))
    {
      var sig := GetFuzzyHash(text);
      r := Find(lru, sig);
      lru := Touch(lru, sig);
    }

    method Add(text: string, embedding: Spatial)
      modifies this
      ensures lru == Put(old(lru), Signature(text), embedding, capacity)
    {
      var sig := GetFuzzyHash(text);
      lru := Put(lru, sig, embedding, capacity);
    }
  }
}
