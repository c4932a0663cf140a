/** The value functions of the probe on 64-bit words, and its checksum loop. */
module ProbeValues {
  import opened ProbeModel

  function Bits(x: int): bv64 {
    if 0 <= x < 0x1_0000_0000_0000_0000 then x as bv64 else (x % 0x1_0000_0000_0000_0000) as bv64
  }

  function Word(b: bv64): (w: int)
    ensures 0 <= w < TWO64 && Wrap(w) == w
  {
    b as int
  }

  function PacketValue(c: int, k: int): (w: int)
    ensures Wrap(w) == w
  {
    Word((Bits(k) * 0x9e3779b97f4a7c15) ^ (Bits(c + 1) * 0x94d049bb133111eb))
  }

  function PacketChecksum(c: int, k: int, value: int): (w: int)
    ensures Wrap(w) == w
  {
    Word(0xd6e8feb86659fd93 ^ Bits(value) ^ (Bits(k) << 17) ^ (Bits(c) << 61))
  }

  function PacketReply(c: int, k: int, value: int): (w: int)
    ensures Wrap(w) == w
  {
    Word(0xa5a55a5af00dcafe ^ Bits(value) ^ (Bits(k) << 1) ^ Bits(c))
  }

  function PayloadValue(c: int, word: int): (w: int)
    ensures Wrap(w) == w
  {
    Word(0x243f6a8885a308d3 ^ (Bits(c + 1) * 0x9e3779b97f4a7c15) ^ (Bits(word) * 0xbf58476d1ce4e5b9))
  }

  function Complement(x: int): (w: int)
    ensures Wrap(w) == w
  {
    Word(Bits(x) ^ 0xffff_ffff_ffff_ffff)
  }

  function MixedWrite(phase: int, c: int, pass: int, word: int): (w: int)
    ensures Wrap(w) == w
  {
    Word(Bits(PayloadValue(c, word)) ^ (Bits(phase) * 0xd1342543de82ef95) ^ (Bits(pass + 1) * 0x94d049bb133111eb))
  }

  /** What one visit of a word adds to the checksum; passes count from 1 here. */
  function Term(value: int, n: int, word: int): (w: int)
    ensures Wrap(w) == w
  {
    Word(Bits(value) ^ (Bits(word) * 0x9e3779b97f4a7c15) ^ (Bits(n) * 0xd6e8feb86659fd93))
  }

  /** `checksum_step`: the checksum and the term, modulo 2^64. */
  function Adding(term: (int, int, int) -> int): (int, int, int, int) -> int {
    (checksum, value, pass, word) => Wrap(checksum + term(value, pass + 1, word))
  }

  function SnapshotValue(version: int, word: int): (w: int)
    ensures Wrap(w) == w
  {
    Word(0x6a09e667f3bcc909 ^ (Bits(version) * 0x9e3779b97f4a7c15) ^ (Bits(word + 1) * 0xbf58476d1ce4e5b9))
  }

  const Real: Mixers :=
    Mixers(PacketValue, PacketChecksum, PacketReply, PayloadValue, Complement, MixedWrite, Adding(Term), SnapshotValue)

  // --- The checksum loops ----------------------------------------------------------

  /** The reader's checksum after `n` visits, whatever the value functions: the words are
      visited in order, and again from the first after the last. */
  function AfterVisits(cfg: Config, phase: int, c: int, n: nat): int
    requires cfg.words > 0 || n == 0
  {
    if n == 0 then 0xcbf29ce484222325
    else
      var word := (n - 1) % cfg.words;
      cfg.mix.checksumStep(AfterVisits(cfg, phase, c, n - 1), cfg.MixedRead(phase, c, word), (n - 1) / cfg.words, word)
  }

  lemma NoMultipleBetween(d: int, words: int)
    requires -words < d * words < words
    ensures d == 0
  {
  }

  lemma DivideVisit(words: int, pass: int, word: int)
    requires 0 <= word < words
    ensures (pass * words + word) / words == pass && (pass * words + word) % words == word
  {
    var n := pass * words + word;
    assert n == (n / words) * words + n % words;
    assert (n / words - pass) * words == word - n % words;
    NoMultipleBetween(n / words - pass, words);
  }

  /** The nested loops visit the words one after the other. */
  lemma {:induction false} PartialIsFlat(cfg: Config, phase: int, c: int, pass: int, word: int)
    requires 0 <= pass && 0 <= word <= cfg.words
    ensures 0 <= pass * cfg.words + word && (cfg.words > 0 || pass * cfg.words + word == 0)
    ensures cfg.PartialChecksum(phase, c, pass, word) == AfterVisits(cfg, phase, c, pass * cfg.words + word)
    decreases pass, word
  {
    if word > 0 {
      PartialIsFlat(cfg, phase, c, pass, word - 1);
      DivideVisit(cfg.words, pass, word - 1);
    } else if pass > 0 {
      PartialIsFlat(cfg, phase, c, pass - 1, cfg.words);
      assert (pass - 1) * cfg.words + cfg.words == pass * cfg.words;
    }
  }

  /** The nested loops, for any value functions and any size, nothing included: four
      visits of every word. */
  method MixedChecksum(cfg: Config, phase: int, c: int) returns (checksum: int)
    requires cfg.words >= 0
    ensures checksum == AfterVisits(cfg, phase, c, 4 * cfg.words)
    ensures checksum == cfg.ExpectedChecksum(phase, c)
  {
    checksum := CHECKSUM_SEED;
    for pass := 0 to MIXED_PASSES
      invariant checksum == if pass == 0 then CHECKSUM_SEED else cfg.PartialChecksum(phase, c, pass - 1, cfg.words)
    {
      for word := 0 to cfg.words
        invariant checksum == cfg.PartialChecksum(phase, c, pass, word)
      {
        checksum := cfg.mix.checksumStep(checksum, cfg.MixedRead(phase, c, word), pass, word);
      }
    }
    PartialIsFlat(cfg, phase, c, MIXED_PASSES - 1, cfg.words);
  }

  /** The term of a word in pass `n`, counted from 1.  The reader finds the complement of
      the client's bulk data in the first phase, and in the second what the client's
      fourth pass over it in the first phase left. */
  function TermOf(mix: Mixers, term: (int, int, int) -> int, phase: int, c: int): (int, int) -> int {
    (n, word) =>
      term(if phase == 1 then mix.complement(mix.payloadValue(c, word)) else mix.mixedWrite(1, c, 3, word), n, word)
  }

  /** Four terms for each of the first `n` words, added up. */
  function FourEach(term: (int, int) -> int, n: nat): int {
    if n == 0 then 0
    else FourEach(term, n - 1) + term(1, n - 1) + term(2, n - 1) + term(3, n - 1) + term(4, n - 1)
  }

  /** The terms of one pass. */
  function PassSum(term: (int, int) -> int, pass: int, n: nat): int {
    if n == 0 then 0 else PassSum(term, pass, n - 1) + term(pass, n - 1)
  }

  /** Adding up word by word or pass by pass is the same. */
  lemma {:induction false} SumsExchange(term: (int, int) -> int, n: nat)
    ensures FourEach(term, n) == PassSum(term, 1, n) + PassSum(term, 2, n) + PassSum(term, 3, n) + PassSum(term, 4, n)
  {
    if n > 0 {
      SumsExchange(term, n - 1);
    }
  }

  lemma WrapAdds(a: int, b: int)
    ensures Wrap(Wrap(a) + b) == Wrap(a + b)
  {
  }

  /** Visiting a word adds its term, modulo 2^64. */
  ghost predicate Adds(cfg: Config, phase: int, c: int, term: (int, int) -> int) {
    forall checksum, pass, word ::
      cfg.mix.checksumStep(checksum, cfg.MixedRead(phase, c, word), pass, word) == Wrap(checksum + term(pass + 1, word))
  }

  /** One pass adds its terms. */
  lemma {:induction false} PassAdds(cfg: Config, phase: int, c: int, term: (int, int) -> int, start: int, pass: int, n: nat)
    requires Adds(cfg, phase, c, term) && 0 <= pass && n <= cfg.words
    requires cfg.PartialChecksum(phase, c, pass, 0) == Wrap(start)
    ensures cfg.PartialChecksum(phase, c, pass, n) == Wrap(start + PassSum(term, pass + 1, n))
  {
    if n > 0 {
      PassAdds(cfg, phase, c, term, start, pass, n - 1);
      WrapAdds(start + PassSum(term, pass + 1, n - 1), term(pass + 1, n - 1));
    }
  }

  lemma FourPasses(cfg: Config, phase: int, c: int, term: (int, int) -> int)
    requires Adds(cfg, phase, c, term) && cfg.words >= 0
    ensures cfg.ExpectedChecksum(phase, c) == Wrap(0xcbf29ce484222325 + FourEach(term, cfg.words))
  {
    var w, seed := cfg.words, 0xcbf29ce484222325;
    var s1, s2, s3 := PassSum(term, 1, w), PassSum(term, 2, w), PassSum(term, 3, w);
    PassAdds(cfg, phase, c, term, seed, 0, w);
    PassAdds(cfg, phase, c, term, seed + s1, 1, w);
    PassAdds(cfg, phase, c, term, seed + s1 + s2, 2, w);
    PassAdds(cfg, phase, c, term, seed + s1 + s2 + s3, 3, w);
    SumsExchange(term, w);
  }

  lemma AddingAdds(cfg: Config, phase: int, c: int, term: (int, int, int) -> int)
    requires cfg.mix.checksumStep == Adding(term)
    ensures Adds(cfg, phase, c, TermOf(cfg.mix, term, phase, c))
  {
  }

  /** The checksum for any value functions that add terms, and for any other parameters. */
  lemma ChecksumAdds(own: Config, phase: int, client: int, term: (int, int, int) -> int)
    requires own.words >= 0 && own.mix.checksumStep == Adding(term)
    ensures own.ExpectedChecksum(phase, client)
            == (0xcbf29ce484222325 + FourEach(TermOf(own.mix, term, phase, client), own.words)) % 0x1_0000_0000_0000_0000
    ensures forall cfg: Config :: cfg.words == own.words && cfg.mix == own.mix ==>
              own.ExpectedChecksum(phase, client) == cfg.ExpectedChecksum(phase, client)
  {
    AddingAdds(own, phase, client, term);
    FourPasses(own, phase, client, TermOf(own.mix, term, phase, client));
    forall cfg: Config | cfg.words == own.words && cfg.mix == own.mix
      ensures own.ExpectedChecksum(phase, client) == cfg.ExpectedChecksum(phase, client)
    {
      SameChecksum(own, cfg, phase, client, MIXED_PASSES - 1, own.words);
    }
  }

  /** The checksum of the program itself: the seed and four terms for every word, modulo
      2^64.  It is what every reader of a run with these value functions has when it is
      done. */
  method ExpectedMixedChecksum(phase: int, client: int, words: int) returns (checksum: int)
    requires words >= 0
    ensures checksum
            == (0xcbf29ce484222325 + FourEach(TermOf(Real, Term, phase, client), words)) % 0x1_0000_0000_0000_0000
    ensures forall cfg: Config :: cfg.words == words && cfg.mix == Real ==> checksum == cfg.ExpectedChecksum(phase, client)
  {
    checksum := AddedChecksum(Real, Term, phase, client, words);
  }

  method AddedChecksum(mix: Mixers, ghost term: (int, int, int) -> int, phase: int, client: int, words: int)
    returns (checksum: int)
    requires words >= 0 && mix.checksumStep == Adding(term)
    ensures checksum
            == (0xcbf29ce484222325 + FourEach(TermOf(mix, term, phase, client), words)) % 0x1_0000_0000_0000_0000
    ensures forall cfg: Config :: cfg.words == words && cfg.mix == mix ==> checksum == cfg.ExpectedChecksum(phase, client)
  {
    var own := Config(1, words, 1, mix);
    checksum := MixedChecksum(own, phase, client);
    ChecksumAdds(own, phase, client, term);
  }

  /** The checksum depends on the size and the value functions only. */
  lemma {:induction false} SameChecksum(a: Config, b: Config, phase: int, c: int, pass: int, word: int)
    requires a.words == b.words && a.mix == b.mix
    ensures a.PartialChecksum(phase, c, pass, word) == b.PartialChecksum(phase, c, pass, word)
    decreases pass, word
  {
    if word > 0 {
      SameChecksum(a, b, phase, c, pass, word - 1);
    } else if pass > 0 {
      SameChecksum(a, b, phase, c, pass - 1, a.words);
    }
  }
}
