/** The value functions at sample points, as the formulas of the program give them. */
module ProbeSamples {
  import opened ProbeModel
  import opened ProbeValues

  lemma SamplePacket()
    ensures PacketValue(1, 3) == 0xf306fe5a5bbd57e9
    ensures PacketChecksum(1, 3, 0xf306fe5a5bbd57e9) == 0x05ee00e23de2aa7a
    ensures PacketReply(1, 3, 0xf306fe5a5bbd57e9) == 0x56a3a400abb09d10
  {
  }

  lemma SamplePayload()
    ensures PayloadValue(1, 0) == 0x185199fa7b37f0f9 && PayloadValue(1, 5) == 0xa4e8fcdbeb4f8c64
    ensures Complement(0x185199fa7b37f0f9) == 0xe7ae660584c80f06
    ensures MixedWrite(2, 1, 3, 5) == 0x55c190b01a8e14e2
  {
    assert PayloadValue(1, 5) == 0xa4e8fcdbeb4f8c64;
  }

  lemma SampleSnapshot()
    ensures SnapshotValue(3, 6) == 0x8bc678b04421f539
  {
  }

  lemma SampleTerms()
    ensures Term(7, 4, 5) == 0x4cb69a7ee5139a22
    ensures Term(0xe7ae660584c80f06, 1, 0) == 0x314698bde291f295
    ensures Term(0xe7ae660584c80f06, 2, 0) == 0x4a7f9b75487bf420
    ensures Term(0xe7ae660584c80f06, 3, 0) == 0x63149a2cb7c5f7bf
    ensures Term(0xe7ae660584c80f06, 4, 0) == 0xbc0d9ce41daff94a
  {
  }

  lemma OneWord(mix: Mixers, term: (int, int, int) -> int, x: int)
    requires mix.complement(mix.payloadValue(1, 0)) == x
    ensures FourEach(TermOf(mix, term, 1, 1), 1) == term(x, 1, 0) + term(x, 2, 0) + term(x, 3, 0) + term(x, 4, 0)
  {
    var t := TermOf(mix, term, 1, 1);
    assert FourEach(t, 1) == FourEach(t, 0) + t(1, 0) + t(2, 0) + t(3, 0) + t(4, 0);
  }

  lemma FirstWord()
    ensures Real.complement(Real.payloadValue(1, 0)) == 0xe7ae660584c80f06
  {
    SamplePayload();
  }

  lemma OneWordSum(mix: Mixers, term: (int, int, int) -> int, x: int)
    requires mix.complement(mix.payloadValue(1, 0)) == x
    requires term(x, 1, 0) == 0x314698bde291f295 && term(x, 2, 0) == 0x4a7f9b75487bf420
    requires term(x, 3, 0) == 0x63149a2cb7c5f7bf && term(x, 4, 0) == 0xbc0d9ce41daff94a
    ensures (0xcbf29ce484222325 + FourEach(TermOf(mix, term, 1, 1), 1)) % 0x1_0000_0000_0000_0000 == 0x66db082884a5fae3
  {
    OneWord(mix, term, x);
  }

  /** The checksum that client 1 reads in the first phase from a payload of one word. */
  lemma SampleChecksum()
    ensures (0xcbf29ce484222325 + FourEach(TermOf(Real, Term, 1, 1), 1)) % 0x1_0000_0000_0000_0000 == 0x66db082884a5fae3
  {
    FirstWord();
    SampleTerms();
    OneWordSum(Real, Term, 0xe7ae660584c80f06);
  }
}
