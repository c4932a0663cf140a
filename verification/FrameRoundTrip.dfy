/** From the exporting guest through a noisy console and back. */
module FrameRoundTrip {
  import opened Options
  import opened FrameModel
  import opened FrameTheorems
  import Base64

  /** The guest's side: compression and base64. */
  datatype Exporter = Exporter(gzip: Bytes -> Bytes, encode64: Bytes -> string)

  /** What is assumed of the two libraries: base64 and gzip are undone by their decoders,
      base64 has the length of section 4 of RFC 4648, and gzip output is never empty. */
  ghost predicate Lawful(ex: Exporter, codec: Codec) {
    && (forall z :: codec.decode64(ex.encode64(z)) == Some(z))
    && (forall z :: Base64Length(|z|, |ex.encode64(z)|))
    && (forall p :: codec.gunzip(ex.gzip(p), |p|) == Some(p))
    && (forall p :: |ex.gzip(p)| > 0)
  }

  /** The assumptions can be met: base64 itself, with any lossless compression that adds
      a header; here one that adds a single byte. */
  lemma LawsCanHold(sha256: Bytes -> string)
    ensures Lawful(Exporter(p => [0] + p, Base64.Encode),
                   Codec(Base64.Decode, sha256, (z, n) => if z == [] then None else Some(z[1..])))
  {
    forall z: Bytes
      ensures Base64.Decode(Base64.Encode(z)) == Some(z) && Base64Length(|z|, |Base64.Encode(z)|)
    {
      Base64.RoundTrip(z);
      Base64.Length(z);
      EncodedCharsExactly(|z|, |Base64.Encode(z)|);
    }
    forall p: Bytes
      ensures ([0] + p)[1..] == p
    {
    }
  }

  /** Lines of at most 1024 characters, as `base64 -w 1024` folds them. */
  function Fold(text: string): seq<string> {
    if |text| <= 1024 then (if text == "" then [] else [text])
    else [text[..1024]] + Fold(text[1024..])
  }

  /** Folding loses nothing, and only the last line may be short. */
  lemma {:induction false} FoldIsFaithful(text: string)
    ensures Concat(Fold(text)) == text
    ensures 1024 * (|Fold(text)| - 1) < |text| <= 1024 * |Fold(text)| || (text == "" && Fold(text) == [])
    ensures forall i :: 0 <= i < |Fold(text)| ==> |Fold(text)[i]| <= 1024
    decreases |text|
  {
    if |text| > 1024 {
      FoldIsFaithful(text[1024..]);
      assert Fold(text)[1..] == Fold(text[1024..]);
      assert text == text[..1024] + text[1024..];
    } else if text != "" {
      assert Concat([text]) == text + Concat([]);
    }
  }

  function ChunksOf(ex: Exporter, payload: Bytes): seq<string> {
    Fold(ex.encode64(ex.gzip(payload)))
  }

  /** An arena that is exported, compressed in chunks or, in the older form that the decoder
      still reads, as plain base64 text. */
  datatype Export = Export(id: Identity, payload: Bytes, plain: bool)

  function HeaderOf(ex: Exporter, codec: Codec, e: Export): Header {
    var z := ex.gzip(e.payload);
    Header(e.id, |e.payload|, codec.sha256(e.payload),
           if e.plain then Raw else Gzip(|z|, codec.sha256(z), |ChunksOf(ex, e.payload)|))
  }

  /** The exporter refuses an arena of more than 64 MiB; the decoder also bounds the
      compressed size. */
  ghost predicate Exportable(ex: Exporter, e: Export) {
    |e.payload| <= 67108864 && (e.plain || |ex.gzip(e.payload)| <= 68157440)
  }

  /** A transcript of the exports: before, between and after the frames any lines that
      are not begin or end markers; inside a frame any lines, in any order, among which
      each chunk line is a faithful copy and each chunk has one or two of them.  Plain text
      may be broken into lines in any way, with empty lines between. */
  ghost predicate Transcript(ex: Exporter, codec: Codec, lines: seq<Line>, exports: seq<Export>)
    decreases |exports|
  {
    if exports == [] then NoMarkers(lines)
    else exists i: nat, j: nat ::
           Printed(ex, codec, lines, i, j, exports[0]) && Transcript(ex, codec, lines[j + 1..], exports[1..])
  }

  ghost predicate Printed(ex: Exporter, codec: Codec, lines: seq<Line>, i: nat, j: nat, e: Export) {
    && i < j < |lines| && Exportable(ex, e)
    && NoMarkers(lines[..i])
    && lines[i].kind == Begin(HeaderOf(ex, codec, e))
    && NoMarkers(lines[i + 1..j])
    && (if e.plain then Concat(Texts(lines[i + 1..j])) == ex.encode64(e.payload)
        else Spells(lines[i + 1..j], ChunksOf(ex, e.payload)))
    && lines[j].kind == End(e.id)
  }

  function Frames(ex: Exporter, codec: Codec, exports: seq<Export>): seq<Frame> {
    if exports == [] then []
    else [Frame(HeaderOf(ex, codec, exports[0]), exports[0].payload)] + Frames(ex, codec, exports[1..])
  }

  lemma HeaderBegins(ex: Exporter, codec: Codec, e: Export)
    requires Lawful(ex, codec) && Exportable(ex, e)
    ensures Declarable(HeaderOf(ex, codec, e))
  {
    var z := ex.gzip(e.payload);
    FoldIsFaithful(ex.encode64(z));
    forall chars: nat | Base64Length(|z|, chars)
      ensures chars == |ex.encode64(z)|
    {
      SameLength(|z|, chars, |ex.encode64(z)|);
    }
  }

  lemma SameLength(bytes: nat, a: nat, b: nat)
    requires Base64Length(bytes, a) && Base64Length(bytes, b)
    ensures a == b
  {
    EncodedCharsExactly(bytes, a);
    EncodedCharsExactly(bytes, b);
  }

  lemma ChunksUnpack(ex: Exporter, codec: Codec, e: Export)
    requires Lawful(ex, codec) && !e.plain
    ensures Unpacks(codec, HeaderOf(ex, codec, e), ChunksOf(ex, e.payload), e.payload)
  {
    FoldIsFaithful(ex.encode64(ex.gzip(e.payload)));
  }

  lemma {:induction false} CharsAreAll(texts: seq<string>)
    ensures Chars(texts) == |Concat(texts)|
  {
    if texts != [] {
      CharsOfFirst(texts);
      CharsAreAll(texts[1..]);
    }
  }

  lemma {:induction false} CharsOfFirst(texts: seq<string>)
    requires texts != []
    ensures Chars(texts) == |texts[0]| + Chars(texts[1..])
  {
    if |texts| > 1 {
      CharsOfFirst(texts[..|texts| - 1]);
      assert texts[..|texts| - 1][1..] == texts[1..][..|texts| - 2];
    }
  }

  lemma PlainFits(ex: Exporter, codec: Codec, e: Export)
    requires Lawful(ex, codec) && Exportable(ex, e)
    ensures |ex.encode64(e.payload)| <= 89478488
  {
    EncodedCharsExactly(|e.payload|, |ex.encode64(e.payload)|);
  }

  lemma PlainCarries(ex: Exporter, codec: Codec, body: seq<Line>, e: Export)
    requires Lawful(ex, codec) && Exportable(ex, e) && e.plain && Concat(Texts(body)) == ex.encode64(e.payload)
    ensures Carries(codec, HeaderOf(ex, codec, e), body, e.payload)
  {
    HeaderBegins(ex, codec, e);
    CharsAreAll(Texts(body));
    PlainFits(ex, codec, e);
  }

  lemma ChunksCarry(ex: Exporter, codec: Codec, body: seq<Line>, e: Export)
    requires Lawful(ex, codec) && Exportable(ex, e) && !e.plain && Spells(body, ChunksOf(ex, e.payload))
    ensures Carries(codec, HeaderOf(ex, codec, e), body, e.payload)
  {
    HeaderBegins(ex, codec, e);
    ChunksUnpack(ex, codec, e);
    assert Spells(body, ChunksOf(ex, e.payload))
           && Unpacks(codec, HeaderOf(ex, codec, e), ChunksOf(ex, e.payload), e.payload);
  }

  lemma PrintedCarries(ex: Exporter, codec: Codec, lines: seq<Line>, i: nat, j: nat, e: Export)
    requires Lawful(ex, codec) && Printed(ex, codec, lines, i, j, e)
    ensures FirstFrame(codec, lines, i, j, Frame(HeaderOf(ex, codec, e), e.payload))
  {
    if e.plain {
      PlainCarries(ex, codec, lines[i + 1..j], e);
    } else {
      ChunksCarry(ex, codec, lines[i + 1..j], e);
    }
  }

  lemma TranscriptFirst(ex: Exporter, codec: Codec, lines: seq<Line>, exports: seq<Export>) returns (i: nat, j: nat)
    requires Transcript(ex, codec, lines, exports) && exports != []
    ensures Printed(ex, codec, lines, i, j, exports[0]) && Transcript(ex, codec, lines[j + 1..], exports[1..])
  {
    i, j :| Printed(ex, codec, lines, i, j, exports[0]) && Transcript(ex, codec, lines[j + 1..], exports[1..]);
  }

  lemma ReadsOneMore(codec: Codec, lines: seq<Line>, i: nat, j: nat, f: Frame, rest: seq<Frame>)
    requires FirstFrame(codec, lines, i, j, f) && Reads(codec, lines[j + 1..], rest)
    ensures Reads(codec, lines, [f] + rest)
  {
    assert ([f] + rest)[0] == f && ([f] + rest)[1..] == rest;
    assert FirstFrame(codec, lines, i, j, ([f] + rest)[0]) && Reads(codec, lines[j + 1..], ([f] + rest)[1..]);
  }

  lemma {:induction false} TranscriptReads(ex: Exporter, codec: Codec, lines: seq<Line>, exports: seq<Export>)
    requires Lawful(ex, codec) && Transcript(ex, codec, lines, exports)
    ensures Reads(codec, lines, Frames(ex, codec, exports))
    decreases |exports|
  {
    if exports != [] {
      var i, j := TranscriptFirst(ex, codec, lines, exports);
      PrintedCarries(ex, codec, lines, i, j, exports[0]);
      TranscriptReads(ex, codec, lines[j + 1..], exports[1..]);
      var f := Frame(HeaderOf(ex, codec, exports[0]), exports[0].payload);
      ReadsOneMore(codec, lines, i, j, f, Frames(ex, codec, exports[1..]));
    }
  }

  /** Round trip under noise: the decoder returns exactly the exported payloads, in
      order, with the headers they were exported under. */
  lemma RoundTrip(ex: Exporter, codec: Codec, lines: seq<Line>, exports: seq<Export>)
    requires Lawful(ex, codec) && Transcript(ex, codec, lines, exports)
    ensures ParseFrom(codec, Start, lines) == Ok(Frames(ex, codec, exports))
  {
    TranscriptReads(ex, codec, lines, exports);
    DecoderIsExact(codec, lines, Frames(ex, codec, exports));
  }
}
