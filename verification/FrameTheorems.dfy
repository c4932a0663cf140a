/** What the decoder returns: exactly the frames that the lines spell out. */
module FrameTheorems {
  import opened Options
  import opened FrameModel

  // --- Reading frames off the lines, without a decoder -----------------------------

  predicate Marker(line: Line) {
    line.kind.Begin? || line.kind.End?
  }

  ghost predicate NoMarkers(lines: seq<Line>) {
    forall i :: 0 <= i < |lines| ==> !Marker(lines[i])
  }

  /** How often chunk `i` occurs among the lines. */
  function Copies(lines: seq<Line>, i: nat): nat {
    if lines == [] then 0
    else Copies(lines[..|lines| - 1], i)
         + if lines[|lines| - 1].kind.Chunk? && lines[|lines| - 1].kind.sequence == i then 1 else 0
  }

  /** Every chunk line carries the data of its number, which is in range. */
  ghost predicate Agrees(lines: seq<Line>, data: seq<string>) {
    forall k :: 0 <= k < |lines| && lines[k].kind.Chunk? ==>
      var i := lines[k].kind.sequence;
      i < |data| && lines[k].kind.data == data[i] && |data[i]| <= 1024
  }

  /** The body spells the chunks `data`: full coverage, one or two agreeing copies each. */
  ghost predicate Spells(body: seq<Line>, data: seq<string>) {
    Agrees(body, data) && forall i: nat :: i < |data| ==> 1 <= Copies(body, i) <= 2
  }

  /** `chars` is the least multiple of four that has room for so many bytes, six bits to the
      character. */
  predicate Base64Length(bytes: nat, chars: nat) {
    chars % 4 == 0 && 6 * chars >= 8 * bytes > 6 * (chars - 4)
  }

  lemma EncodedCharsExactly(bytes: nat, chars: nat)
    ensures Base64Length(bytes, chars) <==> chars == EncodedChars(bytes)
  {
  }

  /** What a begin marker may declare: an arena of at most 64 MiB, and for a compressed one
      at most 65 MiB in the least number, not zero, of chunks of 1024 characters. */
  ghost predicate Declarable(h: Header) {
    && h.bytes <= 67108864
    && (h.coding.Gzip? ==>
          && h.coding.compressedBytes <= 68157440 && h.coding.chunks > 0
          && forall chars: nat :: Base64Length(h.coding.compressedBytes, chars) ==>
               1024 * (h.coding.chunks - 1) < chars <= 1024 * h.coding.chunks)
  }

  lemma BeginsExactly(h: Header)
    ensures BeginFrame(h).Ok? <==> Declarable(h)
    ensures BeginFrame(h).Ok? ==> BeginFrame(h).value == Open(h, map[], map[], [], 0)
  {
    if h.coding.Gzip? {
      var chars := EncodedChars(h.coding.compressedBytes);
      EncodedCharsExactly(h.coding.compressedBytes, chars);
      forall other: nat | Base64Length(h.coding.compressedBytes, other)
        ensures other == chars
      {
        EncodedCharsExactly(h.coding.compressedBytes, other);
      }
    }
  }

  ghost predicate Unpacks(codec: Codec, h: Header, data: seq<string>, payload: Bytes)
    requires h.coding.Gzip?
  {
    var encoded := Concat(data);
    && |data| == h.coding.chunks
    && Base64Length(h.coding.compressedBytes, |encoded|)
    && codec.decode64(encoded).Some?
    && var compressed := codec.decode64(encoded).value;
       |compressed| == h.coding.compressedBytes
       && codec.sha256(compressed) == h.coding.compressedSha
       && codec.gunzip(compressed, h.bytes) == Some(payload)
  }

  /** The non-empty texts of a plain frame. */
  function Texts(body: seq<Line>): seq<string> {
    if body == [] then []
    else Texts(body[..|body| - 1]) + if body[|body| - 1].text == "" then [] else [body[|body| - 1].text]
  }

  function Chars(texts: seq<string>): nat {
    if texts == [] then 0 else Chars(texts[..|texts| - 1]) + |texts[|texts| - 1]|
  }

  /** The header and the body together declare and contain the payload. */
  ghost predicate Carries(codec: Codec, h: Header, body: seq<Line>, payload: Bytes) {
    && Declarable(h)
    && |payload| == h.bytes && codec.sha256(payload) == h.sha
    && match h.coding
       case Gzip(_, _, _) => exists data :: Spells(body, data) && Unpacks(codec, h, data, payload)
       case Raw => Chars(Texts(body)) <= 89478488 && codec.decode64(Concat(Texts(body))) == Some(payload)
  }

  /** The lines are the frames, each between its markers, with no other marker. */
  ghost predicate Reads(codec: Codec, lines: seq<Line>, frames: seq<Frame>)
    decreases |frames|
  {
    if frames == [] then NoMarkers(lines)
    else exists i: nat, j: nat :: FirstFrame(codec, lines, i, j, frames[0]) && Reads(codec, lines[j + 1..], frames[1..])
  }

  ghost predicate FirstFrame(codec: Codec, lines: seq<Line>, i: nat, j: nat, frame: Frame) {
    && i < j < |lines|
    && NoMarkers(lines[..i])
    && lines[i].kind == Begin(frame.header)
    && NoMarkers(lines[i + 1..j])
    && lines[j].kind == End(frame.header.id)
    && Carries(codec, frame.header, lines[i + 1..j], frame.payload)
  }

  // --- The body of a frame ---------------------------------------------------------

  /** Feeding a whole body. */
  function FeedAll(o: Open, body: seq<Line>): Result<Open> {
    if body == [] then Ok(o)
    else match FeedAll(o, body[..|body| - 1])
         case Err(e) => Err(e)
         case Ok(q) => Feed(q, body[|body| - 1])
  }

  /** The open frame after a body has been fed to it. */
  ghost predicate Fed(h: Header, body: seq<Line>, o: Open) {
    && o.header == h
    && (h.coding.Gzip? ==>
          && o.base64 == [] && o.chars == 0 && o.data.Keys == o.copies.Keys
          && (forall i :: i in o.data ==> i < h.coding.chunks && |o.data[i]| <= CHUNK_CHARS)
          && (forall i: nat :: Copies(body, i) == if i in o.copies then o.copies[i] else 0)
          && (forall i :: i in o.copies ==> o.copies[i] > 0)
          && (forall k :: 0 <= k < |body| && body[k].kind.Chunk? ==>
                body[k].kind.sequence in o.data && o.data[body[k].kind.sequence] == body[k].kind.data))
    && (h.coding.Raw? ==>
          o.data == map[] && o.base64 == Texts(body) && o.chars == Chars(o.base64) && o.chars <= 89478488)
  }

  lemma CopiesSnoc(body: seq<Line>, line: Line, i: nat)
    ensures Copies(body + [line], i)
            == Copies(body, i) + if line.kind.Chunk? && line.kind.sequence == i then 1 else 0
  {
  }

  /** A plain body may hold the characters of 64 MiB. */
  lemma RawLimit(o: Open, line: Line)
    requires o.header.coding.Raw?
    ensures Feed(o, line).Ok? <==> line.text == "" || o.chars + |line.text| <= 89478488
  {
  }

  lemma ChunkKeepsFed(h: Header, body: seq<Line>, o: Open, line: Line)
    requires h.coding.Gzip? && Fed(h, body, o) && Feed(o, line).Ok?
    ensures Fed(h, body + [line], Feed(o, line).value)
  {
    var q := Feed(o, line).value;
    forall i: nat
      ensures Copies(body + [line], i) == if i in q.copies then q.copies[i] else 0
    {
      CopiesSnoc(body, line, i);
    }
  }

  lemma TextKeepsFed(h: Header, body: seq<Line>, o: Open, line: Line)
    requires h.coding.Raw? && Fed(h, body, o) && Feed(o, line).Ok?
    ensures Fed(h, body + [line], Feed(o, line).value)
  {
    var q := Feed(o, line).value;
    RawLimit(o, line);
    assert (body + [line])[..|body|] == body;
    if line.text != "" {
      assert q.base64[..|o.base64|] == o.base64;
    } else {
      assert Texts(body) + [] == Texts(body);
    }
  }

  lemma FeedKeepsFed(h: Header, body: seq<Line>, o: Open, line: Line)
    requires Fed(h, body, o) && Feed(o, line).Ok?
    ensures Fed(h, body + [line], Feed(o, line).value)
  {
    if h.coding.Gzip? {
      ChunkKeepsFed(h, body, o, line);
    } else {
      TextKeepsFed(h, body, o, line);
    }
  }

  lemma {:induction false} FeedAllFed(h: Header, body: seq<Line>)
    requires FeedAll(Open(h, map[], map[], [], 0), body).Ok?
    ensures Fed(h, body, FeedAll(Open(h, map[], map[], [], 0), body).value)
    decreases |body|
  {
    if body != [] {
      var init := body[..|body| - 1];
      FeedAllFed(h, init);
      FeedKeepsFed(h, init, FeedAll(Open(h, map[], map[], [], 0), init).value, body[|body| - 1]);
      assert init + [body[|body| - 1]] == body;
    }
  }

  /** A body whose chunk lines agree with `data` is taken without an error. */
  lemma {:induction false} AgreeingFeeds(h: Header, body: seq<Line>, data: seq<string>)
    requires h.coding.Gzip? && |data| == h.coding.chunks && Agrees(body, data)
    ensures FeedAll(Open(h, map[], map[], [], 0), body).Ok?
    ensures var o := FeedAll(Open(h, map[], map[], [], 0), body).value;
            forall i :: i in o.data ==> i < |data| && o.data[i] == data[i]
    decreases |body|
  {
    if body != [] {
      AgreeingFeeds(h, body[..|body| - 1], data);
      FeedAllFed(h, body[..|body| - 1]);
    }
  }

  lemma {:induction false} RawFeeds(h: Header, body: seq<Line>)
    requires h.coding.Raw? && Chars(Texts(body)) <= 89478488
    ensures FeedAll(Open(h, map[], map[], [], 0), body).Ok?
    decreases |body|
  {
    if body != [] {
      var init, line := body[..|body| - 1], body[|body| - 1];
      if line.text != "" {
        assert Texts(body)[..|Texts(init)|] == Texts(init);
      } else {
        assert Texts(init) + [] == Texts(init);
      }
      RawFeeds(h, init);
      FeedAllFed(h, init);
      RawLimit(FeedAll(Open(h, map[], map[], [], 0), init).value, line);
    }
  }

  // --- The end of a frame ----------------------------------------------------------

  /** With all chunks present, their order makes them one sequence of strings. */
  lemma FinishedSpells(h: Header, body: seq<Line>, o: Open)
    requires h.coding.Gzip? && Fed(h, body, o) && o.data.Keys == UpTo(h.coding.chunks)
    requires !exists i :: i in o.copies && o.copies[i] > 2
    ensures forall i :: 0 <= i < h.coding.chunks ==> i in o.data
    ensures Spells(body, InOrder(o.data, h.coding.chunks))
  {
  }

  lemma FinishSound(codec: Codec, h: Header, body: seq<Line>, o: Open, id: Identity)
    requires BeginFrame(h).Ok? && Fed(h, body, o) && Finish(codec, o, id).Ok?
    ensures var f := Finish(codec, o, id).value;
            id == h.id && f.header == h && Carries(codec, h, body, f.payload)
  {
    BeginsExactly(h);
    if h.coding.Gzip? {
      FinishedSpells(h, body, o);
      var data := InOrder(o.data, h.coding.chunks);
      EncodedCharsExactly(h.coding.compressedBytes, |Concat(data)|);
      assert Spells(body, data) && Unpacks(codec, h, data, Finish(codec, o, id).value.payload);
    }
  }

  lemma GzipCompletes(codec: Codec, h: Header, body: seq<Line>, o: Open, data: seq<string>, payload: Bytes)
    requires h.coding.Gzip? && Fed(h, body, o) && (forall i :: i in o.data ==> i < |data| && o.data[i] == data[i])
    requires Spells(body, data) && Unpacks(codec, h, data, payload)
    requires |payload| == h.bytes && codec.sha256(payload) == h.sha
    ensures Finish(codec, o, h.id) == Ok(Frame(h, payload))
  {
    forall i: nat
      ensures i in o.data <==> i < |data|
      ensures i in o.copies ==> o.copies[i] <= 2
    {
      assert Copies(body, i) == if i in o.copies then o.copies[i] else 0;
      assert i < |data| ==> 1 <= Copies(body, i) <= 2;
    }
    EncodedCharsExactly(h.coding.compressedBytes, |Concat(data)|);
    assert o.data.Keys == UpTo(|data|);
    assert InOrder(o.data, |data|) == data;
  }

  lemma CarriedCompletes(codec: Codec, h: Header, body: seq<Line>, payload: Bytes)
    requires Carries(codec, h, body, payload)
    ensures FeedAll(Open(h, map[], map[], [], 0), body).Ok?
    ensures Finish(codec, FeedAll(Open(h, map[], map[], [], 0), body).value, h.id) == Ok(Frame(h, payload))
  {
    if h.coding.Gzip? {
      var data :| Spells(body, data) && Unpacks(codec, h, data, payload);
      AgreeingFeeds(h, body, data);
      FeedAllFed(h, body);
      GzipCompletes(codec, h, body, FeedAll(Open(h, map[], map[], [], 0), body).value, data, payload);
    } else {
      RawFeeds(h, body);
      FeedAllFed(h, body);
    }
  }

  // --- Whole lines -----------------------------------------------------------------

  function Advance(codec: Codec, p: Progress, lines: seq<Line>): Result<Progress> {
    if lines == [] then Ok(p)
    else match Advance(codec, p, lines[..|lines| - 1])
         case Err(e) => Err(e)
         case Ok(q) => Next(codec, q, lines[|lines| - 1])
  }

  lemma {:induction false} ParseInTwo(codec: Codec, p: Progress, a: seq<Line>, b: seq<Line>)
    ensures ParseFrom(codec, p, a + b)
            == match Advance(codec, p, a) case Err(e) => Err(e) case Ok(q) => ParseFrom(codec, q, b)
    decreases |a|
  {
    if a == [] {
      assert a + b == b;
    } else {
      var init, x := a[..|a| - 1], a[|a| - 1];
      ParseInTwo(codec, p, init, [x] + b);
      assert a + b == init + ([x] + b);
      assert ([x] + b)[1..] == b;
    }
  }

  lemma {:induction false} AdvanceOutside(codec: Codec, frames: seq<Frame>, lines: seq<Line>)
    requires NoMarkers(lines)
    ensures Advance(codec, Progress(frames, None), lines) == Ok(Progress(frames, None))
    decreases |lines|
  {
    if lines != [] {
      AdvanceOutside(codec, frames, lines[..|lines| - 1]);
    }
  }

  lemma {:induction false} AdvanceInside(codec: Codec, frames: seq<Frame>, o: Open, body: seq<Line>)
    requires NoMarkers(body)
    ensures Advance(codec, Progress(frames, Some(o)), body)
            == match FeedAll(o, body) case Err(e) => Err(e) case Ok(q) => Ok(Progress(frames, Some(q)))
    decreases |body|
  {
    if body != [] {
      AdvanceInside(codec, frames, o, body[..|body| - 1]);
    }
  }

  /** The number of lines before the first marker. */
  lemma {:induction false} FirstMarker(lines: seq<Line>) returns (i: nat)
    ensures i <= |lines| && NoMarkers(lines[..i]) && (i < |lines| ==> Marker(lines[i]))
    decreases |lines|
  {
    i := 0;
    while i < |lines| && !Marker(lines[i])
      invariant i <= |lines| && NoMarkers(lines[..i])
    {
      i := i + 1;
    }
  }

  function DecodeFrame(codec: Codec, h: Header, body: seq<Line>, id: Identity): Result<Frame> {
    var fed := FeedAll(Open(h, map[], map[], [], 0), body);
    if fed.Err? then Err(fed.error) else Finish(codec, fed.value, id)
  }

  function AfterFrame(codec: Codec, fs: seq<Frame>, h: Header, body: seq<Line>, id: Identity, rest: seq<Line>):
    Result<seq<Frame>>
  {
    var frame := DecodeFrame(codec, h, body, id);
    if frame.Err? then Err(frame.error) else ParseFrom(codec, Progress(fs + [frame.value], None), rest)
  }

  /** Lines before the first marker change nothing. */
  lemma SkipNoise(codec: Codec, fs: seq<Frame>, noise: seq<Line>, rest: seq<Line>)
    requires NoMarkers(noise)
    ensures ParseFrom(codec, Progress(fs, None), noise + rest) == ParseFrom(codec, Progress(fs, None), rest)
  {
    ParseInTwo(codec, Progress(fs, None), noise, rest);
    AdvanceOutside(codec, fs, noise);
  }

  /** The begin marker opens a frame, or fails. */
  lemma OpenFrame(codec: Codec, fs: seq<Frame>, begin: Line, h: Header, rest: seq<Line>)
    requires begin.kind == Begin(h)
    ensures BeginFrame(h).Err? ==> ParseFrom(codec, Progress(fs, None), [begin] + rest).Err?
    ensures BeginFrame(h).Ok? ==>
              ParseFrom(codec, Progress(fs, None), [begin] + rest)
              == ParseFrom(codec, Progress(fs, Some(Open(h, map[], map[], [], 0))), rest)
  {
    assert ([begin] + rest)[1..] == rest;
  }

  lemma ReadBody(codec: Codec, fs: seq<Frame>, o: Open, body: seq<Line>, rest: seq<Line>)
    requires NoMarkers(body)
    ensures FeedAll(o, body).Err? ==> ParseFrom(codec, Progress(fs, Some(o)), body + rest) == Err(FeedAll(o, body).error)
    ensures FeedAll(o, body).Ok? ==>
              ParseFrom(codec, Progress(fs, Some(o)), body + rest)
              == ParseFrom(codec, Progress(fs, Some(FeedAll(o, body).value)), rest)
  {
    ParseInTwo(codec, Progress(fs, Some(o)), body, rest);
    AdvanceInside(codec, fs, o, body);
  }

  lemma CloseFrame(codec: Codec, fs: seq<Frame>, o: Open, end: Line, rest: seq<Line>)
    requires end.kind.End?
    ensures Finish(codec, o, end.kind.id).Err? ==>
              ParseFrom(codec, Progress(fs, Some(o)), [end] + rest) == Err(Finish(codec, o, end.kind.id).error)
    ensures Finish(codec, o, end.kind.id).Ok? ==>
              ParseFrom(codec, Progress(fs, Some(o)), [end] + rest)
              == ParseFrom(codec, Progress(fs + [Finish(codec, o, end.kind.id).value], None), rest)
  {
    assert ([end] + rest)[1..] == rest;
  }

  lemma BodyAndEnd(codec: Codec, fs: seq<Frame>, h: Header, body: seq<Line>, end: Line, rest: seq<Line>)
    requires NoMarkers(body) && end.kind.End?
    ensures ParseFrom(codec, Progress(fs, Some(Open(h, map[], map[], [], 0))), body + ([end] + rest))
            == AfterFrame(codec, fs, h, body, end.kind.id, rest)
  {
    var o := Open(h, map[], map[], [], 0);
    ReadBody(codec, fs, o, body, [end] + rest);
    if FeedAll(o, body).Ok? {
      CloseFrame(codec, fs, FeedAll(o, body).value, end, rest);
    }
  }

  lemma CutAround(lines: seq<Line>, i: nat)
    requires i < |lines|
    ensures lines == lines[..i] + ([lines[i]] + lines[i + 1..])
  {
  }

  lemma CutBefore(lines: seq<Line>, i: nat, j: nat)
    requires i <= j <= |lines|
    ensures lines[i..] == lines[i..j] + lines[j..] && lines[i..][..j - i] == lines[i..j]
    ensures j < |lines| ==> lines[j..] == [lines[j]] + lines[j + 1..]
  {
  }

  /** Up to and including the first begin marker. */
  lemma UpToBegin(codec: Codec, fs: seq<Frame>, lines: seq<Line>, i: nat, h: Header)
    requires i < |lines| && NoMarkers(lines[..i]) && lines[i].kind == Begin(h)
    ensures BeginFrame(h).Err? ==> ParseFrom(codec, Progress(fs, None), lines).Err?
    ensures BeginFrame(h).Ok? ==>
              ParseFrom(codec, Progress(fs, None), lines)
              == ParseFrom(codec, Progress(fs, Some(Open(h, map[], map[], [], 0))), lines[i + 1..])
  {
    CutAround(lines, i);
    SkipNoise(codec, fs, lines[..i], [lines[i]] + lines[i + 1..]);
    OpenFrame(codec, fs, lines[i], h, lines[i + 1..]);
  }

  /** One whole frame, from a state between frames. */
  lemma ParseFrame(codec: Codec, fs: seq<Frame>, lines: seq<Line>, i: nat, j: nat, h: Header)
    requires i < j < |lines| && NoMarkers(lines[..i]) && NoMarkers(lines[i + 1..j])
    requires lines[i].kind == Begin(h) && BeginFrame(h).Ok? && lines[j].kind.End?
    ensures ParseFrom(codec, Progress(fs, None), lines)
            == AfterFrame(codec, fs, h, lines[i + 1..j], lines[j].kind.id, lines[j + 1..])
  {
    UpToBegin(codec, fs, lines, i, h);
    CutBefore(lines, i + 1, j);
    BodyAndEnd(codec, fs, h, lines[i + 1..j], lines[j], lines[j + 1..]);
  }

  lemma EndComes(codec: Codec, fs: seq<Frame>, o: Open, body: seq<Line>, rest: seq<Line>)
    requires NoMarkers(body) && ParseFrom(codec, Progress(fs, Some(o)), body + rest).Ok?
    requires rest != [] ==> Marker(rest[0])
    ensures rest != [] && rest[0].kind.End?
  {
    ReadBody(codec, fs, o, body, rest);
  }

  /** A frame that was begun in a successful parse has its end marker as the next one. */
  lemma FrameEnd(codec: Codec, fs: seq<Frame>, lines: seq<Line>, i: nat, h: Header) returns (j: nat)
    requires ParseFrom(codec, Progress(fs, None), lines).Ok?
    requires i < |lines| && NoMarkers(lines[..i]) && lines[i].kind == Begin(h)
    ensures i < j < |lines| && NoMarkers(lines[i + 1..j]) && lines[j].kind.End? && BeginFrame(h).Ok?
  {
    UpToBegin(codec, fs, lines, i, h);
    var k := FirstMarker(lines[i + 1..]);
    j := i + 1 + k;
    CutBefore(lines, i + 1, j);
    EndComes(codec, fs, Open(h, map[], map[], [], 0), lines[i + 1..j], lines[j..]);
  }

  lemma OneFrameSound(codec: Codec, fs: seq<Frame>, lines: seq<Line>, i: nat) returns (j: nat, f: Frame)
    requires ParseFrom(codec, Progress(fs, None), lines).Ok?
    requires i < |lines| && NoMarkers(lines[..i]) && lines[i].kind.Begin?
    ensures FirstFrame(codec, lines, i, j, f)
    ensures ParseFrom(codec, Progress(fs, None), lines) == ParseFrom(codec, Progress(fs + [f], None), lines[j + 1..])
  {
    var h := lines[i].kind.header;
    j := FrameEnd(codec, fs, lines, i, h);
    ParseFrame(codec, fs, lines, i, j, h);
    FeedAllFed(h, lines[i + 1..j]);
    var o := FeedAll(Open(h, map[], map[], [], 0), lines[i + 1..j]).value;
    FinishSound(codec, h, lines[i + 1..j], o, lines[j].kind.id);
    f := Finish(codec, o, lines[j].kind.id).value;
  }

  lemma OneFrameComplete(codec: Codec, fs: seq<Frame>, lines: seq<Line>, i: nat, j: nat, f: Frame)
    requires FirstFrame(codec, lines, i, j, f)
    ensures ParseFrom(codec, Progress(fs, None), lines) == ParseFrom(codec, Progress(fs + [f], None), lines[j + 1..])
  {
    BeginsExactly(f.header);
    ParseFrame(codec, fs, lines, i, j, f.header);
    CarriedCompletes(codec, f.header, lines[i + 1..j], f.payload);
  }

  lemma NoFrames(codec: Codec, fs: seq<Frame>, lines: seq<Line>)
    requires NoMarkers(lines)
    ensures ParseFrom(codec, Progress(fs, None), lines) == Ok(fs)
  {
  }

  /** The first marker of a successful parse begins a frame. */
  lemma MarkerBegins(codec: Codec, fs: seq<Frame>, lines: seq<Line>, i: nat)
    requires ParseFrom(codec, Progress(fs, None), lines).Ok?
    requires i < |lines| && NoMarkers(lines[..i]) && Marker(lines[i])
    ensures lines[i].kind.Begin?
  {
    assert lines == lines[..i] + lines[i..];
    ParseInTwo(codec, Progress(fs, None), lines[..i], lines[i..]);
    AdvanceOutside(codec, fs, lines[..i]);
  }

  /** Soundness: whatever the decoder returns can be read off the lines. */
  lemma {:induction false} ParseSound(codec: Codec, fs: seq<Frame>, lines: seq<Line>) returns (frames: seq<Frame>)
    requires ParseFrom(codec, Progress(fs, None), lines).Ok?
    ensures ParseFrom(codec, Progress(fs, None), lines) == Ok(fs + frames) && Reads(codec, lines, frames)
    decreases |lines|
  {
    var i := FirstMarker(lines);
    if i == |lines| {
      frames := [];
      assert fs + [] == fs && lines[..i] == lines;
      NoFrames(codec, fs, lines);
    } else {
      MarkerBegins(codec, fs, lines, i);
      var j, f := OneFrameSound(codec, fs, lines, i);
      var rest := ParseSound(codec, fs + [f], lines[j + 1..]);
      frames := [f] + rest;
      assert fs + [f] + rest == fs + frames;
      assert FirstFrame(codec, lines, i, j, frames[0]) && frames[1..] == rest;
    }
  }

  lemma ReadsFirst(codec: Codec, lines: seq<Line>, frames: seq<Frame>) returns (i: nat, j: nat)
    requires Reads(codec, lines, frames) && frames != []
    ensures FirstFrame(codec, lines, i, j, frames[0]) && Reads(codec, lines[j + 1..], frames[1..])
  {
    i, j :| FirstFrame(codec, lines, i, j, frames[0]) && Reads(codec, lines[j + 1..], frames[1..]);
  }

  /** Completeness: frames that can be read off the lines are what the decoder returns. */
  lemma {:induction false} ParseComplete(codec: Codec, fs: seq<Frame>, lines: seq<Line>, frames: seq<Frame>)
    requires Reads(codec, lines, frames)
    ensures ParseFrom(codec, Progress(fs, None), lines) == Ok(fs + frames)
    decreases |frames|
  {
    if frames == [] {
      NoFrames(codec, fs, lines);
      assert fs + [] == fs;
    } else {
      var i, j := ReadsFirst(codec, lines, frames);
      ParseComplete(codec, fs + [frames[0]], lines[j + 1..], frames[1..]);
      OneFrameMore(codec, fs, lines, i, j, frames);
    }
  }

  lemma FirstMoves(fs: seq<Frame>, frames: seq<Frame>)
    requires frames != []
    ensures fs + [frames[0]] + frames[1..] == fs + frames
  {
  }

  lemma OneFrameMore(codec: Codec, fs: seq<Frame>, lines: seq<Line>, i: nat, j: nat, frames: seq<Frame>)
    requires frames != [] && FirstFrame(codec, lines, i, j, frames[0])
    requires ParseFrom(codec, Progress(fs + [frames[0]], None), lines[j + 1..]) == Ok(fs + [frames[0]] + frames[1..])
    ensures ParseFrom(codec, Progress(fs, None), lines) == Ok(fs + frames)
  {
    OneFrameComplete(codec, fs, lines, i, j, frames[0]);
    FirstMoves(fs, frames);
  }

  /** The decoder returns frames if and only if the lines spell exactly those frames. */
  lemma DecoderIsExact(codec: Codec, lines: seq<Line>, frames: seq<Frame>)
    ensures ParseFrom(codec, Start, lines) == Ok(frames) <==> Reads(codec, lines, frames)
  {
    if ParseFrom(codec, Start, lines).Ok? {
      var found := ParseSound(codec, [], lines);
      assert [] + found == found;
    }
    if Reads(codec, lines, frames) {
      ParseComplete(codec, [], lines, frames);
      assert [] + frames == frames;
    }
  }
}
