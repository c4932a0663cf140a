/** The decoder of observation frames that arrive on a noisy console.

    A line is given with its classification by the three marker patterns; base64,
    SHA-256 and gzip are parameters.  A frame is opened by a begin marker, carries its
    payload either as plain base64 text or as numbered chunks of compressed base64 that
    the guest prints twice, and is closed by an end marker. */
module FrameModel {
  import opened Options

  datatype Error =
    | NestedBegin | OversizedArena | OversizedCompressed | ChunkCountMismatch
    | EndWithoutBegin | IdentityMismatch
    | MissingChunks | ExcessCopies | EncodedLengthMismatch | BadCompressedBase64
    | CompressedLengthMismatch | CompressedDigestMismatch | BadGzip
    | BadBase64 | LengthMismatch | DigestMismatch
    | ChunkOutOfBounds | CopiesDisagree | TooMuchBase64 | Truncated

  datatype Result<+T> = Ok(value: T) | Err(error: Error)

  type Byte = x: int | 0 <= x < 256

  type Bytes = seq<Byte>

  const MAX_BYTES: nat := 64 * 1024 * 1024
  const MAX_COMPRESSED: nat := MAX_BYTES + 1024 * 1024
  const CHUNK_CHARS: nat := 1024

  /** `gunzip` is given the declared length and fails when the stream is damaged, longer
      than declared or followed by other data. */
  datatype Codec = Codec(
    decode64: string -> Option<Bytes>,
    sha256: Bytes -> string,
    gunzip: (Bytes, nat) -> Option<Bytes>)

  datatype Identity = Identity(role: string, endpoint: nat, file: string)

  datatype Coding = Raw | Gzip(compressedBytes: nat, compressedSha: string, chunks: nat)

  datatype Header = Header(id: Identity, bytes: nat, sha: string, coding: Coding)

  datatype Kind = Begin(header: Header) | End(id: Identity) | Chunk(sequence: nat, data: string) | Other

  /** A console line, stripped, and what the patterns make of it. */
  datatype Line = Line(kind: Kind, text: string)

  datatype Frame = Frame(header: Header, payload: Bytes)

  /** Characters of base64 for so many bytes (section 4 of RFC 4648). */
  function EncodedChars(bytes: nat): nat {
    (bytes + 2) / 3 * 4
  }

  function ExpectedChunks(bytes: nat): nat {
    (EncodedChars(bytes) + CHUNK_CHARS - 1) / CHUNK_CHARS
  }

  function Concat(parts: seq<string>): string {
    if parts == [] then "" else parts[0] + Concat(parts[1..])
  }

  // --- The decoder, line by line ---------------------------------------------------

  /** The frame being read. */
  datatype Open = Open(
    header: Header, data: map<nat, string>, copies: map<nat, nat>, base64: seq<string>, chars: nat)

  datatype Progress = Progress(frames: seq<Frame>, current: Option<Open>)

  function BeginFrame(h: Header): Result<Open> {
    if h.bytes > MAX_BYTES then Err(OversizedArena)
    else if h.coding.Gzip? && h.coding.compressedBytes > MAX_COMPRESSED then Err(OversizedCompressed)
    else if h.coding.Gzip? && (h.coding.chunks == 0 || h.coding.chunks != ExpectedChunks(h.coding.compressedBytes)) then
      Err(ChunkCountMismatch)
    else Ok(Open(h, map[], map[], [], 0))
  }

  /** A line inside a frame that is neither a begin nor an end marker. */
  function Feed(o: Open, line: Line): Result<Open> {
    if o.header.coding.Gzip? then
      if !line.kind.Chunk? then Ok(o)
      else
        var i, data := line.kind.sequence, line.kind.data;
        if i >= o.header.coding.chunks || |data| > CHUNK_CHARS then Err(ChunkOutOfBounds)
        else if i in o.data && o.data[i] != data then Err(CopiesDisagree)
        else Ok(o.(data := o.data[i := data],
                   copies := o.copies[i := (if i in o.copies then o.copies[i] else 0) + 1]))
    else if line.text == "" then Ok(o)
    else if o.chars + |line.text| > EncodedChars(MAX_BYTES) then Err(TooMuchBase64)
    else Ok(o.(base64 := o.base64 + [line.text], chars := o.chars + |line.text|))
  }

  /** The chunks in order. */
  function InOrder(data: map<nat, string>, n: nat): seq<string>
    requires forall i :: 0 <= i < n ==> i in data
  {
    seq(n, i requires 0 <= i < n => data[i])
  }

  function UpTo(n: nat): (r: set<nat>)
    ensures forall i: nat :: i in r <==> i < n
  {
    if n == 0 then {} else UpTo(n - 1) + {n - 1}
  }

  function Finish(codec: Codec, o: Open, id: Identity): Result<Frame> {
    var h := o.header;
    if id != h.id then Err(IdentityMismatch)
    else if h.coding.Gzip? then
      var n, size := h.coding.chunks, h.coding.compressedBytes;
      if o.data.Keys != UpTo(n) then Err(MissingChunks)
      else if exists i :: i in o.copies && o.copies[i] > 2 then Err(ExcessCopies)
      else
        var encoded := Concat(InOrder(o.data, n));
        if |encoded| != EncodedChars(size) then Err(EncodedLengthMismatch)
        else match codec.decode64(encoded)
             case None => Err(BadCompressedBase64)
             case Some(compressed) =>
               if |compressed| != size then Err(CompressedLengthMismatch)
               else if codec.sha256(compressed) != h.coding.compressedSha then Err(CompressedDigestMismatch)
               else match codec.gunzip(compressed, h.bytes)
                    case None => Err(BadGzip)
                    case Some(payload) => CheckPayload(codec, h, payload)
    else match codec.decode64(Concat(o.base64))
         case None => Err(BadBase64)
         case Some(payload) => CheckPayload(codec, h, payload)
  }

  function CheckPayload(codec: Codec, h: Header, payload: Bytes): Result<Frame> {
    if |payload| != h.bytes then Err(LengthMismatch)
    else if codec.sha256(payload) != h.sha then Err(DigestMismatch)
    else Ok(Frame(h, payload))
  }

  function Next(codec: Codec, p: Progress, line: Line): Result<Progress> {
    match line.kind
    case Begin(h) =>
      if p.current.Some? then Err(NestedBegin)
      else (match BeginFrame(h)
            case Err(e) => Err(e)
            case Ok(o) => Ok(p.(current := Some(o))))
    case End(id) =>
      if p.current.None? then Err(EndWithoutBegin)
      else (match Finish(codec, p.current.value, id)
            case Err(e) => Err(e)
            case Ok(f) => Ok(Progress(p.frames + [f], None)))
    case _ =>
      if p.current.None? then Ok(p)
      else match Feed(p.current.value, line)
           case Err(e) => Err(e)
           case Ok(o) => Ok(p.(current := Some(o)))
  }

  function ParseFrom(codec: Codec, p: Progress, lines: seq<Line>): Result<seq<Frame>>
    decreases |lines|
  {
    if lines == [] then
      if p.current.Some? then Err(Truncated) else Ok(p.frames)
    else match Next(codec, p, lines[0])
         case Err(e) => Err(e)
         case Ok(q) => ParseFrom(codec, q, lines[1..])
  }

  const Start := Progress([], None)
}
