/** The decoder itself. */
module FrameDecoder {
  import opened Options
  import opened FrameModel
  import opened FrameTheorems

  /** The loop of `parse_observation_frames`, with its mutable frame: it returns frames if
      and only if the lines spell exactly those frames, and otherwise raises. */
  method ParseObservationFrames(codec: Codec, lines: seq<Line>) returns (result: Result<seq<Frame>>)
    ensures result == ParseFrom(codec, Start, lines)
    ensures forall frames :: result == Ok(frames) <==> Reads(codec, lines, frames)
  {
    forall fs
      ensures ParseFrom(codec, Start, lines) == Ok(fs) <==> Reads(codec, lines, fs)
    {
      DecoderIsExact(codec, lines, fs);
    }
    var frames: seq<Frame> := [];
    var current: Option<Open> := None;
    for n := 0 to |lines|
      invariant ParseFrom(codec, Start, lines) == ParseFrom(codec, Progress(frames, current), lines[n..])
    {
      var line := lines[n];
      assert lines[n..][0] == line && lines[n..][1..] == lines[n + 1..];
      if line.kind.Begin? {
        if current.Some? {
          return Err(NestedBegin);
        }
        var begun := BeginFrame(line.kind.header);
        if begun.Err? {
          return Err(begun.error);
        }
        current := Some(begun.value);
      } else if line.kind.End? {
        if current.None? {
          return Err(EndWithoutBegin);
        }
        var frame := Finish(codec, current.value, line.kind.id);
        if frame.Err? {
          return Err(frame.error);
        }
        frames, current := frames + [frame.value], None;
      } else if current.Some? {
        var fed := Feed(current.value, line);
        if fed.Err? {
          return Err(fed.error);
        }
        current := Some(fed.value);
      }
    }
    if current.Some? {
      return Err(Truncated);
    }
    return Ok(frames);
  }
}
