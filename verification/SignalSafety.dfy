/** Every access of either guest keeps the invariant. */
module SignalSafety {
  import opened SignalModel
  import opened SignalInvariant

  // --- The reader ------------------------------------------------------------------

  lemma ReaderStaysInRange(cfg: Config, s: State, t: State)
    requires cfg.Valid() && Wellformed(cfg, s) && t == ReaderStep(cfg, s)
    requires Causal(cfg, s.reader, s.writer)
    ensures Wellformed(cfg, t)
  {
  }

  lemma ReaderLines1(cfg: Config, s: State, t: State)
    requires cfg.Valid() && Wellformed(cfg, s) && t == ReaderStep(cfg, s) && s.reader.at <= 3
    requires Wellformed(cfg, t) && Zeroed(s.mem, s.reader) && Causal(cfg, s.reader, s.writer) && Lines(cfg, s)
    ensures Lines(cfg, t)
  {
  }

  lemma ReaderLines2(cfg: Config, s: State, t: State)
    requires cfg.Valid() && Wellformed(cfg, s) && t == ReaderStep(cfg, s) && 4 <= s.reader.at <= 8
    requires Wellformed(cfg, t) && Zeroed(s.mem, s.reader) && Causal(cfg, s.reader, s.writer) && Lines(cfg, s)
    ensures Lines(cfg, t)
  {
  }

  lemma ReaderLines3(cfg: Config, s: State, t: State)
    requires cfg.Valid() && Wellformed(cfg, s) && t == ReaderStep(cfg, s) && 9 <= s.reader.at <= 10
    requires Wellformed(cfg, t) && Zeroed(s.mem, s.reader) && Causal(cfg, s.reader, s.writer) && Lines(cfg, s)
    ensures Lines(cfg, t)
  {
  }

  lemma ReaderLines4(cfg: Config, s: State, t: State)
    requires cfg.Valid() && Wellformed(cfg, s) && t == ReaderStep(cfg, s) && 11 <= s.reader.at <= 13
    requires Wellformed(cfg, t) && Zeroed(s.mem, s.reader) && Causal(cfg, s.reader, s.writer) && Lines(cfg, s)
    ensures Lines(cfg, t)
  {
  }

  lemma ReaderLines5(cfg: Config, s: State, t: State)
    requires cfg.Valid() && Wellformed(cfg, s) && t == ReaderStep(cfg, s) && 14 <= s.reader.at <= 16
    requires Wellformed(cfg, t) && Zeroed(s.mem, s.reader) && Causal(cfg, s.reader, s.writer) && Lines(cfg, s)
    ensures Lines(cfg, t)
  {
  }

  lemma ReaderLines6(cfg: Config, s: State, t: State)
    requires cfg.Valid() && Wellformed(cfg, s) && t == ReaderStep(cfg, s) && 17 <= s.reader.at
    requires Wellformed(cfg, t) && Zeroed(s.mem, s.reader) && Causal(cfg, s.reader, s.writer) && Lines(cfg, s)
    ensures Lines(cfg, t)
  {
  }

  lemma ReaderCausal(cfg: Config, s: State, t: State)
    requires cfg.Valid() && Wellformed(cfg, s) && t == ReaderStep(cfg, s)
    requires Causal(cfg, s.reader, s.writer) && Lines(cfg, s)
    ensures Causal(cfg, t.reader, t.writer)
  {
  }

  lemma ReaderData1(cfg: Config, s: State, t: State)
    requires cfg.Valid() && Wellformed(cfg, s) && t == ReaderStep(cfg, s) && s.reader.at <= 8
    requires Wellformed(cfg, t) && Causal(cfg, s.reader, s.writer) && Data(cfg, s.mem, s.reader, s.writer)
    ensures Data(cfg, t.mem, t.reader, t.writer)
  {
  }

  lemma ReaderData2(cfg: Config, s: State, t: State)
    requires cfg.Valid() && Wellformed(cfg, s) && t == ReaderStep(cfg, s) && s.reader.at > 8
    requires Wellformed(cfg, t) && Causal(cfg, s.reader, s.writer) && Data(cfg, s.mem, s.reader, s.writer)
    ensures Data(cfg, t.mem, t.reader, t.writer)
  {
  }

  lemma ReaderSums(cfg: Config, s: State, t: State)
    requires cfg.Valid() && Wellformed(cfg, s) && t == ReaderStep(cfg, s)
    requires Causal(cfg, s.reader, s.writer) && Data(cfg, s.mem, s.reader, s.writer) && Sums(cfg, s.reader, s.writer)
    ensures Sums(cfg, t.reader, t.writer)
  {
  }

  lemma ReaderClean(cfg: Config, s: State, t: State)
    requires cfg.Valid() && Wellformed(cfg, s) && t == ReaderStep(cfg, s)
    requires Causal(cfg, s.reader, s.writer) && Data(cfg, s.mem, s.reader, s.writer) && Lines(cfg, s) && Clean(s.reader)
    ensures Clean(t.reader)
  {
  }

  lemma ReaderZeroed(cfg: Config, s: State, t: State)
    requires cfg.Valid() && Wellformed(cfg, s) && t == ReaderStep(cfg, s)
    requires Wellformed(cfg, t) && Causal(cfg, s.reader, s.writer) && Zeroed(s.mem, s.reader)
    ensures Zeroed(t.mem, t.reader)
  {
  }

  lemma ReaderKeepsInv(cfg: Config, s: State, t: State)
    requires cfg.Valid() && Inv(cfg, s) && t == ReaderStep(cfg, s)
    ensures Inv(cfg, t)
  {
    ReaderStaysInRange(cfg, s, t);
    if s.reader.at <= 3 {
      ReaderLines1(cfg, s, t);
    } else if s.reader.at <= 8 {
      ReaderLines2(cfg, s, t);
    } else if s.reader.at <= 10 {
      ReaderLines3(cfg, s, t);
    } else if s.reader.at <= 13 {
      ReaderLines4(cfg, s, t);
    } else if s.reader.at <= 16 {
      ReaderLines5(cfg, s, t);
    } else {
      ReaderLines6(cfg, s, t);
    }
    ReaderCausal(cfg, s, t);
    if s.reader.at <= 8 {
      ReaderData1(cfg, s, t);
    } else {
      ReaderData2(cfg, s, t);
    }
    ReaderSums(cfg, s, t);
    ReaderClean(cfg, s, t);
    ReaderZeroed(cfg, s, t);
  }

  // --- The writer ------------------------------------------------------------------

  lemma WriterStaysInRange(cfg: Config, s: State, t: State)
    requires cfg.Valid() && Wellformed(cfg, s) && t == WriterStep(cfg, s)
    requires Causal(cfg, s.reader, s.writer)
    ensures Wellformed(cfg, t)
  {
  }

  lemma WriterLines1(cfg: Config, s: State, t: State)
    requires cfg.Valid() && Wellformed(cfg, s) && t == WriterStep(cfg, s) && s.writer.at <= 4
    requires Wellformed(cfg, t) && Zeroed(s.mem, s.reader) && Causal(cfg, s.reader, s.writer) && Lines(cfg, s)
    ensures Lines(cfg, t)
  {
  }

  lemma WriterLines2(cfg: Config, s: State, t: State)
    requires cfg.Valid() && Wellformed(cfg, s) && t == WriterStep(cfg, s) && 5 <= s.writer.at <= 7
    requires Wellformed(cfg, t) && Zeroed(s.mem, s.reader) && Causal(cfg, s.reader, s.writer) && Lines(cfg, s)
    ensures Lines(cfg, t)
  {
  }

  lemma WriterLines3(cfg: Config, s: State, t: State)
    requires cfg.Valid() && Wellformed(cfg, s) && t == WriterStep(cfg, s) && 8 <= s.writer.at <= 9
    requires Wellformed(cfg, t) && Zeroed(s.mem, s.reader) && Causal(cfg, s.reader, s.writer) && Lines(cfg, s)
    ensures Lines(cfg, t)
  {
  }

  lemma WriterLines4(cfg: Config, s: State, t: State)
    requires cfg.Valid() && Wellformed(cfg, s) && t == WriterStep(cfg, s) && 10 <= s.writer.at <= 12
    requires Wellformed(cfg, t) && Zeroed(s.mem, s.reader) && Causal(cfg, s.reader, s.writer) && Lines(cfg, s)
    ensures Lines(cfg, t)
  {
  }

  lemma WriterLines5(cfg: Config, s: State, t: State)
    requires cfg.Valid() && Wellformed(cfg, s) && t == WriterStep(cfg, s) && 13 <= s.writer.at <= 15
    requires Wellformed(cfg, t) && Zeroed(s.mem, s.reader) && Causal(cfg, s.reader, s.writer) && Lines(cfg, s)
    ensures Lines(cfg, t)
  {
  }

  lemma WriterLines6(cfg: Config, s: State, t: State)
    requires cfg.Valid() && Wellformed(cfg, s) && t == WriterStep(cfg, s) && 16 <= s.writer.at
    requires Wellformed(cfg, t) && Zeroed(s.mem, s.reader) && Causal(cfg, s.reader, s.writer) && Lines(cfg, s)
    ensures Lines(cfg, t)
  {
  }

  lemma WriterCausal(cfg: Config, s: State, t: State)
    requires cfg.Valid() && Wellformed(cfg, s) && t == WriterStep(cfg, s)
    requires Causal(cfg, s.reader, s.writer) && Lines(cfg, s)
    ensures Causal(cfg, t.reader, t.writer)
  {
  }

  lemma WriterData1(cfg: Config, s: State, t: State)
    requires cfg.Valid() && Wellformed(cfg, s) && t == WriterStep(cfg, s) && s.writer.at <= 9
    requires Wellformed(cfg, t) && Causal(cfg, s.reader, s.writer) && Data(cfg, s.mem, s.reader, s.writer)
    ensures Data(cfg, t.mem, t.reader, t.writer)
  {
  }

  lemma WriterData2(cfg: Config, s: State, t: State)
    requires cfg.Valid() && Wellformed(cfg, s) && t == WriterStep(cfg, s) && s.writer.at > 9
    requires Wellformed(cfg, t) && Causal(cfg, s.reader, s.writer) && Data(cfg, s.mem, s.reader, s.writer)
    ensures Data(cfg, t.mem, t.reader, t.writer)
  {
  }

  lemma WriterSums(cfg: Config, s: State, t: State)
    requires cfg.Valid() && Wellformed(cfg, s) && t == WriterStep(cfg, s)
    requires Causal(cfg, s.reader, s.writer) && Data(cfg, s.mem, s.reader, s.writer) && Sums(cfg, s.reader, s.writer)
    ensures Sums(cfg, t.reader, t.writer)
  {
  }

  lemma WriterClean(cfg: Config, s: State, t: State)
    requires cfg.Valid() && Wellformed(cfg, s) && t == WriterStep(cfg, s)
    requires Causal(cfg, s.reader, s.writer) && Data(cfg, s.mem, s.reader, s.writer) && Lines(cfg, s) && Clean(s.writer)
    ensures Clean(t.writer)
  {
  }

  lemma WriterZeroed(cfg: Config, s: State, t: State)
    requires cfg.Valid() && Wellformed(cfg, s) && t == WriterStep(cfg, s)
    requires Wellformed(cfg, t) && Causal(cfg, s.reader, s.writer) && Zeroed(s.mem, s.reader)
    ensures Zeroed(t.mem, t.reader)
  {
  }

  lemma WriterKeepsInv(cfg: Config, s: State, t: State)
    requires cfg.Valid() && Inv(cfg, s) && t == WriterStep(cfg, s)
    ensures Inv(cfg, t)
  {
    WriterStaysInRange(cfg, s, t);
    if s.writer.at <= 4 {
      WriterLines1(cfg, s, t);
    } else if s.writer.at <= 7 {
      WriterLines2(cfg, s, t);
    } else if s.writer.at <= 9 {
      WriterLines3(cfg, s, t);
    } else if s.writer.at <= 12 {
      WriterLines4(cfg, s, t);
    } else if s.writer.at <= 15 {
      WriterLines5(cfg, s, t);
    } else {
      WriterLines6(cfg, s, t);
    }
    WriterCausal(cfg, s, t);
    if s.writer.at <= 9 {
      WriterData1(cfg, s, t);
    } else {
      WriterData2(cfg, s, t);
    }
    WriterSums(cfg, s, t);
    WriterClean(cfg, s, t);
    WriterZeroed(cfg, s, t);
  }
}
