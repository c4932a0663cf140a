# Verified models of the CXL coherence and LegoFS evaluation tools

This project models the protocols and algorithms of the repository that carry its
evidence, and proves what they are for. `dafny verify dfyconfig.toml` checks it.

| part | files | what is modelled |
|---|---|---|
| probe | `Probe*.dfy`, `Schedules.dfy` | the server and two clients that share a control page and two payload areas: handshake, bulk write and verify, two role-swapped mixed phases, a seqlock sampled by both clients |
| signals | `Signal*.dfy` | the reader and writer guests: bootstrap, litmus, N ping-pong rounds, stream hand-over, final handshake |
| barrier | `Barrier*.dfy` | the two-party barrier server with any number of handler threads |
| frames | `Frame*.dfy`, `Base64.dfy` | the decoder of observation frames on a noisy console, and the exporter whose output it reads |
| watchdog | `Watchdog*.dfy` | the phase watchdog that is shown the growing console output |
| manifest | `Manifest*.dfy`, `PhaseNames.dfy` | prerequisite closure, run flags and the derivation of a profile |
| traces | `JsonFields.dfy`, `Pairing*.dfy`, `DirtyPath*.dfy` | request/completion pairing and the dirty-path monitor |
| metrics | `Metric*.dfy`, `Quantiles.dfy`, `QuantileTheorems.dfy`, `RequestDigests.dfy`, `Permutations.dfy` | merging of metrics, percentiles of a logarithmic histogram, request digests |
| counters | `LaneLaws.dfy`, `Conservation.dfy` | the counter laws of a serving lane and their sums |
| numerals | `Numerals.dfy`, `NumeralOutput.dfy`, `BenchLine.dfy` | number printers, parser and result line of the freestanding benchmark |

**Assumptions.** In the two shared-memory protocols every step is one load or one store of
one 64-bit word, and a run is any sequentially consistent interleaving with each process's
accesses in program order; the sources use C11 atomics (section 7.17.3 of ISO/IEC 9899:2011)
and `fence rw,rw` (section 2.7 of the RISC-V Unprivileged ISA, 20191213). Timeouts abort a
run and are not steps. The value mixers, SHA-256, gzip, the regular expressions and the
string functions of the host language are parameters: the theorems hold for all of them,
with the inverse laws that are stated where they are needed; that these laws can be met is
shown with an actual base64 codec (section 4 of RFC 4648). Iteration counts, update counts,
payload and stream sizes, lines, records, lanes and processes are unbounded.

**Progress.** `Schedules.dfy` says what a system of processes must satisfy for every fair
schedule to end. The probe and the two guests are shown to satisfy it, so each of their
runs ends however it is scheduled, as long as every process steps again and again, and
within a number of rounds that is computed from the state.

**Detection.** The probe and the two guests exist to notice memory that is not coherent.
`ProbeDetection.dfy` and `SignalDetection.dfy` let every access find anything at all: errors
are then counted exactly, and a verdict without errors means that every check was made and
found the right value.

**Findings.** Five expected properties do not hold without a condition. For each there is
a concrete input and the exact condition.

- A complete probe run counts one error for each client whose number of accepted snapshots
  is a multiple of 2^64 (the 64-bit counter reads zero), and no other: `CompleteRun`,
  `WrappedRunFails`, `SomeCompleteRunFails`.
- When the barrier server closes the first of two peers and the close raises, the second
  peer is neither released nor closed. Otherwise every connection ends closed or parked:
  `ClosedOrParked`, `LostConnection`.
- The dirty-path monitor picks the last request whose line address equals the snooped line
  and then insists on an integer, so a request that says `64.0` (or `false` for line 0)
  hides the one before it.
  It is right about a line exactly when the line has no valid path or one that is not
  hidden so: `LineFoundExactly`, `RightExactly`, `PathIsMissed`.
- The benchmark's rate is computed in 64 bits. It is the bytes per second, cut off, exactly
  when the product before the division fits, which is up to about 17 TiB:
  `ThroughputExactly`, `ThroughputIsCut`.
- The baseline-equivalent READ_METADATA demand equals the direct attempts exactly when the
  commands sent are as many as the fallbacks, which only cxl mode checks: `DemandExactly`,
  `DemandDiffers`.

Adding metrics one by one depends on their order in general; `OrderMattersExactly` says
when. No caller is affected: they drop metrics without calls, and the rows they merge
further have calls (`CallersIgnoreOrder`, `RowsAreBusy`, `TwoLevelsAreOne`).

## Model

| member | source | states |
|---|---|---|
| ProbeValues.ExpectedMixedChecksum | scripts/giga_2c1s_coherence.c:206-217 | the checksum is the seed 0xcbf29ce484222325 and, for every word, the four terms of passes 1 to 4, added up modulo 2^64; and every reader of a run with the program's value functions has it when it is done, whatever the other parameters |
| ProbeValues.MixedChecksum | scripts/giga_2c1s_coherence.c:206-217 | for any value functions: the seed after four visits of every word, the words in order and again from the first |
| ProbeValues.SumsExchange | scripts/giga_2c1s_coherence.c:211-215 | adding the terms word by word or pass by pass gives the same |
| ProbeSamples.SampleChecksum | scripts/giga_2c1s_coherence.c:174-217 | for client 1, phase 1 and one word the checksum is 0x66db082884a5fae3 |
| ProbeSamples.SamplePacket | scripts/giga_2c1s_coherence.c:158-172 | value, checksum and reply of packet 3 of client 1 |
| ProbeSamples.SamplePayload | scripts/giga_2c1s_coherence.c:174-194 | payload words, their complement and a mixed word at sample points |
| ProbeSamples.SampleSnapshot | scripts/giga_2c1s_coherence.c:219-224 | a snapshot word at a sample point |
| ProbeTheorems.StepKeepsInv | scripts/giga_2c1s_coherence.c:313-441 | every load or store of the server or of a client keeps the invariant: each cell is determined by how far its one writer is, and no process is ahead of what it waited for |
| ProbeTheorems.RunInv | scripts/giga_2c1s_coherence.c:579-649 | the invariant holds in every state of every interleaving |
| ProbeTheorems.SnapshotsAreConsistent | scripts/giga_2c1s_coherence.c:514-538 | whenever a snapshot attempt ends with an unchanged, even sequence word, all seven loaded words are those of that version |
| ProbeTheorems.VersionsNeverDecrease | scripts/giga_2c1s_coherence.c:629-642 | the versions that a client accepts never decrease and none is newer than the snapshot |
| ProbeTheorems.LastAttemptSucceeds | scripts/giga_2c1s_coherence.c:636-642 | after a client has seen the stop word its next attempt succeeds, with the last version |
| ProbeTheorems.NoMissedRendezvous | scripts/giga_2c1s_coherence.c:126-140 | whatever cell a process polls has not passed the awaited value, at all fifteen waits; in the handshake `ack <= ready <= ack + 1` on each lane |
| ProbeTheorems.CompleteRun | scripts/giga_2c1s_coherence.c:420-441 | in a complete run clients count no error, and the server counts exactly the clients whose accepted count wrapped to zero |
| ProbeTheorems.ShortRunPasses | scripts/giga_2c1s_coherence.c:313-441 | every complete run of at most 2^64 steps ends with no error at all, checksums included |
| ProbeWrap.SomeCompleteRunFails | scripts/giga_2c1s_coherence.c:435-437 | for every configuration there is a complete run that reports an error although nothing was read wrongly |
| ProbeWrap.WrappedRunFails | scripts/giga_2c1s_coherence.c:435-437 | a complete run reports an error exactly when the accepted count of one of the clients is a multiple of 2^64 |
| ProbeProgress.WriterNeverWaits | scripts/giga_2c1s_coherence.c:411-427 | each step of the seqlock writer brings it one step closer to its end, whatever the readers do |
| ProbeProgress.SomeoneMoves | scripts/giga_2c1s_coherence.c:126-156 | in every reachable state that is not final some process can make a step that lowers the work left |
| ProbeProgress.ProbeIsLawful | scripts/giga_2c1s_coherence.c:126-156 | no step leaves more to do, and a step that leaves as much leaves the process that can do something where it was |
| ProbeProgress.EveryRunCanFinish | scripts/giga_2c1s_coherence.c:579-649 | every run can be extended to a complete one, in a computed number of steps: no deadlock |
| ProbeProgress.PathIsScheduled | scripts/giga_2c1s_coherence.c:313-441 | every sequence of steps follows some schedule |
| ProbeProgress.DoneInTime | scripts/giga_2c1s_coherence.c:313-441 | however the rest of a run is scheduled, after as many rounds as there is to do, each process stepping in each, all processes are done |
| ProbeProgress.LeftAtTheStart | scripts/giga_2c1s_coherence.c:313-441 | for a whole run these rounds are a linear function of iterations, words and updates |
| ProbeProgress.FairRunsFinish | scripts/giga_2c1s_coherence.c:579-649 | every continuation in which each process steps again and again ends with all done, for good: no livelock |
| ProbeCounts.LeftIsExact | scripts/giga_2c1s_coherence.c:313-441 | every step that is not a failed poll, an access of a read loop or the store that stops the readers leaves exactly one access less |
| ProbeCounts.ServerAccessesInAll | scripts/giga_2c1s_coherence.c:313-441 | in every complete run the server makes 46 + 12 iterations + 6 words + 9 updates accesses, failed polls left out |
| ProbeCounts.ClientAccessesInAll | scripts/giga_2c1s_coherence.c:579-655 | and each client 19 + 6 iterations + 10 words outside its read loop |
| ProbeDetection.ServerErrorsAreFaults | scripts/giga_2c1s_coherence.c:313-441 | whatever each access finds in memory, the server counts exactly the checks that failed, modulo 2^64 |
| ProbeDetection.PacketWasRight | scripts/giga_2c1s_coherence.c:313-326 | a server that ends without errors took every packet of every client with its value, and then its checksum was right, on any memory |
| ProbeDetection.BulkWasRight | scripts/giga_2c1s_coherence.c:343-349 | it found every payload word as the client stored it |
| ProbeDetection.MixedWordWasRight | scripts/giga_2c1s_coherence.c:389-394 | and every word as the fourth pass of its writer left it |
| ProbeDetection.ChecksumWasRight | scripts/giga_2c1s_coherence.c:395-397 | and both readers' checksums right |
| ProbeDetection.SequenceWasRight | scripts/giga_2c1s_coherence.c:429-430 | and the sequence word of the last version |
| ProbeDetection.SnapshotWasRight | scripts/giga_2c1s_coherence.c:431-434 | and all seven words of the last version |
| ProbeDetection.SomeWereAccepted | scripts/giga_2c1s_coherence.c:435-437 | and from each client an accepted count that is not zero |
| ProbeDetection.ErrorsAreTotalled | scripts/giga_2c1s_coherence.c:439-440 | the verdict on the clients is the sum of the error counts that were read, modulo 2^64 |
| ProbeDetection.ErrorsWereRead | scripts/giga_2c1s_coherence.c:439-440 | and the count of each client was read |
| ProbeDetection.ErrorsWerePublished | scripts/giga_2c1s_coherence.c:643-648 | a client that is done has stored its error count |
| ProbeDetection.ClientErrorsAreFaults | scripts/giga_2c1s_coherence.c:540-655 | whatever it finds in memory, a client counts exactly its failed checks and the words of accepted snapshots that are not of their version |
| ProbeDetection.ReplyWasRight | scripts/giga_2c1s_coherence.c:579-589 | a client that ends without errors got the reply to every packet |
| ProbeDetection.WritebackWasRight | scripts/giga_2c1s_coherence.c:603-605 | and every payload word complemented |
| ProbeDetection.SnapshotWasWhole | scripts/giga_2c1s_coherence.c:514-538 | and every snapshot it counted had all seven words of its version |
| Schedules.CanFinish | scripts/giga_2c1s_coherence.c:126-156 | a system that obeys the laws can be led to its end, in at most as many moves as it has left to do |
| Schedules.DoneAfterRounds | scripts/giga_2c1s_coherence.c:126-156 | such a system is done after that many rounds, whatever the schedule |
| Schedules.FairFinishes | guest/cxl_bi_app_init.c:385-414 | every fair schedule of such a system comes to an end |
| SignalTheorems.StepKeepsInv | guest/cxl_bi_app_init.c:368-414 | every load or store of either guest keeps the invariant of lines, data and progress |
| SignalTheorems.RunInv | guest/cxl_bi_app_init.c:518-682 | the invariant holds in every state of every run from any memory contents, the writer starting after the reader is ready |
| SignalTheorems.SignalsAreSafe | guest/cxl_bi_app_init.c:385-414 | no run reaches the protocol error, no signal runs past its waiter, and value and checksum always belong together |
| SignalTheorems.ExclusiveData | guest/cxl_bi_app_init.c:422-487 | the payload line and the stream are never written by one guest while the other reads or writes them |
| SignalTheorems.EndToEnd | scripts/cxl_bi_app.py:577-587 | neither role ever counts an error and the two litmus checksums agree, as the host requires |
| SignalTheorems.NotBothStuck | guest/cxl_bi_app_init.c:385-414 | before the end the two guests never both poll in vain |
| SignalTheorems.GuestsAreLawful | guest/cxl_bi_app_init.c:385-414 | no access leaves more to do, and before the end one guest's next access leaves less |
| SignalTheorems.EveryRunCanFinish | scripts/cxl_bi_app.py:1350-1363 | every run can be extended to one in which both roles finish |
| SignalTheorems.DoneInTime | guest/cxl_bi_app_init.c:518-682 | however the rest of a run is scheduled, both roles have finished after a computed number of rounds |
| SignalTheorems.FairRunsFinish | guest/cxl_bi_app_init.c:518-682 | every continuation in which both guests step again and again ends with both roles done, for good |
| SignalTheorems.AccessesInAll | guest/cxl_bi_app_init.c:518-682 | in every complete run the reader makes 136 + 4 iterations + 2 words accesses and the writer 41 + 4 iterations + 2 words, failed polls left out |
| SignalDetection.ErrorsAreFaults | guest/cxl_bi_app_init.c:385-488 | whatever each access finds in memory, a guest counts exactly the checks that failed |
| SignalDetection.StoppedWhenPast | guest/cxl_bi_app_init.c:404-405 | a guest that stopped polled a signal past the awaited value |
| SignalDetection.EveryCheckPassed | guest/cxl_bi_app_init.c:518-682 | a guest that ends without errors made every access of its program, each signal with its value and then its checksum, each verified word right, on any memory |
| BarrierServer.Server.constructor | scripts/legofs_type3_3node.py:44-61 | a new server has no arrivals, nothing completed and no errors |
| BarrierServer.Server.Create | scripts/legofs_type3_3node.py:44-48 | creation is refused exactly for empty or repeated names, decided by comparing numbers |
| BarrierServer.Server.ArriveAt | scripts/legofs_type3_3node.py:101-122 | the critical section does what the step of the state machine does: refuse and change nothing, park, or complete and hand out this connection and the one parked as the other client, in the order of the clients |
| BarrierServer.Server.IsComplete | scripts/legofs_type3_3node.py:155-161 | true exactly when the completed barriers are the expected ones, nothing is pending and no error was recorded |
| BarrierTheorems.StepKeepsInv | scripts/legofs_type3_3node.py:88-142 | every event of any handler keeps the invariant |
| BarrierTheorems.RunInv | scripts/legofs_type3_3node.py:70-142 | it holds in every state of every run with any number of handlers |
| BarrierTheorems.BarriersAreSafe | scripts/legofs_type3_3node.py:101-133 | completed names are distinct and expected, a pending name holds one client and is not completed, and GO goes to a connection at most once and only after both clients arrived |
| BarrierTheorems.ReleasesWhoArrived | scripts/legofs_type3_3node.py:118-130 | a releasing handler serves the connections that arrived at its barrier as client 0 and as client 1, in this order |
| BarrierTheorems.ErrorsAreFailures | scripts/legofs_type3_3node.py:67-80 | one error is recorded for every failure of the listener or of a handler |
| BarrierTheorems.HandlersGoOn | scripts/legofs_type3_3node.py:88-142 | a handler that has not finished can always go on |
| BarrierTheorems.HandlersEnd | scripts/legofs_type3_3node.py:88-142 | its own steps bring it closer to its end and no other step touches it |
| BarrierTheorems.EveryConnectionAccountedFor | scripts/legofs_type3_3node.py:123-142 | when all handlers have finished, every connection is closed, parked or skipped |
| BarrierTheorems.SkippedIsLost | scripts/legofs_type3_3node.py:123-133 | a skipped connection is neither closed nor parked |
| BarrierTheorems.SkippedWhenRaised | scripts/legofs_type3_3node.py:123-133 | connections are skipped exactly when a close of a first peer raised |
| BarrierTheorems.ClosedOrParked | scripts/legofs_type3_3node.py:123-142 | all connections end closed or parked if and only if no close of a first peer raised |
| BarrierTheorems.LostConnection | scripts/legofs_type3_3node.py:123-133 | a run in which a connection is lost |
| BarrierTheorems.CompleteMeansReached | scripts/legofs_type3_3node.py:155-161 | after a successful check each expected barrier was reached exactly once by each client, by different connections |
| BarrierTheorems.CompleteMeansReleased | scripts/legofs_type3_3node.py:155-161 | and with all handlers finished every connection got GO once and is closed |
| FrameDecoder.ParseObservationFrames | scripts/legofs_io500.py:1332-1456 | the loop over the lines returns frames if and only if the lines spell exactly those, and is the line-by-line decoder, errors included |
| FrameTheorems.ParseSound | scripts/legofs_io500.py:1332-1456 | whatever is returned is spelled by the lines: markers that agree, every chunk 0..chunks-1 there, at most two copies, agreeing copies, declared lengths and digests |
| FrameTheorems.ParseComplete | scripts/legofs_io500.py:1332-1456 | lines that spell a list of frames, with any noise between, are decoded to it |
| FrameTheorems.DecoderIsExact | scripts/legofs_io500.py:1332-1456 | the decoder returns frames if and only if the lines spell exactly those; what a begin marker may declare is said in numbers |
| FrameTheorems.BeginsExactly | scripts/legofs_io500.py:1341-1365 | a begin marker is taken exactly when it declares at most 67108864 bytes and, if compressed, at most 68157440 in the least positive number of chunks of 1024 characters |
| FrameTheorems.EncodedCharsExactly | scripts/legofs_io500.py:1361-1361 | the length formula is the least multiple of four with room for the bytes |
| FrameRoundTrip.FoldIsFaithful | guest/legofs_io500_init.sh:288-297 | the folded base64 text loses nothing, only its last chunk may be short, and none is longer than 1024 |
| FrameRoundTrip.RoundTrip | guest/legofs_io500_init.sh:255-300 | payloads of up to 64 MiB come back exactly: compressed ones with each chunk printed once or twice, in any order within its frame and among any other lines, and plain ones however their text is broken into lines |
| FrameRoundTrip.LawsCanHold | guest/legofs_io500_init.sh:279-292 | the inverse laws assumed of the codecs hold of base64 with a lossless compression |
| Base64.RoundTrip | guest/legofs_io500_init.sh:292-292 | decoding inverts encoding for all bytes |
| Base64.Length | guest/legofs_io500_init.sh:288-289 | encoded text has four characters for every three bytes begun |
| Base64.DecodedLength | scripts/legofs_io500.py:1395-1395 | whatever is decoded has the length of an encoding of the result |
| Base64.GroupKeepsNumber | guest/legofs_io500_init.sh:292-292 | three bytes become four digits of the same number |
| Base64.AlphabetRuns | guest/legofs_io500_init.sh:292-292 | the alphabet of section 4 of RFC 4648 |
| WatchdogModel.Watchdog.constructor | scripts/legofs_io500.py:1913-1921 | a new watchdog has read nothing |
| WatchdogModel.Watchdog.Create | scripts/legofs_io500.py:1913-1916 | refused exactly for no phases or unknown ones |
| WatchdogModel.Watchdog.TakeLine | scripts/legofs_io500.py:1928-1948 | one line changes the object as one step of the specification, and raises as it does |
| WatchdogModel.Watchdog.TakeLines | scripts/legofs_io500.py:1928-1948 | the lines of an observation are read in order up to the first that raises |
| WatchdogModel.Watchdog.See | scripts/legofs_io500.py:1923-1954 | an observation changes all fields as the specification says |
| WatchdogTheorems.SplitLosesNothing | scripts/legofs_io500.py:1924-1927 | text is its complete lines with their newlines and then the rest |
| WatchdogTheorems.LinesArePlain | scripts/legofs_io500.py:1926-1927 | no complete line contains a newline |
| WatchdogTheorems.CompleteAppend | scripts/legofs_io500.py:1924-1927 | reading on from the unfinished line gives the lines of the whole text |
| WatchdogTheorems.WatchdogIsExact | scripts/legofs_io500.py:1923-1954 | for every growing output cut in any way: nothing is raised exactly when all complete lines are harmless and no observation was overdue, and then each complete line was read once and the fields are those of a batch reading |
| WatchdogTheorems.VerdictIsExact | scripts/legofs_io500.py:1923-1954 | and the verdict is that of the batch reading: the blame of the first harmful line, or the phase after which a window of more than 600 s began |
| WatchdogTheorems.FirstBlameIs | scripts/legofs_io500.py:1936-1943 | the blame is that of the first line that is not harmless |
| WatchdogTheorems.SameAsOneLook | scripts/legofs_io500.py:1944-1947 | the completed phases are those that one look at the whole output finds |
| WatchdogTheorems.LongPhaseIsCaught | scripts/legofs_io500.py:1940-1943 | a required phase reported with more than 600 s is never missed, and when it is the first line to blame the verdict names the phase and its duration |
| WatchdogTheorems.CutsAgree | scripts/legofs_io500.py:1923-1954 | two ways of cutting the same output, with the window begun at the same time, end in the same state |
| PhaseNames.PhasesAgree | scripts/legofs_io500.py:31-41 | the phases that the watchdog knows are those of the manifest's extended mode, and its default phases those of the standard mode |
| ManifestModel.LookupAfterPut | scripts/legofs_evaluation_manifest.py:179-204 | a lookup finds the value just set for that section and name up to case, and otherwise what it found before, defaults included |
| ManifestModel.Config.SetOption | scripts/legofs_evaluation_manifest.py:192-204 | the configuration changes as the specification of a setting says |
| ManifestModel.Config.ConfiguredPhases | scripts/legofs_evaluation_manifest.py:232-247 | the phases whose own and group flags are true, in mode order; nothing exactly when a flag is missing or malformed |
| ManifestProfile.Expand | scripts/legofs_evaluation_manifest.py:303-308 | one turn of the worklist keeps it: only pending phases may lack a prerequisite, and nothing unneeded is added |
| ManifestProfile.Close | scripts/legofs_evaluation_manifest.py:302-308 | the worklist ends for every finite table and gives the least prerequisite-closed set that holds the request |
| ManifestProfile.KeepOrdered | scripts/legofs_evaluation_manifest.py:309-310 | filtering an ordered list by a closed set keeps every prerequisite before its dependants |
| ManifestProfile.FilteredClosure | scripts/legofs_evaluation_manifest.py:309-310 | the mode order loses nothing of the closure and puts prerequisites first |
| ManifestProfile.SetRunFlags | scripts/legofs_evaluation_manifest.py:312-323 | afterwards every run section exists and its flag says whether it is enabled; every other lookup in a section that was there finds what it found |
| ManifestProfile.SetItems | scripts/legofs_evaluation_manifest.py:338-339 | afterwards every group says the object count; every other lookup in a section that was there finds what it found |
| ManifestProfile.ReadBack | scripts/legofs_evaluation_manifest.py:232-247 | reading the rewritten flags gives back exactly the list that was written |
| ManifestDerive.CheckPrerequisites | scripts/legofs_evaluation_manifest.py:284-291 | true exactly when no phase lacks a prerequisite |
| ManifestDerive.DeriveCustom | scripts/legofs_evaluation_manifest.py:276-292 | a custom file is accepted exactly as it is, or refused for the reason that applies |
| ManifestDerive.SetLimits | scripts/legofs_evaluation_manifest.py:324-339 | each refusal exactly when it applies; otherwise the stonewall time and the object counts that were asked for are set, and nothing else changes |
| ManifestDerive.DeriveSelection | scripts/legofs_evaluation_manifest.py:302-340 | the derived phases are the least closed set in mode order, the configuration then runs exactly those and has the limits that were asked for, and every other lookup in a section that was there is what it was |
| ManifestDerive.DeriveProfile | scripts/legofs_evaluation_manifest.py:250-340 | a profile is derived exactly for derivable requests and is then what it should be, limits and untouched options included; each of the twelve refusals is given exactly when it applies |
| ManifestDerive.StandardIsSound | scripts/legofs_evaluation_manifest.py:99-136 | the real tables meet the hypotheses in standard mode |
| ManifestDerive.ExtendedIsSound | scripts/legofs_evaluation_manifest.py:54-136 | and in extended mode |
| ManifestDerive.MdtestGroupsOfBenchmark | scripts/legofs_evaluation_manifest.py:330-334 | with the real tables an object count goes to the two MDTest groups, each when one of its phases runs |
| ManifestDerive.MdtestByName | scripts/legofs_evaluation_manifest.py:333-333 | the MDTest groups are the sections whose names start with mdtest- |
| PairingModel.CollectRequests | scripts/legofs_v2_qemu_bi.py:1246-1263 | the first pass succeeds exactly for proper, distinct request identities and indexes the requests in the interval |
| PairingModel.PairCompletions | scripts/legofs_v2_qemu_bi.py:1265-1294 | the second pass succeeds exactly when every completion is a positive OK sample of another request in the interval, and collects the durations |
| PairingModel.RequestCompletionTiming | scripts/legofs_v2_qemu_bi.py:1231-1320 | there is a timing exactly when the trace is accepted, with the counts and the durations by opcode in trace order |
| PairingTheorems.BijectionExists | scripts/legofs_v2_qemu_bi.py:1281-1297 | completions answer requests one to one, with equal identity and opcode and no completion before its request |
| PairingTheorems.AcceptedExactly | scripts/legofs_v2_qemu_bi.py:1231-1297 | with completions in the interval there is a timing if and only if opcodes can be read, requests have distinct integer identities, and requests and completions correspond one to one |
| PairingTheorems.SelectedExactly | scripts/legofs_v2_qemu_bi.py:1247-1276 | the records of an interval are those with a known opcode and a time in it, ends included |
| PairingTheorems.PairingIsOneToOne | scripts/legofs_v2_qemu_bi.py:1296-1320 | request count, completion count and sum of sample counts agree, in all and for each opcode |
| PairingTheorems.NoCompletionsNoBalance | scripts/legofs_v2_qemu_bi.py:1296-1297 | without completions the requests are not balanced against anything |
| DirtyPath.ReadTrace | scripts/cxl_bi_app.py:322-341 | a trace is read exactly when all records are readable and no time is earlier than any before it, though only neighbours are compared; otherwise the error is that of the first line that cannot follow |
| DirtyPath.FindPaths | scripts/cxl_bi_app.py:405-459 | the paths are the reports of all found snoops in order, and the completed lines are theirs; an error exactly when one lacks a reported integer |
| DirtyPath.CountEvents | scripts/cxl_bi_app.py:399-401 | each event that occurs and is text is counted, and no other |
| DirtyPath.TargetLines | scripts/cxl_bi_app.py:397-397 | the target lines are the distinct lines of the addresses, increasing |
| DirtyPath.AnalyzeTrace | scripts/cxl_bi_app.py:390-467 | the evidence: the paths, the missing lines, exactly those not completed and in order, and the counts of all events that are text; refused exactly without targets, with a negative one, or when a path lacks a reported integer |
| DirtyPathTheorems.PathsAreThere | scripts/cxl_bi_app.py:344-387 | every reported path is a dirty hand-over in the trace, with its request id, opcode, requester, owner and payload, times in order, and the same line, snoop, session and epoch |
| DirtyPathTheorems.ValidExactly | scripts/cxl_bi_app.py:344-387 | the validity check is true exactly of dirty hand-overs, spelled out field by field |
| DirtyPath.RequireHandoff | scripts/cxl_bi_app.py:472-490 | the first path from the owner to the requester, or none exactly when there is no such path |
| DirtyPathTheorems.HandoffIsThere | scripts/cxl_bi_app.py:472-490 | a hand-over that was required and found is in the trace, asked for by the requester and snooped from the owner |
| DirtyPathTheorems.FoundExactly | scripts/cxl_bi_app.py:420-444 | with single replies a target snoop is reported exactly when it has a valid path and the last request for its line names it by an integer |
| DirtyPathTheorems.LineFoundExactly | scripts/cxl_bi_app.py:460-466 | with single replies a line is completed exactly when one of its snoops has a valid path and an integer in the last request for the line |
| DirtyPathTheorems.RightExactly | scripts/cxl_bi_app.py:460-466 | a target line is completed if and only if it has a valid path, exactly when it has none or one that is not hidden |
| DirtyPathTheorems.RightIfPlain | scripts/cxl_bi_app.py:460-466 | so whenever requests name lines by integers a target line is missing exactly when no valid path for it exists |
| DirtyPathTheorems.PathIsMissed | scripts/cxl_bi_app.py:420-444 | a trace whose valid path is hidden by a request that names the line by a number that equals it and is no integer, such as 64.0 or a truth value |
| MetricMerge.Target.constructor | scripts/legofs_observe.py:503-504 | an empty total |
| MetricMerge.Target.AddMetric | scripts/legofs_observe.py:282-310 | the dictionary changes as the specification of one addition says |
| MetricMerge.SumBins | scripts/legofs_observe.py:298-300 | the bins are added one by one |
| MetricMerge.MergeIgnoresOrder | scripts/legofs_observe.py:503-516 | any permutation of metrics with calls gives the same total |
| MetricMerge.MergeIsTotal | scripts/legofs_observe.py:282-310 | counters are sums, extremes are those of the sampled metrics only, bins are sums and absent exactly when some metric is compact |
| MetricOrder.MergeProducers | scripts/legofs_observe.py:408-438 | the loop over producers skips metrics without calls and merges the others |
| MetricOrder.CallersIgnoreOrder | scripts/legofs_observe.py:415-438 | what the callers merge is the same for every order of the producers, whatever they recorded |
| MetricOrder.RowsAreBusy | scripts/legofs_observe.py:484-488 | every row that is merged further has calls |
| MetricOrder.MergeTotal | scripts/legofs_observe.py:282-310 | merging a total is merging the metrics it was made of |
| MetricOrder.TwoLevelsAreOne | scripts/legofs_observe.py:503-516 | merging producers to arenas and arenas to a stage gives what merging all metrics at once gives |
| MetricOrder.CombinedStage | scripts/legofs_observe.py:503-516 | the two nested loops compute that |
| MetricPermutations.MergedBinsSpelled | scripts/legofs_observe.py:283-300 | the bins of any merge: sums from the first metric with calls on, none when one of those is compact, and the last metric's when nothing has calls |
| MetricPermutations.RestIgnoresOrder | scripts/legofs_observe.py:284-310 | counters and extremes never depend on the order |
| MetricPermutations.OrderMattersExactly | scripts/legofs_observe.py:282-310 | all orders of any metrics agree if and only if nothing has calls and all bins are equal, or something with calls is compact, or everything without calls has zero bins |
| Quantiles.FindPlace | scripts/legofs_observe.py:355-368 | the scan ends at the bin where the rank is reached |
| Quantiles.WithinTwoPercent | scripts/legofs_observe.py:313-317 | before rounding the representative of a bin is within 2% of everything in it |
| Quantiles.EdgesSpaced | scripts/legofs_observe.py:26-27 | the edges start at 100 ns, and 2% above one edge is 2% below the next |
| Quantiles.Percentile | scripts/legofs_observe.py:354-368 | one percentile is what is reported for its place, the nearest integer to the representative of a bin, and nothing exactly in the overflow |
| Quantiles.MetricPercentiles | scripts/legofs_observe.py:320-370 | each status exactly when it applies, percentiles from 100 samples on, and then the three percentiles |
| Quantiles.PercentilesInOrder | scripts/legofs_observe.py:352-368 | reported p50 <= p95 <= p99 |
| QuantileTheorems.ScanFindsRank | scripts/legofs_observe.py:359-364 | the scan finds the bin of the nearest-rank element of the sorted samples |
| QuantileTheorems.PercentilesDescribeSamples | scripts/legofs_observe.py:320-370 | each percentile is the integer nearest to 1.02 times the lower edge of the bin of its nearest-rank sample, within 2% and half a nanosecond of that sample; 100 below 100 ns and absent above the bins |
| QuantileTheorems.SomePlace | scripts/legofs_observe.py:26-27 | every duration falls below the bins, into one of them, or above them |
| QuantileTheorems.RankIsLeast | guest/cxl_bi_app_init.c:497-505 | the nearest rank is the least that covers the percentage |
| QuantileTheorems.GuestPercentilesInOrder | scripts/cxl_bi_app.py:611-618 | the guest's minimum, p50, p95, p99 and maximum are in the order that the host requires |
| RequestDigests.CombinedRequestDigests | scripts/legofs_observe.py:519-537 | the loops give each edge the combination of all arenas |
| RequestDigests.DigestMatch | scripts/legofs_observe.py:541-543 | true exactly when all edges have the digest of the first |
| RequestDigests.DigestIgnoresOrder | scripts/legofs_observe.py:531-536 | a digest depends only on the multiset of requests |
| RequestDigests.DivisionDoesNotMatter | scripts/legofs_observe.py:519-537 | however requests are divided among processes the combined digest is the same |
| RequestDigests.EqualRequestsMatch | scripts/legofs_observe.py:541-543 | equal multisets on the four edges always match |
| RequestDigests.LostRequestsDoNotMatch | scripts/legofs_observe.py:541-543 | different numbers of requests never match |
| RequestDigests.DigestSpelled | scripts/legofs_observe.py:525-536 | a digest is the number of requests, the parity of every bit of their masks and their sums modulo 2^64 |
| RequestDigests.MatchExactly | scripts/legofs_observe.py:541-543 | the four edges match if and only if what passed them has equal numbers, parities and sums |
| LaneLaws.MergeTables | scripts/legofs_io500.py:645-657 | the merged table has the sum of all tables, in all and for each opcode |
| LaneLaws.ValidateLane | scripts/legofs_io500.py:2820-3196 | a lane passes exactly when it obeys every counter law, the laws of its modes, and those of its opcode tables |
| Conservation.TotalsObey | scripts/legofs_io500.py:3034-3162 | the laws between the counters of a lane hold of the sums over all lanes |
| Conservation.WaitsAddUp | scripts/legofs_io500.py:2910-2932 | waits by opcode add up to the total wait |
| Conservation.DispatchesAddUp | scripts/legofs_io500.py:3163-3178 | dispatches by opcode add up to the submissions |
| Conservation.ReleasesCounted | scripts/legofs_io500.py:3179-3180 | there are as many owner releases as lanes |
| Conservation.DemandExactly | scripts/legofs_io500.py:3034-3041 | the demand equals the attempts exactly when commands sent equal fallbacks, and the hit ratio lies in [0, 1] |
| Conservation.DemandDiffers | scripts/legofs_io500.py:3181-3187 | a lane that passes in rpc mode with a demand of one and no attempt |
| Conservation.BreakDown | scripts/legofs_io500.py:989-1047 | the aggregates are the sums over all lanes of all ranks, in all and by opcode, with capable lanes, ratio and wait per command |
| Conservation.Conserved | scripts/legofs_io500.py:989-1047 | when every lane passed in cxl mode the merged waits add up to the total wait, merged dispatches to submissions, the demand is the number of attempts, the ratio lies in [0, 1], every lane is capable and released its owner, and the sums obey the laws of a lane |
| Conservation.SumsAreBalanced | scripts/legofs_io500.py:2998-3162 | in the sums over lanes that passed every poll, read, create and unlink is accounted for once, and no part exceeds its whole |
| Conservation.ModesShow | scripts/legofs_io500.py:3012-3025 | a lane that passed only yields or only sleeps between polls, and reads its cursor again after every submission or never, as its modes say |
| Conservation.ModesShowInSums | scripts/legofs_io500.py:3012-3025 | so do the sums when all lanes were asked for the same modes |
| Conservation.RpcReadsNothingDirectly | scripts/legofs_io500.py:3099-3103 | in rpc mode no lane has or uses a direct reader and the demand is what was sent |
| Numerals.ParseU64 | guest/cxl_mmap_bench.c:200-231 | a number comes out exactly when the text is a numeral below 2^64, and it is the one denoted |
| Numerals.NumeralsSpelled | guest/cxl_mmap_bench.c:208-213 | a numeral is decimal digits, or 0x or 0X and hexadecimal digits, at least one |
| Numerals.CaseDoesNotMatter | guest/cxl_mmap_bench.c:217-220 | letters of either case are the same digits |
| Numerals.DecimalReadsBack | guest/cxl_mmap_bench.c:105-117 | the parser inverts the decimal printer on all 64-bit values |
| Numerals.HexadecimalReadsBack | guest/cxl_mmap_bench.c:119-127 | and the hexadecimal printer |
| Numerals.FixedPointIsExact | guest/cxl_mmap_bench.c:129-148 | seconds and thousandths denote the exact value at nine and three places |
| NumeralOutput.Output.constructor | guest/cxl_mmap_bench.c:301-301 | an empty buffer |
| NumeralOutput.Output.AppendChar | guest/cxl_mmap_bench.c:93-97 | the buffer holds what fits of all that was appended |
| NumeralOutput.Output.AppendText | guest/cxl_mmap_bench.c:99-103 | appends the text |
| NumeralOutput.Output.AppendU64 | guest/cxl_mmap_bench.c:105-117 | appends the decimal numeral |
| NumeralOutput.Digits | guest/cxl_mmap_bench.c:107-114 | the scratch array of 24 is never overrun and holds the digits last first |
| NumeralOutput.Output.AppendHex64 | guest/cxl_mmap_bench.c:119-127 | appends sixteen hexadecimal digits after the prefix |
| NumeralOutput.Output.AppendSeconds | guest/cxl_mmap_bench.c:129-138 | appends seconds with nine places |
| NumeralOutput.Output.AppendMilli | guest/cxl_mmap_bench.c:140-148 | appends thousandths with three places |
| BenchLine.Median | guest/cxl_mmap_bench.c:178-198 | one of the three, with at least two not above it and two not below |
| BenchLine.LineFits | guest/cxl_mmap_bench.c:289-328 | the result line is far shorter than the buffer for all 64-bit fields |
| BenchLine.PrintResult | guest/cxl_mmap_bench.c:289-328 | what is written is the whole line, never truncated, and after each field name it reads back as that field's value |
| BenchLine.LineReadsBack | guest/cxl_mmap_bench.c:289-328 | reading the line name by name gives back sizes, durations at nine places, rates at three, and the checksum |
| BenchLine.ThroughputExactly | guest/cxl_mmap_bench.c:295-298 | of a whole number of KiB the rate is right, cut off to thousandths of a MiB per second, if and only if the product that is divided fits 64 bits |
| BenchLine.ThroughputIsCut | guest/cxl_mmap_bench.c:295-298 | for 32 TiB in a second it is wrong |

## Left out

- Elapsed times, retry counters, process and CPU numbers in the probe's control page: they are reported and never checked.
- Timeouts, fatal exits, yields and NUMA placement: a run that hits one is not continued.
- Weak-memory reorderings below program order: the interleaving is assumed to be sequentially consistent.
- The bit mixers of the two-guest application: parameters, since no property depends on them.
- `BarrierServer.close`, listening sockets and thread joins of the barrier server.
- The regular expressions and JSON parsing of all scripts: records and lines come classified. Opcodes of the dirty-path trace that cannot be hashed are not modelled.
- Floating point in ranks and representatives: exact rationals and reals.
- The medians of the pairing summary.
- The writer of the histograms and of the per-process request digests, which are not part of the repository.
- Bins of a length other than 576 in a merge: the decoder never makes them.
- Console echo of phase completions, and outputs that shrink: `Unread` models one shrinking observation, the theorems are about growing output.
- LaneLaws.ValidateLane: does not model the schema, identity and positive-generation fields, the open mode, nor that opcodes are spelled as numbers below 256, because they say nothing about sums.
- Conservation.BreakDown: does not model the counters that the authority reports, because they are copied from the inspection, not summed.
- The host build of the benchmark, `run_benchmark` and `/dev/mem` access.
- Process launching, QEMU, U-Boot and CXLMemSim command lines, mounts and DAX discovery; the coherence server, LegoFS and IO500 themselves.
