# The sound daemon, modelled and proved

A Dafny model of the parts of esound where a mistake would be heard, crash the
daemon or let the wrong client in:

- **Mixing** (`CTypes`, `Formats`, `MixSpec`, `Players`, `MixLoops`,
  `PlayerReads`, `RoundSpec`, `PlayerRuns`, `MixRound`, `RoundOrder`, `Rounds`,
  `StopSample`, `Counterexamples`, `MixMeaning`). One frame-level definition of what a player adds
  (`MixSpec.Contribution`: output frame j takes source frame floor(j*r/R), each
  sample widened, scaled by volume and narrowed as C does it). The eight mix
  loops, the read of every player, the running minimum, the 32-bit accumulator,
  clipping and the shift of each buffer are imperative methods proved against it;
  `MixMeaning` says what a round sounds like from the bytes of the buffers alone.
- **Translating buffers** (`Translate`, `TranslateMeaning`, `BufferSizing`). The sixteen
  conversion loops and four `memcpy` shortcuts against one definition, and why
  the size chosen for a player's buffer is right in both directions.
- **getopt** (`Options`, `GetoptExchange`, `GetoptDecode`, `GetoptScan`, `Getopt`). The
  resumable scanner over an array permuted in place, against a direct recursive
  definition of what a left-to-right scan yields.
- **The registry** (`RegistrySpec`, `RegistryProofs`, `RegistryEffects`, `RegistryLists`,
  `LinkedLists`).
  Clients, players, recorders, monitors, filters and samples; what holds between
  the lists in every reachable state. The operations work in place on linked
  nodes (`LinkedLists`), all lists in one heap (`RegistryLists`).
- **The protocol** (`Wire`, `Requests`, `Conversations`, `Gate`, `AllInfo`). Requests read a
  piece at a time, ownership and standby over whole runs, and the information
  printer with the client's parser for it.
- **CoreAudio hand-off** (`CoreAudio`). Writer and device callback as an
  interleaved step system, one shared access a step.

C's arithmetic is written out: `Quot` truncates toward zero, `Wrap8`, `Wrap16`
and `WrapU32` narrow. Byte 255 widens to -32768, as in the source.

Some claims one would like to make are false of the code, and the model says
exactly when they hold:

- The running minimum in `mix_players` starts over after a counted player
  without a whole frame, so a round can be longer than an earlier player's data.
  `Counterexamples.UnsafeRound` reaches such a round from an empty list in five
  events; `MixRound.SafeIffCovered` and `RoundSpec.SafeIff` give the exact
  condition and `Rounds.PositiveIff` traces it to the reads that cause it. Such a
  round reads bytes left over from before, and can even leave a player's buffer:
  `BufferSizing.InsideIff` says exactly when it does not.
- A looping sample does not always keep looping. It is closed by the read after a
  round exactly when the sample's end met the buffer's end or the round used none
  of the buffer (`PlayerRuns.LoopDiesIff`, whole lives in `LoopLasts`, a run for
  each cause in `Counterexamples.LoopEndsAtBoundary` and `LoopEndsWhenFull`).
- Calling getopt again after -1 changes nothing exactly when no element set aside
  looks like an option (`GetoptScan.AgainIff`, an input in `AgainFinds`).
- A CoreAudio write can return exactly when its number of bytes is even
  (`CoreAudio.CallReturnsIff`, an input in `OneByteHangs`).
- A client gets back what the server printed exactly when every id is positive
  (`AllInfo.RoundTripIff`).

The inputs in `Counterexamples` are runs from an empty list whose players have the
buffers the daemon gives them.

## Model

| member | source | states |
|---|---|---|
| CTypes.QuotTruncates | mix.c:725-726 | C's division leaves a remainder smaller than the divisor and never overshoots: truncation toward zero, said without dividing. |
| CTypes.NarrowedIff | mix.c:598-600 | Narrowing to 16 bits gives the value in range that is the same up to multiples of 65536, and no other. |
| Formats.FormatWords | esd.h:92-115 | The fields of the format words of esd.h. |
| Formats.SourceFrameIs | mix.c:593-602 | Output frame j is taken from the one source frame that has begun by then while the next has not. |
| MixSpec.SampleMeans | mix.c:583-844 | What the loops load from a buffer is exactly what its bytes mean: channels interleaved, bytes around 127 in steps of 256, 16-bit samples low byte first. |
| MixSpec.WidenSteps | mix.c:598-599 | Byte 127 is silence, each byte up to 254 is 256 more, byte 255 is -32768. |
| MixSpec.ScaleTruncates | mix.c:819-820 | At every volume a sample is scaled to its product over 256, rounded toward zero, with the product's sign. |
| MixSpec.CoversEvery | mix.c:583-844 | If the last of n output frames reads a valid source frame, every one of them does. |
| MixSpec.ScaledInRange | mix.c:708-844 | At volumes 0..256 every scaled sample stays in 16 bits, so narrowing never changes it. |
| MixSpec.VolumeFitsIff | mix.c:708-844 | Exactly the volumes -65535..65536 can be multiplied with every sample without overflowing an int; the volume loops ask for no more. |
| MixSpec.StandardVolume | mix.c:43-81 | At volume 256 on both channels the general loops add the same values as the standard-volume loops, for every format, rate and slot: the choice of function never changes the mix. |
| Players.Player.Pan | proto.c:745-756 | Panning changes the two volumes and nothing else, and the mix function stays the one for the new volumes. |
| MixLoops.IndexExact | mix.c:593-602 | While products stay below 2^32, both ways the loops round an index give frame floor(j*r/R). |
| MixLoops.TermAt | mix.c:583-844 | What must be added at an even counter, at any volume and at standard volume, from a frame inside the data. |
| MixLoops.SameRateAt | mix.c:618-624 | At equal rates the resampling definition reads sample k for slot k: the fast branches add the same values. |
| MixLoops.MixMono8Standard | mix.c:583-606 | The loop adds exactly the player's contribution to the first 2n slots and leaves the others alone. |
| MixLoops.MixStereo8Standard | mix.c:608-641 | As above, through both the equal-rate and the resampling branch. |
| MixLoops.MixMono16Standard | mix.c:643-665 | As above for 16-bit mono. |
| MixLoops.MixStereo16Standard | mix.c:667-703 | As above for 16-bit stereo, both branches. |
| MixLoops.MixMono8Volume | mix.c:708-734 | As above with volumes; an 8-bit mono sample is scaled by both. |
| MixLoops.MixStereo8Volume | mix.c:736-776 | As above with volumes, both branches. |
| MixLoops.MixMono16Volume | mix.c:778-802 | As above with volumes, without narrowing after scaling. |
| MixLoops.MixStereo16Volume | mix.c:804-844 | As above with volumes, both branches. |
| MixLoops.MixPlayer | mix.c:971 | Whichever of the eight was chosen, the accumulator gains the same volume-scaled, resampled frames. |
| PlayerReads.ReadPlayer | players.c:283-425 | Return value, buffer contents, valid length and read position after a read are those of the read function, for every mode and every outcome of the socket. |
| PlayerReads.ReadStreamInto | players.c:299-345 | A stream read that does not fill the buffer is reported but not kept; end of stream and errors give -1. |
| PlayerReads.ReadSampleInto | players.c:347-416 | A sample read appends the next stretch, or for a looping player a full buffer of the repeated sound. |
| PlayerReads.KeepLooping | players.c:380-413 | The inner loop ends, with the buffer full or the sample stopped at its end, and keeps the appended bytes a run of the repeated sound. |
| PlayerReads.AfterIsMod | players.c:380-413 | The position reached after n bytes of a repeated sound is (pos + n) mod its length. |
| PlayerReads.LoopedAt | players.c:380-413 | Byte k of a repeated sound is byte (pos + k) mod its length. |
| RoundSpec.StretchedReads | mix.c:929-946 | For all rates, n <= ceil(F*R/r) output frames read only frames below F. |
| RoundSpec.StretchedTight | mix.c:929-930 | One frame more would read past F: the bound is exact. |
| RoundSpec.CoversIff | mix.c:929-946 | A player covers n output frames if and only if n is at most what its data stretches to. |
| RoundSpec.MinFoldPositive | mix.c:939-945 | On positive lengths the running minimum is a true minimum: one of them and below all of them. |
| RoundSpec.MinFoldSuffix | mix.c:939-945 | In general it is the minimum of the lengths after the last zero. |
| RoundSpec.SafeIff | mix.c:939-945 | No player is asked for more than it has if and only if every positive length before the last zero is at least the minimum after it. |
| RoundSpec.ShortPlayerUnsafe | mix.c:939-945 | Lengths 20, 0, 4096 give a round of 4096 bytes, more than the first. |
| RoundSpec.SafeIsMinimum | mix.c:939-945 | A safe round that is not empty has the length of one of its players. |
| RoundSpec.Clip8IsScaled | mix.c:869-886 | 8-bit clipping is 16-bit clipping followed by division and offset, and always fits a byte. |
| RoundSpec.TotalPermutation | mix.c:955-996 | The sum in every slot is the same for every order of the players. |
| MixMeaning.AddsIff | mix.c:583-844 | What a player adds to an output sample, said from the bytes of its buffer, its rate and its volumes alone, is its share in the mix, for every format. |
| MixMeaning.TotalMeans | mix.c:955-996 | The accumulator is the sum of what the players add in that sense. |
| MixMeaning.ClipNearest | mix.c:848-865 | The clamp is the nearest 16-bit value. |
| MixMeaning.Clip8Means | mix.c:869-886 | The 8-bit output is 128 plus the clamped sum over 256, toward zero. |
| MixMeaning.FrameDrift | mix.c:973-987 | From one round to the next at most one source frame is skipped, and none when the round uses whole frames. |
| MixMeaning.RoundsJoin | mix.c:973-987 | Two rounds of n and m frames add what one of n + m would: the leftover data is exactly where the next round goes on. |
| RoundSpec.MinFoldPermutation | mix.c:939-945 | So is the minimum of positive lengths. |
| PlayerRuns.ReadAligned | players.c:303-416 | A read keeps data within the buffer and everything a whole number of frames. |
| PlayerRuns.StreamReads | players.c:303-345 | A stream is closed exactly on an error or its end, and gets data exactly when the read fills its buffer. |
| PlayerRuns.MixedAligned | mix.c:973-987 | So does a round of any length. |
| PlayerRuns.RunAligned | players.c:303-413 | So does every run of reads and rounds. |
| PlayerRuns.LoopingRead | players.c:347-416 | A looping player with room gets a full buffer whose k-th new byte is sample byte (last_pos + k) mod length, its old data unchanged. |
| PlayerRuns.LoopDiesIff | players.c:361-378 | A looping player is closed by the read after a round of n frames if and only if the sample's end met the buffer's end or the round used nothing; otherwise it is ready to loop on. |
| PlayerRuns.ClosesIff | players.c:355-378 | A read closes a sample player if and only if its position is the sample's end or its buffer is full. |
| PlayerRuns.LoopLasts | players.c:347-416 | Over any number of rounds a looping player keeps looping if and only if neither cause came up in any of them, and then all that was put into its buffer is one unbroken run of the repeated sound. |
| PlayerRuns.AtEndCloses | players.c:361-378 | From there every further read returns -1 and changes nothing. |
| PlayerRuns.OnceReads | players.c:361-378 | A sound played once gives its next stretch, as much as there is and fits. |
| PlayerRuns.OnceLasts | players.c:347-416 | Over any number of rounds it has given its sound from where it started to where it is. |
| PlayerRuns.RoundIsReadAndMix | mix.c:901-996 | A round of one player is a read followed by dropping what was used. |
| PlayerRuns.StopFlagEnds | players.c:354-413 | A looping player whose sample is set to stop plays on to the sample's end and is closed by the read after that. |
| PlayerRuns.StoppedAppends | samples.c:259-292 | After stop_sample, over any run of reads and rounds, the player appends exactly as much as its position advances, at most the rest of the sample. |
| StopSample.StopFirst | samples.c:259-292 | The first player of the sample loses its loop setting; every other player, and all data, stay as they were. |
| StopSample.StoppedCloses | samples.c:259-292 | A stopped player that has used up its sample is closed by the next read. |
| MixRound.Consume | mix.c:981-987 | The buffer becomes the old valid data minus a prefix of min(used, actual_length) bytes. |
| MixRound.TranslateLength | mix.c:922-937 | In 32-bit arithmetic, without overflow, ceil(frames*R/r) output frames capped at the round's length. |
| MixRound.UsedBytes | mix.c:973-979 | The bytes used are floor(n*r/R) whole frames of the player's format. |
| MixRound.Gather | mix.c:901-954 | The players kept are exactly those whose read did not fail, in order, with their new data, and the minimum is that of the counted ones; removal mid-walk skips nobody. |
| MixRound.SumFits | mix.c:583-844 | With fewer than 65536 players no addition leaves 32 bits. |
| MixRound.SurvivorsReady | mix.c:929-971 | If the minimum is safe every surviving player with data covers the whole round. |
| MixRound.SafeIffCovered | mix.c:929-971 | A round reads only valid data of every player if and only if the minimum is safe: an unsafe minimum makes some player read past its data. |
| MixRound.RoundReady | mix.c:901-971 | Everything the second loop relies on follows from the first. |
| MixRound.MixOne | mix.c:962-987 | One player is added to the sum and keeps its unused data; a player without data changes nothing. |
| MixRound.MixAll | mix.c:957-996 | The accumulator holds the true sum over all players, each keeps its leftover. |
| MixRound.ClipTo16 | mix.c:848-865 | Every output sample is the accumulator clamped to 16 bits. |
| MixRound.ClipTo8 | mix.c:869-886 | Every output byte is the clamped, scaled accumulator. |
| MixRound.FinishRound | mix.c:955-1006 | Second loop and clipping together, for both output widths. |
| MixRound.MixPlayers | mix.c:890-1009 | One round: its length is the least any counted player can supply, each output sample the clamp of the true sum over players of their scaled, resampled samples, each player left with the old data minus what was used. |
| RoundOrder.SameSupply | mix.c:901-954 | Reordering players with their input reorders survivors and lengths and changes neither. |
| RoundOrder.OrderIrrelevant | mix.c:890-1009 | When each counted player has a whole frame, the round's length and every output sample are the same for every order of the list. |
| Rounds.RunPlayable | mix.c:890-1009 | Over every run of rounds, arrivals, removals, stopping and panning to any volume, each player stays within its buffer, frame-aligned and within the arithmetic limits. |
| Rounds.RunInRange | mix.c:890-1009 | Volumes stay in 0..256 over every run that brings none outside. |
| Rounds.EventsDo | players.c:66-115 | Joining, leaving, panning and stopping change the one player they are about and nothing else. |
| Rounds.CountedEmptyIff | players.c:303-318 | A player is counted with no data if and only if a read brought an empty stream buffer something, but not enough to fill it. |
| Rounds.PositiveIff | mix.c:908-945 | Every counted player has a whole frame if and only if no read of the round was such a short one. |
| Rounds.EveryRound | mix.c:890-1009 | In every run with volumes in 0..256, a round without short reads meets every condition of MixPlayers. |
| Counterexamples.UnsafeRound | mix.c:939-971 | Five events from an empty list, all buffers of the size they are given, lead to a round with lengths 20, 0, 4096 that the newest stream, with 5 frames, does not cover. |
| Counterexamples.LoopEndsAtBoundary | players.c:361-378 | A looping sound of 2048 bytes in the 1024-byte buffer it is given, alone in the mix, is gone after its third round. |
| Counterexamples.LoopEndsWhenFull | players.c:361-378 | A looping sound of 8 bytes is gone two rounds after it joined, because a short read of another player made the first of them empty. |
| Translate.Stereo16ToMono8 | mix.c:159-177 | Destination frame j is the converted source frame floor(j*src/dst); no byte beyond is touched. The same for the fifteen loops below. |
| Translate.Stereo16ToStereo8 | mix.c:178-197 | As above. |
| Translate.Stereo16ToMono16 | mix.c:202-215 | As above. |
| Translate.Stereo16ToStereo16 | mix.c:216-245 | As above. |
| Translate.Stereo8ToMono8 | mix.c:278-291 | As above. |
| Translate.Stereo8ToStereo8 | mix.c:292-318 | As above. |
| Translate.Stereo8ToMono16 | mix.c:323-336 | As above. |
| Translate.Stereo8ToStereo16 | mix.c:337-357 | As above. |
| Translate.Mono16ToMono8 | mix.c:390-402 | As above. |
| Translate.Mono16ToStereo8 | mix.c:403-420 | As above. |
| Translate.Mono16ToMono16 | mix.c:425-445 | As above. |
| Translate.Mono16ToStereo16 | mix.c:446-465 | As above. |
| Translate.Mono8ToMono8 | mix.c:498-517 | As above. |
| Translate.Mono8ToStereo8 | mix.c:518-534 | As above. |
| Translate.Mono8ToMono16 | mix.c:539-551 | As above. |
| Translate.Mono8ToStereo16 | mix.c:552-572 | As above. |
| Translate.MonoAt | mix.c:136-578 | For a mono destination the computed index is a frame inside the source, the one the definition names. |
| Translate.StereoAt | mix.c:136-578 | The same for a stereo destination, from an even counter. |
| Translate.CopyAt | mix.c:136-578 | At equal rates and formats the definition of each sample is the source's own sample. |
| Translate.CopyAll | mix.c:136-578 | The memcpy shortcuts therefore store what the loops would. |
| Translate.MaxWriteFits | esd.h:14-16 | For buffers up to ESD_MAX_WRITE_SIZE and rates up to 48000 no index product wraps. |
| TranslateMeaning.LoadHolds | mix.c:136-578 | What the loops load is what the bytes of the source hold. |
| TranslateMeaning.KindIsFormat | mix.c:83-99 | The translator is chosen by the source's own width and channels. |
| TranslateMeaning.ConvertedIff | mix.c:136-578 | One sample to one sample: unchanged in the same width, around 127 in steps of 256 otherwise, rounded toward zero and narrowed. |
| TranslateMeaning.BlendedIff | mix.c:136-578 | Two channels to one: the average, rounded toward zero. |
| TranslateMeaning.SampleIs | mix.c:136-578 | Every stored sample is the due source frame's own channel, its only channel or both blended, in those terms. |
| TranslateMeaning.WidenNarrow | mix.c:136-578 | 8 to 16 to 8 bits gives every byte back. |
| TranslateMeaning.NarrowWiden | mix.c:136-578 | 16 to 8 to 16 bits loses less than 256, toward silence. |
| TranslateMeaning.BlendLaws | mix.c:136-363 | Blending does not depend on which channel is which, and equal channels blend to their own conversion. |
| TranslateMeaning.BlendBetween | mix.c:136-363 | In the same width a blend lies between its channels. |
| Translate.FromStereo16 | mix.c:136-251 | All four destinations and the shortcut meet the one definition; an empty source or unknown width writes nothing and returns 0. |
| Translate.FromStereo8 | mix.c:255-363 | As above. |
| Translate.FromMono16 | mix.c:367-471 | As above. |
| Translate.FromMono8 | mix.c:475-578 | As above. |
| Translate.TranslateBuffer | mix.c:83-99 | Whatever the formats and rates, frame j is the converted frame floor(j*src/dst). |
| BufferSizing.FramesBound | players.c:561-569 | A buffer sized for any format and rate lasts no longer than the server's buffer. |
| BufferSizing.FramesLower | players.c:561-569 | And lacks at most four frames of lasting as long. |
| BufferSizing.NeverReadsPast | players.c:561-569 | So translating the server's buffer to fill it never reads past the server's buffer and never wraps an index. |
| BufferSizing.SizedForMixing | players.c:561-569 | And a player with such a buffer meets every arithmetic condition of a mixing round. |
| BufferSizing.NewPlayable | players.c:561-569 | A player as it is set up, for any format, rate and volumes, can join the mix. |
| BufferSizing.InsideIff | players.c:561-569 | A round of n frames stays inside a player's buffer, whatever is in it, if and only if n is at most what the whole buffer stretches to. |
| BufferSizing.SizeRoundsDown | players.c:561-569 | An 8-bit mono player at 8000 Hz gets 184 bytes, and the last frame of a full round is number 185. |
| BufferSizing.SendToClient | players.c:453-460 | Translating to a client fills its whole buffer with the server's frames. |
| GetoptExchange.SwapBlocks | getopt.c:341-347 | The inner loop swaps two blocks of equal length and nothing else. |
| GetoptExchange.BottomShort | getopt.c:334-350 | Swapping the short lower segment leaves a smaller rotation with the same result. |
| GetoptExchange.TopShort | getopt.c:351-367 | The same when the upper segment is the short one. |
| GetoptExchange.Exchange | getopt.c:296-374 | [A][B] becomes [B][A] for all lengths, nothing outside moves, it terminates, and the two bounds end up around the moved non-options. |
| GetoptDecode.ElementCases | getopt.c:604-608 | What an option element is, and where its name begins. |
| GetoptDecode.ShortCases | getopt.c:907-949 | From optstring alone: no colon, no argument; one, the rest of the element, else the next element, else an error; two, the rest of the element or none. |
| GetoptDecode.UnknownShort | getopt.c:760-800 | A character that is not listed is an error and is skipped. |
| GetoptDecode.MissingIs | getopt.c:907-949 | A missing argument is reported as ":" exactly when optstring begins with one. |
| GetoptDecode.LongCode | getopt.c:725-730 | A long option that sets a flag returns 0, any other its value. |
| GetoptDecode.MatchCases | getopt.c:641-664 | Exactly which entry of the table a name selects, or none. |
| GetoptDecode.DecodeCases | getopt.c:626-755 | Exactly which elements are taken for long options, and what becomes of the others. |
| GetoptDecode.Decode | getopt.c:611-953 | One option always makes progress: it uses one or two elements exactly when it finishes the current one, and a second only if there is one. |
| GetoptDecode.MyIndex | getopt.c:206-218 | The first occurrence, or the end. |
| GetoptDecode.FindLong | getopt.c:641-664 | The single pass finds the first exact match anywhere, otherwise the only abbreviation, otherwise reports ambiguity or nothing. |
| GetoptDecode.TakeLongOption | getopt.c:680-733 | A second element is taken exactly for a required argument without "="; it is an error exactly when an argument is given that is not allowed or one is missing; otherwise the argument is the text after "=", the next element, or none. |
| GetoptDecode.TakeShortOption | getopt.c:760-953 | A second element is taken only at the end of a cluster; otherwise the argument is the rest of the cluster. |
| GetoptDecode.DecodeOption | getopt.c:611-953 | The decoder meets the definition for all optstrings without "W;" and all long-option tables. |
| GetoptScan.SettledKeeps | getopt.c:540-553 | Exchanging processed options with skipped non-options keeps both in order and touches nothing unscanned. |
| GetoptScan.ScanSkips | getopt.c:555-561 | Skipping non-options only sets them aside. |
| GetoptScan.DecodeKeeps | getopt.c:611-953 | Decoding moves one option from what is to come to what is done, and decreases the measure. |
| GetoptScan.CallGot | getopt.c:503-955 | A call that returns an option returns the next option of the scan and leaves the rest of the outcome unchanged, with fewer elements, or fewer characters in the same one, to go. |
| GetoptScan.CallEnd | getopt.c:568-591 | At -1 argv is program name, consumed elements, other elements, and optind the boundary. |
| GetoptScan.EndClamped | getopt.c:540-543 | After -1 the bounds are put back to optind: a further call finds a valid state. |
| GetoptScan.AgainScans | getopt.c:534-609 | Calls made after -1 scan the elements set aside as if they were new. |
| GetoptScan.AgainIff | getopt.c:534-609 | Calling again after -1 gives -1 with everything unchanged if and only if no element set aside looks like an option. |
| GetoptScan.AgainFinds | getopt.c:534-609 | "p -- -a": the first call ends, the second returns option a. |
| GetoptScan.RunYields | getopt.c:503-955 | From any state, calling until -1 ends and yields exactly the rest of the scan. |
| GetoptScan.PermuteRun | getopt.c:503-955 | From a fresh start it yields the whole scan of the original arguments. |
| GetoptScan.ScanStable | getopt.c:534-609 | Consumed and other elements are two complementary subsequences of the arguments: a stable partition. |
| GetoptScan.SampleScan | getopt.c:503-955 | One scan in full: clusters, attached, separate and optional arguments, an abbreviated long option, "--", and non-options in between. |
| Getopt.Scanner.Initialize | getopt.c:381-445 | The first call starts from a fresh state; later calls keep theirs. |
| Getopt.Scanner.Settle | getopt.c:540-553 | The array and first_nonopt are those of the specified exchange. |
| Getopt.Scanner.SettleAndSkip | getopt.c:540-561 | Then optind and last_nonopt are at the next option element or the end. |
| Getopt.Scanner.EndOptions | getopt.c:568-579 | "--" joins the consumed elements, everything after it the others. |
| Getopt.Scanner.AdvanceElement | getopt.c:534-609 | Moves to the next option element or reports the end, in the specified state. |
| Getopt.Scanner.DecodeCurrent | getopt.c:611-953 | Result, optarg, optind and nextchar are those of the decoder. |
| Getopt.Scanner.Getopt | getopt.c:503-955 | One call takes the specified step, in place, also after -1 was returned. |
| Getopt.Scanner.ParseAll | getopt.c:503-955 | Calling until -1 terminates, returns the options of the scan of the original array, and leaves it stably partitioned with optind at the first non-option. |
| RegistryProofs.Reachable | players.c:30-62 | In every reachable state: streaming clients and stream entries one to one, ref_count equal to the number of players, esd_playing_samples their total, ids distinct, no freed parent, and erase_when_done only with players left. |
| RegistryProofs.ApplyKeeps | clients.c:90-135 | Every event keeps all of that. |
| RegistryProofs.EraseEntryKeeps | players.c:82-200 | So does erasing an entry of any of the four lists. |
| RegistryProofs.DoubleErase | players.c:473-514 | Erasing the client first and then again with the entry ends in the same state as erasing it once. |
| RegistryProofs.SweepKeeps | players.c:429-525 | Any walk with removals keeps the invariants. |
| RegistryProofs.SweepFilters | filter.c:89-136 | Removals during a walk remove exactly the failed entries, keep the others in order, and visit each entry once. |
| RegistryProofs.EraseSampleKeeps | samples.c:66-109 | Erasing or deferring keeps the counts right. |
| RegistryProofs.ReleaseSampleKeeps | players.c:38-53 | Freeing a player keeps them right, and a waiting sample goes with its last player and no earlier. |
| RegistryProofs.ParentIsLive | proto.c:296-420 | Each stream entry's parent is a live, streaming client. |
| RegistryProofs.ParentsDiffer | proto.c:296-420 | No two stream entries, of whatever kind, share a client. |
| RegistryProofs.ClientHasEntry | proto.c:296-420 | Each streaming client has an entry. |
| RegistryEffects.AcceptAdds | clients.c:90-96 | A client that connects is known and will be served. |
| RegistryEffects.CloseRemoves | clients.c:100-135 | A client whose request failed is gone, and no other. |
| RegistryEffects.OpenAdds | proto.c:296-420 | A stream request adds its entry at the head of its list and makes its client stream; nothing else changes. |
| RegistryEffects.RefusedGone | proto.c:331-369 | A recorder that is refused loses its client and leaves nothing behind. |
| RegistryEffects.CacheAdds | samples.c:187-218 | A cached sample is listed under an id nobody has. |
| RegistryEffects.PlayAdds | players.c:598-677 | Playing a sample adds one player of it. |
| RegistryEffects.FreshIff | players.c:529-540 | What makes an address free for a new entry. |
| RegistryEffects.FreeMarks | samples.c:77-99 | Freeing a sample that is played marks it; one that is not goes at once. |
| RegistryEffects.FreedLife | samples.c:66-109 | In every state of the rest of any run, a freed id that is still listed is marked, where it was, and being played. |
| RegistryEffects.FreedIff | players.c:38-53 | As long as its address is not used again, it is listed if and only if something plays it. |
| RegistryProofs.WaitingSample | samples.c:77-99 | After any event, a sample freed by its owner is still there if and only if something plays it. |
| RegistryLists.Daemon.AddClient | clients.c:90-96 | A new client at the head of the list, waiting for its first request, all invariants kept. |
| RegistryLists.Daemon.OpenStream | proto.c:296-420 | A new entry and a client that now streams, all invariants kept. |
| RegistryLists.Daemon.PlaySample | samples.c:245-255 | A new player of the sample with that id, counted on it, or no change if there is no such sample or no player could be made; all invariants kept. |
| RegistryLists.Daemon.EraseClient | clients.c:100-135 | The client with that address goes; an unknown address changes nothing. |
| RegistryLists.Daemon.EraseSample | samples.c:66-109 | An unused sample goes, a used one is marked. |
| RegistryLists.Daemon.FreePlayer | players.c:30-62 | Client erased, or sample released, never through a dangling parent. |
| RegistryLists.Daemon.EraseEntry | players.c:82-200 | The node is unlinked in place and what depends on its entry freed, as specified, never through a dangling parent; no other node moves. |
| RegistryLists.Daemon.DropEntry | players.c:473-514 | The failed-write path with its double erase ends in the specified state, all invariants kept. |
| RegistryLists.Daemon.Walk | players.c:429-525 | In one heap of linked lists: the walk visits every node once, never follows an unlinked one, and ends in the specified state of all the lists, clients erased and samples released, with exactly the entries left that did not fail; all invariants kept. |
| RegistryLists.Daemon.Visit | players.c:473-479 | The pointer taken before an entry is dropped is the next node still in the list, and the rest of the walk is unchanged by the drop. |
| RegistryLists.TakeEntry | players.c:82-116 | Search and unlinking of an entry by its address: which one is taken, and that the others stay in order. |
| RegistryLists.EraseCached | samples.c:66-109 | Search by id, then unlinking or marking, on the list itself. |
| RegistryLists.ReleaseCached | players.c:38-53 | A sample loses a player and goes with its last one if it was waiting to. |
| RegistryLists.CountPlayer | players.c:604-669 | A sample gains a player, unless it is not there or the player cannot be made. |
| RegistryLists.MarkStreaming | proto.c:311 | The client's state changes, no other. |
| LinkedLists.List.Push | players.c:66-78 | A new node linked in at the head, the others as they were. |
| LinkedLists.List.Find | players.c:88-113 | The first node with what is looked for, and its predecessor. |
| LinkedLists.List.LinkAround | players.c:91-98 | Linking around a node takes it alone out, from the head, the middle or the end; every other link leads to the same successor as before. |
| LinkedLists.List.EraseFirst | clients.c:100-135 | Both together; nothing changes if nothing is found. |
| Wire.EncodeMeans | proto.c:661-672 | The four bytes are the number's digits in base 256, lowest first. |
| Wire.IntRoundTrip | proto.c:661-672 | Decoding an encoded 32-bit integer gives it back. |
| Wire.WordRoundTrip | proto.c:937-941 | Encoding a decoded word gives back its bytes. |
| Requests.PollValid | proto.c:876-983 | Every poll keeps the stored length within the table and the buffer; a handler only ever sees all of its parameters. |
| Requests.UnimplementedCloses | proto.c:878-891 | An entry with length -1 closes the client before anything is read and without a handler. |
| Requests.StepSound | proto.c:840-1002 | Each step accounts for every byte it read, also when it closes the connection; a handler that runs, even one that refuses, is given the next request and nothing else has been consumed. |
| Requests.TalkSound | proto.c:840-1002 | For every split into reads, on open and closed connections: handlers ran on whole requests only, each once, CONNECT first and only first. While open, what was consumed is exactly those requests and the part of the next that has arrived; when a handler runs, accepted or refused, exactly those requests. |
| Conversations.TableIs | proto.c:51-84 | Each entry of the table is the size of the fields its handler takes, or -1 for those not implemented. |
| Conversations.RequestNumbers | esd.h:39-82 | The requests are numbered as in esd.h. |
| Conversations.PayloadIs | samples.c:160-175 | Only a sample to be cached has a payload, as long as its third field says. |
| Conversations.ClosedIff | proto.c:876-1002 | Exactly when a poll closes a client: nothing more comes, the request is not known, or its handler refuses it. |
| Conversations.HandledIff | proto.c:913-970 | Exactly when a poll runs a handler. |
| Conversations.EverySplitRuns | proto.c:893-925 | Parameters split into any non-empty pieces: the handler runs exactly once, on exactly their bytes, and an accepted request leaves the connection open. |
| Conversations.EveryRequestRuns | proto.c:933-970 | The same for a whole request, its word first. |
| Conversations.EveryConversation | proto.c:840-1002 | And for any number of requests one after the other. |
| Conversations.WholeConversation | proto.c:840-1002 | From the moment a client is accepted: connect and then each request runs its handler once, in order, however the bytes are split. |
| Requests.UniqueParse | proto.c:51-84 | A byte string is requests plus a partial one in one way only. |
| Requests.SplitIrrelevant | proto.c:840-1002 | Two open connections that consumed the same bytes have run the same handlers on the same parameters. |
| Requests.Connection.PollRequest | proto.c:840-1002 | State, stored bytes and handler run after one turn are the specified ones. |
| Requests.Connection.Store | proto.c:893-900 | New bytes go behind the old ones. |
| Requests.Connection.Handle | proto.c:913-925 | The handler runs on exactly the stored bytes and its verdict decides what follows. |
| Gate.ServeKeeps | proto.c:121-292 | Every handler keeps the flags coherent, changes lock or standby only with the owner's key, never the owner, and ends forced standby only as an accepted RESUME. |
| Gate.ConnectDecides | proto.c:204-218 | connect lets a client in if and only if the daemon is free, open or its own and the endian word is known; the first to ask becomes the owner. |
| Gate.FreeAdmits | proto.c:144-190 | A free daemon lets in anyone with a known endian word. |
| Gate.LockDecides | proto.c:222-257 | After LOCK by the owner no other key gets in; after UNLOCK every key does. |
| Gate.StandbyDecides | proto.c:261-292 | STANDBY by the owner puts the daemon on standby; RESUME takes it off if and only if the device can be had. |
| Gate.StrangerRefused | proto.c:222-292 | With any other key the owner's requests are refused and change nothing, except that STANDBY is remembered as forced. |
| Gate.RecorderDecides | proto.c:317-332 | A recorder is admitted if and only if the daemon plays or can be woken. |
| Gate.BoredAndWoken | clients.c:358-388 | Boredom leads to autostandby, and a mixed round out of it exactly when standby is not forced and the device can be had. |
| Gate.OtherByteOrder | proto.c:937-941 | A client of the other byte order announces itself by the reversed endian word, and its request words are read as it meant them. |
| Gate.OwnByteOrder | proto.c:937-941 | Nobody else's bytes are touched. |
| Gate.SwapsIff | proto.c:121-140 | A client is taken for one of the other byte order exactly when its CONNECT says so. |
| Gate.AcceptJoins | clients.c:235-247 | A new connection expects CONNECT; the others are as they were. |
| Gate.PollsReach | proto.c:840-876 | Every client that is neither streaming nor closed is polled; an incomplete request changes only its own state. |
| Gate.HandlerDecides | proto.c:913-1002 | A completed request is served by its handler, which alone decides the flags and whether the client stays. |
| Gate.ApplyKeeps | proto.c:840-1002 | Every event keeps the invariant of the whole server. |
| Gate.PollKeeps | proto.c:840-1002 | So does a poll, with or without a handler. |
| Gate.RunKeeps | proto.c:913-975 | In every run no handler but connect runs for a client before connect accepted its key and endian word, and autostandby implies standby. |
| Gate.OwnerFixed | proto.c:144-190 | Once claimed, the owner key is the same after any run. |
| Gate.LockNeedsKey | proto.c:222-257 | The lock changes only in a LOCK or UNLOCK handler given the owner's key. |
| Gate.ForcedUntilResume | esd.c:578-618 | While standby is forced only an accepted RESUME with the owner's key ends it. |
| Gate.ForcedLasts | proto.c:261-292 | Over any run in which no RESUME is accepted, a forced standby lasts, whatever is mixed, recorded, timed out or asked for. |
| Gate.ModeRunning | proto.c:815-835 | The mode query answers RUNNING if and only if the daemon is not on standby. |
| Gate.Flags.ValidateSource | proto.c:144-190 | First client claims; otherwise open daemon or matching key. |
| Gate.Flags.ServerStandby | esd.c:578-592 | Standby on, other flags unchanged. |
| Gate.Flags.ServerResume | esd.c:596-618 | All three standby flags cleared, or nothing changed when the device stays busy. |
| Gate.Flags.ServeRequest | proto.c:204-345 | The handlers assign the flags as specified. |
| Gate.Flags.StandbyMode | proto.c:815-835 | The answer, tied to the standby flag. |
| Gate.Flags.Timeout | clients.c:358-364 | The timeout takes the specified step. |
| Gate.Flags.AfterMix | clients.c:382-388 | So does waking up after a round. |
| AllInfo.WritePlayers | proto.c:641-677 | The loop writes every record in order, then the terminating one. |
| AllInfo.WriteSamples | proto.c:680-719 | The same for samples. |
| AllInfo.PrintAllInfo | proto.c:618-722 | The whole reply, whatever the unset fields of the terminators hold. |
| AllInfo.GetAllInfo | esdmgr.c:121-224 | The two loops compute the parse, with an error for a stream that ends early. |
| AllInfo.ServerLayout | proto.c:634-636 | Which bytes of the reply hold version, rate and format. |
| AllInfo.PlayerLayout | proto.c:661-672 | Which bytes of a player's record hold which field. |
| AllInfo.SampleLayout | proto.c:701-714 | The same for a sample's. |
| AllInfo.ReversedAt | esdmgr.c:182-185 | The last record printed is the first in the client's list. |
| AllInfo.PlayersRoundTrip | esdmgr.c:160-187 | Parsing printed players gives them back reversed and consumes exactly their bytes. |
| AllInfo.SamplesRoundTrip | esdmgr.c:191-219 | The same for samples. |
| AllInfo.CutAtNonPositive | esdmgr.c:182-187 | A player record with id <= 0 ends the list there. |
| AllInfo.CutAtSample | esdmgr.c:214-219 | The same for samples. |
| AllInfo.InfoRoundTrip | proto.c:618-722 | Parsing what was printed gives the same records, each list reversed, and leaves exactly the bytes that follow, whatever the unset fields of the terminators hold. |
| AllInfo.RoundTripIff | esdmgr.c:121-224 | Everything comes back, and exactly the bytes of the reply are consumed, if and only if all player and sample ids are positive. |
| AllInfo.CutReplyFails | esdmgr.c:149-212 | A stream that ends anywhere inside the reply is an error. |
| AllInfo.Query | esdmgr.c:121-224 | Server printing and client parsing composed: for positive ids the client gets every record back and consumes every byte of the reply. |
| CoreAudio.ApplyKeeps | audio_coreaudio.c:36-59 | Every step of either side keeps the invariant. |
| CoreAudio.SubmittedIs | audio_coreaudio.c:366-406 | In every run the samples submitted are those of the calls made, in order. |
| CoreAudio.CallTaken | audio_coreaudio.c:366-371 | A call sets out to write all of its bytes. |
| CoreAudio.TurnFills | audio_coreaudio.c:386-398 | The writer gives up the mutex only when the buffer is full or its call is done. |
| CoreAudio.CallbackEmpties | audio_coreaudio.c:49-53 | The callback takes all there is. |
| CoreAudio.EveryInterleaving | audio_coreaudio.c:366-406 | Under every interleaving, for any sample type and any scaling, the count stays within the buffer and samples delivered, then samples buffered, are the samples written so far, scaled: none lost, repeated or reordered. |
| CoreAudio.DeliveredBuffer | audio_coreaudio.c:47-53 | The device gets the buffered samples followed by zeros. |
| CoreAudio.WriterBounded | audio_coreaudio.c:381-403 | Whatever the callback does in between, the writer makes at most three moves a sample during a call with an even number of bytes. |
| CoreAudio.FairReturns | audio_coreaudio.c:381-403 | Under any schedule, such a call has returned once the writer has made that many moves. |
| CoreAudio.EvenReturns | audio_coreaudio.c:381-403 | From wherever such a call stands there is a way for it to return: the steps are given. |
| CoreAudio.ReturnsIff | audio_coreaudio.c:381-403 | An unfinished call can return if and only if an even number of its bytes is left. |
| CoreAudio.CallReturnsIff | audio_coreaudio.c:366-406 | A call can return if and only if its size is even. |
| CoreAudio.OneByteHangs | audio_coreaudio.c:381-403 | A write of one byte to a fresh device cannot return. |
| CoreAudio.NoDeadlock | audio_coreaudio.c:383-386 | While a call is unfinished one side can always move. |
| CoreAudio.OddNeverReturns | audio_coreaudio.c:381-403 | A call with an odd number of bytes never returns. |

## Left out

- MixRound.MixPlayers: asks that the round be safe (`RoundSpec.Safe`), because otherwise the code reads bytes that are no longer valid, or lie past the buffer; `MixRound.SafeIffCovered`, `Rounds.PositiveIff` and `BufferSizing.InsideIff` say exactly when, and the sum is not described for the other rounds.
- MixRound.Gather: asks that the products of mix.c:929-930 fit an int and that rates are positive; `BufferSizing.SizedForMixing` shows that the sizing provides it when its own product fits.
- MixLoops.MixMono8Volume: volumes outside -65535..65536 are not modelled, because the product with a sample overflows an int there.
- MixLoops.MixStereo8Volume: volumes outside -65535..65536 are not modelled, because the product with a sample overflows an int there.
- MixLoops.MixMono16Volume: volumes outside -65535..65536 are not modelled, because the product with a sample overflows an int there.
- MixLoops.MixStereo16Volume: volumes outside -65535..65536 are not modelled, because the product with a sample overflows an int there.
- MixLoops.MixPlayer: the same volumes, and rounds the player does not cover.
- BufferSizing.SendToClient: the sizing product octets * rate is assumed to fit an int, as the source assumes.
- BufferSizing.NewPlayable: a sample whose length is not a whole number of frames is not modelled.
- GetoptDecode.DecodeOption: the "W;" branch, the error messages, optopt and opterr are not modelled; nor are the '+' and '-' prefixes and POSIXLY_CORRECT.
- Getopt.Scanner.Initialize: argc is at least 1 and the caller does not change optind or the arguments between calls; the ordering is PERMUTE.
- Requests.Connection.PollRequest: a request word arrives whole, and a failed read closes the client; the source adds an error return to the stored length.
- Gate.Flags.ServeRequest: closing and opening the device is a nondeterministic result; only the request words of clients of the other byte order are modelled as swapped.
- AllInfo.InfoRoundTrip: client and server share a byte order.
- AllInfo.GetAllInfo: each read of a field returns all of it unless the stream has ended; a short read in mid-stream, which the source does not notice, is not modelled.
- GetoptDecode.TakeShortOption: optstrings with "W;" are not modelled.
- The recording side of CoreAudio, which overwrites unread input.
- Bytes of a 16-bit sample are little-endian, as on the hosts where the server reads its own format.
- Byte-order swapping of audio data and of request parameters.
- SIGHUP: reset_daemon and reconnect.
- Sample caching resumed over several reads, sample id overflow, and the return path of filters.
- Mono output of the server, debug output, all other audio drivers, the command-line tools, esdlib, esddsp, configuration files and sockets.
