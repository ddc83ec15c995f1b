# Proofs about goh264's H.264 decoder

goh264 is a Go port of FFmpeg's H.264 decoder (Recommendation ITU-T H.264). In many places it
computes in a fast, packed or table-driven form what the standard says in a simple one, and in
several it holds a writer beside the reader. This project models those places in Dafny and proves
that the forms agree: over whole runs of calls, over whole pictures, and for all inputs.

- **Arithmetic decoding** (`Cabac*.dfy`). `CabacSpec` is the engine of sections 9.3.1.2 and 9.3.3.2,
  one bit at a time. `CabacEngine` is the packed engine over integers, `CabacDecoder` the class with
  its 32-bit fields, `CabacRefinement` the simulation between packed engine and standard, `CabacLoops`
  the syntax elements with their generic and hand-inlined loops, `CabacBinarization` and
  `CabacResidualBins` their bins and contexts as the standard lists them, `CabacInit` the context
  states, and `CabacTables` the tables against those of the standard.
- **Bits and NAL units** (`Bitstream`, `BitIo`, `BitReading`, `Ebsp`, `Nal`). Bit writer and bit
  reader as classes, Exp-Golomb codes, escaping, Annex B framing.
- **Variable-length coding of residuals** (`CavlcTables`, `CavlcPrefix`, `Vlc`, `CavlcLevels`,
  `CavlcLevelWriter`, `CavlcLevelReader`, `CavlcResidual`, `CavlcResidualWriter`,
  `CavlcResidualReader`, `CavlcStandard`). Writers append the bits a function names, readers return
  what a parser returns, round-trip lemmas join the two, and `CavlcStandard` says which code table is
  used where.
- **Inter macroblocks** (`InterSyntax`, `InterMotion`, `InterMotionWriter`, `InterMotionReader`,
  `InterResidual`, `InterPayload`, `InterMacroblock`, `InterCoefficients`), up to the round trip of a
  whole P or B macroblock. `InterStandard` states the syntax by type numbers, `InterContexts` where
  blocks stand and which context follows, `InterCodedBits` what is kept of a payload.
- **Neighbours** (`MbaffNeighbours`, `NeighbourRing`, `NeighbourCounts`, `MotionNeighbours`). Which
  macroblocks lie beside the current one in mixed frame and field pairs, and what is loaded from them.
- **Direct prediction** (`DirectMotion`, `DirectNeighbours`, `DirectPrediction`, `DirectUniform`,
  `DirectTemporal`, `DirectRun`), with the uniformity of motion as an invariant over runs of pictures,
  and `DirectStandard`, which states of every block what it is predicted to hold.
- **Deblocking** (`LoopFilterStrength`, `FrameFilter`, `FrameFilterPlain`, `FrameSamples`,
  `DeblockKernels`). Strengths, the two frame filters, and the kernels that work in place;
  `DeblockStandard` and `SampleStandard` are the filter of section 8.7 over blocks and samples of the
  picture.
- `BitMath`, `BlockScan` and `Options` are shared helpers.

`dafny verify dfyconfig.toml` checks the whole project.

Where a class method changes state, its contract ties the new state to a function of the old one, and
the lemmas listed with it say what that function means. Where two forms agree through a function both
of them use, `CabacBinarization`, `CabacResidualBins`, `CavlcStandard`, `InterStandard`,
`InterContexts`, `DirectStandard`, `DeblockStandard` and `SampleStandard` state independently of it what
the standard says.

## Findings

Two properties the code is meant to have fail on some inputs. The model keeps the code as it is.

1. **Closing a payload at the very end of a bit writer never returns.** `WriteRBSPTrailingBits` writes
   zeros until the position is on a byte boundary, but a writer at its last position, 0xffff_ffff,
   drops further bits and does not move. From position 0xffff_fff8 on the loop therefore runs for ever
   (`BitIo.TrailingBitsLoop`). It ends if and only if the position is below 0xffff_fff8
   (`BitIo.TrailingBitsEnd`); `WriteZeroAlign` alone ends if and only if the position is at most
   0xffff_fff8 (`BitIo.ZeroAlignEnds`).
2. **Some Annex B framings do not split into what was framed.** `AppendAnnexBNAL` accepts a unit with
   reference value 0 and type 0, so with header byte 00. If its payload starts 00 01, header and
   payload together read 00 00 01, and `SplitAnnexB` takes them for a start code
   (`Nal.BrokenFrame`). Every list of units comes back if and only if none of them is like that
   (`Nal.AnnexBRoundTrip`).

## Model

| member | source | states |
|---|---|---|
| CabacRefinement.PackedRefinesStandard | internal/h264/cabac.go:29-159 | Every accepted buffer and every sequence of decision, bypass, sign and terminate calls, up to the first terminate bin of 1, give the results and the final context variables of the one-bit-at-a-time engine of sections 9.3.1.2 and 9.3.3.2 |
| CabacRefinement.AlignmentIrrelevant | internal/h264/cabac.go:29-97 | Whether the byte after the second sits at an even address changes neither which buffers are accepted nor the result or the context states of any sequence of calls |
| CabacRefinement.RunRefines | internal/h264/cabac.go:99-159 | From any two engines in step, with any context states, whole runs stay in step |
| CabacRefinement.StartAccepts | internal/h264/cabac.go:29-65 | A buffer is accepted exactly when it has two bytes and the standard allows the offset they start with |
| CabacRefinement.InitSimulates | internal/h264/cabac.go:37-65 | Both initialisations pack the first nine bits and the look-ahead behind them as the invariant of the simulation asks, for every buffer they accept |
| CabacRefinement.RenormSimulates | internal/h264/cabac.go:111-120 | One table shift and at most one refill of two bytes stand for all the single-bit shifts of RenormD |
| CabacRefinement.DecisionSimulates | internal/h264/cabac.go:99-122 | One packed decision returns the bin and the next context variable of DecodeDecision and keeps the engines in step |
| CabacRefinement.BypassSimulates | internal/h264/cabac.go:124-136 | One packed bypass decision returns the bin of DecodeBypass and keeps the engines in step |
| CabacRefinement.TerminateSimulates | internal/h264/cabac.go:152-159 | A packed terminate returns 0 exactly when DecodeTerminate returns bin 0, and then the engines stay in step |
| CabacRefinement.PackedBelowUnit | internal/h264/cabac.go:43-64 | The comparison of the packed value with the scaled range decides whether the offset reaches the range, because the look-ahead bits and the marker stay below one unit |
| CabacRefinement.PcmStartsAtBoundary | internal/h264/cabac.go:161-172 | The samples of an I_PCM macroblock start at the first byte boundary at or after the last bit taken exactly while no fetch has run past the end, for every marker position |
| CabacRefinement.ReadIntraPcmExact | internal/h264/cabac.go:161-185 | Reading samples therefore returns the bytes at that boundary and restarts behind them, or fails exactly when they or the restart do not fit |
| CabacEngine.Choose | internal/h264/cabac.go:99-113 | The choice of an interval keeps the range in 6..510, the packed value positive and below the scaled range, the marker where it was and the context state at most 125 |
| CabacEngine.Renorm | internal/h264/cabac.go:111-120 | Renormalisation brings back the engine invariant: range 256..510, packed value below it, low 16 bits not zero |
| CabacEngine.Bypass | internal/h264/cabac.go:124-136 | A bypass decision keeps the engine invariant |
| CabacEngine.Terminate | internal/h264/cabac.go:152-159 | A terminate bin of 0 keeps the engine invariant |
| CabacDecoder.CabacContext.InitDecoderAligned | internal/h264/cabac.go:37-65 | The fields of the new engine are those the refinement starts from, or the buffer is refused |
| CabacDecoder.CabacContext.InitDecoder | internal/h264/cabac.go:29-35 | The aligned start is taken by itself when at most two bytes remain, and otherwise by the address |
| CabacDecoder.CabacContext.Refill | internal/h264/cabac.go:67-80 | Two bytes enter below the marker, zeros past the end, without overflow of 32 bits |
| CabacDecoder.CabacContext.Refill2 | internal/h264/cabac.go:82-97 | The same at the place the trailing zeros of the packed value name |
| CabacDecoder.CabacContext.GetCabac | internal/h264/cabac.go:99-122 | The masked 32-bit form updates the fields and one context byte as the decision the refinement is about, and no other byte |
| CabacDecoder.CabacContext.GetCabacBypass | internal/h264/cabac.go:124-136 | The 32-bit form is the bypass decision the refinement is about |
| CabacDecoder.CabacContext.GetCabacBypassSign | internal/h264/cabac.go:138-150 | The masked 32-bit form negates its argument exactly for a bypass bin of 0 |
| CabacDecoder.CabacContext.GetCabacTerminate | internal/h264/cabac.go:152-159 | The 32-bit form is the terminate decision the refinement is about |
| CabacDecoder.CabacContext.ReadIntraPcmBytes | internal/h264/cabac.go:161-185 | Samples are returned and the engine restarts behind them, or nothing changes |
| CabacDecoder.CabacContext.RenormOnce | internal/h264/cabac.go:187-194 | The sign-bit shift doubles the engine exactly when its range is below 256 and refills when the marker has left the low 16 bits |
| CabacInit.StateTemplate | internal/h264/cabac.go:212-223 | Every one of the 1024 packed states, computed with masks, stands for the probability state and symbol of section 9.3.1.1, and all are at most 125 |
| CabacTables.PackedRangeTable | internal/h264/cabac_tables.go:39-70 | Every entry a context state of at most 125 can index is that of Table 9-44 |
| CabacTables.PackedLpsTransition | internal/h264/cabac_tables.go:71-80 | The next state after a least probable symbol is that of Table 9-45, with the symbols exchanged in state 0 |
| CabacTables.PackedMpsTransition | internal/h264/cabac_tables.go:71-80 | The next state after a most probable symbol is that of Table 9-45 and stays at most 125 |
| CabacTables.NormShiftBounds | internal/h264/cabac_tables.go:7-38 | The entry of every range is the one shift that brings it into 256..511 |
| CabacLoops.CabacSyntaxDecoder.Get | internal/h264/cabac_mb.go:32-71 | The decision by leading and trailing zero counts leaves the engine and the states as the table-driven one does |
| CabacLoops.CabacSyntaxDecoder.DecideByCounts | internal/h264/cabac_residual.go:436-472 | The decision unrolled on local copies does what the shared engine does, from every valid state |
| CabacLoops.CabacSyntaxDecoder.DecodeIntraPredMode | internal/h264/cabac_mb.go:247-259 | The generic reading of an intra mode is the function both forms are compared with |
| CabacLoops.CabacSyntaxDecoder.DecodeIntraPredModeInlined | internal/h264/cabac_mb.go:271-319 | The inlined reading ends with the same mode, engine and states as the generic one |
| CabacLoops.CabacSyntaxDecoder.DecodeMvdSource | internal/h264/cabac_mb.go:446-480 | The generic reading of a vector difference, with its failure after 22 escape bins of 1 |
| CabacLoops.CabacSyntaxDecoder.DecodeMvdInlined | internal/h264/cabac_mb.go:484-571 | The inlined reading ends with the same difference, magnitude or failure, engine and states as the generic one |
| CabacLoops.CabacSyntaxDecoder.ScanSource | internal/h264/cabac_residual.go:245-285 | The generic significance scan: found positions, last position, engine and states |
| CabacLoops.CabacSyntaxDecoder.Significance4x4Inlined | internal/h264/cabac_residual.go:430-510 | The scan of a 4x4 block ends as the generic scan of 16 coefficients |
| CabacLoops.CabacSyntaxDecoder.SignificanceAc15Inlined | internal/h264/cabac_residual.go:515-595 | The scan of 15 AC coefficients ends as the generic one |
| CabacLoops.CabacSyntaxDecoder.SignificanceInlined | internal/h264/cabac_residual.go:600-664 | The scan with local range and shared refills ends as the generic one, 4:2:2 chroma DC included |
| CabacLoops.CabacSyntaxDecoder.DecodeLevelsSource | internal/h264/cabac_residual.go:286-338 | The generic reading of levels, from the last found position back, stored dequantised, with its range errors |
| CabacLoops.CabacSyntaxDecoder.DecodeLevelsInlined | internal/h264/cabac_residual.go:669-782 | The inlined reading of levels leaves the same block, engine, states and outcome as the generic one |
| CabacBinarization.MvdIsRead | internal/h264/cabac_mb.go:446-480 | The difference read is the one whose bins are read, told by its binarisation: a unary prefix up to 9, an Exp-Golomb escape of order 3 and a sign, where the first bin has increment 0, 1 or 2 for neighbouring sums below 3, from 3 to 32 and above; the kept magnitude is at most 70, and the one failure is an escape of 22 ones |
| CabacBinarization.IntraModeIsRead | internal/h264/cabac_mb.go:247-259 | The mode read is the predicted one behind a bin of 1, or the one of the eight others that three bins name, lowest bit first |
| CabacResidualBins.NodeContexts | internal/h264/cabac_residual.go:49-57 | The node tables give section 9.3.3.1.3: with E earlier levels of magnitude 1 and G above, increment 0 for G > 0 and otherwise min(4, 1 + E) for the first prefix bin, and 5 + min(4, G), or 5 + min(3, G) for chroma DC, for the later ones |
| CabacResidualBins.LevelsAreRead | internal/h264/cabac_residual.go:286-338 | The levels read and stored are those whose bins are read, in falling order of position, each with contexts by the counts of levels before it, and each placed and dequantised where its position says; the only other outcome is an overlong escape |
| CabacResidualBins.LevelsFit | internal/h264/cabac_residual.go:286-338 | Reading levels succeeds exactly when every position has a place in the block and a factor |
| CabacResidualBins.ScanIsRead | internal/h264/cabac_residual.go:245-285 | The positions found are those whose significance and last flags are read, with increments by position, for chroma DC by min(position / NumC8x8, 2); the last one is inferred when none was |
| CabacResidualBins.DequantisedIsNearest | internal/h264/cabac_residual.go:286-338 | Within 32 bits, a level is stored as the nearest integer to level * factor / 64, halves upwards |
| BitIo.BitWriter.WriteBit | internal/h264/bitwriter.go:64-78 | One bit is appended to what was written, or the writer becomes invalid at its last position |
| BitIo.BitWriter.WriteBits | internal/h264/bitwriter.go:80-88 | The binary digits are appended; more than 32 are refused and change nothing |
| BitIo.BitWriter.WriteUe | internal/h264/bitwriter.go:90-100 | The code word of section 9.1 is appended; the one value without a code is refused |
| BitIo.BitWriter.WriteSe | internal/h264/bitwriter.go:102-113 | The code word of section 9.1.1 is appended; the one value without a code is refused |
| BitIo.BitWriter.WriteZeroAlign | internal/h264/bitwriter.go:46-53 | Zeros up to the next byte boundary are appended |
| BitIo.BitWriter.WriteRbspTrailingBits | internal/h264/bitwriter.go:115-123 | A one and zeros up to the next byte boundary are appended |
| BitIo.ZeroAlignEnds | internal/h264/bitwriter.go:46-53 | Alignment from a valid writer ends if and only if a boundary is left to reach (Findings, 1) |
| BitIo.TrailingBitsEnd | internal/h264/bitwriter.go:115-123 | Trailing bits from a valid writer end if and only if the position is below 0xffff_fff8 (Findings, 1) |
| BitIo.TrailingBitsLoop | internal/h264/bitwriter.go:115-123 | From position 0xffff_fff8 no number of rounds reaches a boundary |
| BitReading.BitReader.ReadBit | internal/h264/bitreader.go:65-78 | The next bit, or a refusal at the end that moves nothing |
| BitReading.BitReader.ReadBits | internal/h264/bitreader.go:80-97 | The number the next bits spell, or a refusal that moves nothing |
| BitReading.BitReader.ShowBits | internal/h264/bitreader.go:99-111 | The number the next bits spell, without moving |
| BitReading.BitReader.ShowBitsPadded | internal/h264/bitreader.go:113-138 | The number the next bits spell with zeros past the end |
| BitReading.BitReader.SkipBits | internal/h264/bitreader.go:140-149 | Moves by the count, or refuses at the end |
| BitReading.BitReader.ReadUe | internal/h264/golomb.go:9-34 | Reads what the grammar of section 9.1 reads, and fails only where it fails or the reader is invalid |
| BitReading.BitReader.ReadSe | internal/h264/golomb.go:40-51 | Reads what the grammar of section 9.1.1 reads, and fails only where it fails or the reader is invalid |
| BitReading.RbspBitLength | internal/h264/bitreader.go:38-56 | Succeeds exactly when there is a one bit, and then returns the position of the last one |
| Bitstream.UeRoundTrip | internal/h264/bitwriter.go:90-100 | Every unsigned code word, anywhere in a stream, reads back as its value and takes exactly its bits |
| Bitstream.SeRoundTrip | internal/h264/bitwriter.go:102-113 | Every signed code word reads back as its value and takes exactly its bits |
| Ebsp.NalAppendCapacity | internal/h264/bitwriter.go:172-186 | The capacity is the worst case of the escaped form, or a refusal exactly when that does not fit an int |
| Ebsp.AppendEbsp | internal/h264/bitwriter.go:127-145 | The loop with its zero counter appends the escaped form, within that capacity |
| Ebsp.AppendRbsp | internal/h264/nal.go:403-426 | The loop over escaped bytes appends the unescaped form, or refuses |
| Ebsp.EscapeCorrect | internal/h264/bitwriter.go:127-145 | Escaping is undone by both unescapers, never contains 00 00 followed by 00, 01 or 02, and adds at most half the length |
| Ebsp.UnescapeIsStandard | internal/h264/nal.go:403-426 | Whatever the unescaping loop accepts it decodes as section 7.3.1 does, from any number of zeros read before |
| Ebsp.RbspRoundTrip | internal/h264/bitreader.go:27-56 | Bits closed with trailing bits, escaped, unescaped and opened again come back, all of them and no other |
| Ebsp.NewRbspBitReader | internal/h264/bitreader.go:27-36 | The reader holds the bits before the last one, or nothing is opened |
| Nal.AppendNal | internal/h264/bitwriter.go:147-157 | Header and escaped payload are appended, or nothing is; refused exactly for a header out of range or a length that does not fit |
| Nal.AppendAnnexBNal | internal/h264/bitwriter.go:159-170 | The same behind a start code of four bytes |
| Nal.FindStartCode | internal/h264/nal.go:388-401 | Returns the first start code at or after a position, and whether it is the long or the short one |
| Nal.SplitAnnexB | internal/h264/nal.go:67-114 | The loop over start codes returns the units between them, or refuses where there is no start code or a unit cannot be unescaped |
| Nal.AnnexBRoundTrip | internal/h264/nal.go:67-114 | Framed units split into the same units if and only if none of them is Broken: a zero header byte before a payload that starts 00 01 (Findings, 2) |
| Nal.BrokenFrame | internal/h264/nal.go:388-401 | One unit that does not come back |
| CavlcPrefix.Owned | internal/h264/cavlc.go:32-220 | Every 16-bit window that starts with a code word of a code table determines its symbol, so no two code words overlap |
| Vlc.PrefixFree | internal/h264/cavlc.go:32-220 | No code word of a table is the start of another |
| Vlc.Write | internal/h264/cavlc.go:234-243 | The code word of the symbol is appended, or the symbol is refused |
| Vlc.Read | internal/h264/cavlc.go:245-266 | The search through growing lengths finds what the parser of the table finds |
| Vlc.VlcRoundTrip | internal/h264/cavlc.go:234-266 | Every symbol with a code word, in every table, reads back and takes exactly its bits |
| CavlcLevels.InitLevelTable | internal/h264/cavlc.go:268-290 | The loop fills all seven rows of 256 entries |
| CavlcLevels.EntryMeaning | internal/h264/cavlc.go:268-290 | An entry looked up with the next eight bits is the level and length that level_prefix and level_suffix of section 9.2.2.1 give, or names the prefix to go on from |
| CavlcLevelReader.ReadLevelPrefix | internal/h264/cavlc.go:1169-1181 | Reads the zeros before the next one, or fails at the end |
| CavlcLevelReader.ReadCavlcLevels | internal/h264/cavlc.go:1023-1167 | The table-driven reader succeeds exactly when the plain parser of section 9.2.2.1 (level_prefix at most 28) does, with its levels, bits and suffix lengths, inputs that end inside the eight-bit peek included |
| CavlcLevelWriter.WriteLevelCode | internal/h264/cavlc.go:994-1021 | The code word of a level with suffix length 0, or a refusal exactly where there is none |
| CavlcLevelWriter.WriteSubsequentLevel | internal/h264/cavlc.go:970-992 | The code word of a later level at its suffix length |
| CavlcLevelWriter.WriteFirstLevelWithSuffix | internal/h264/cavlc.go:898-920 | The code word of a first level without trailing ones, and the next suffix length |
| CavlcLevelWriter.WriteFirstLevelWithTrailingOnes | internal/h264/cavlc.go:878-896 | The code word of a first level behind trailing ones, and the next suffix length |
| CavlcLevelWriter.LevelRoundTrip | internal/h264/cavlc.go:994-1021 | Every level code word reads back at every suffix length |
| CavlcLevelWriter.LevelsRoundTrip | internal/h264/cavlc.go:870-1021 | Every sequence of level code words reads back, with the suffix length growing alike on both sides |
| CavlcResidual.BlockRoundTrip | internal/h264/cavlc.go:676-719 | The code word of every block that has one parses back as its coefficients, from the highest frequency down, and takes exactly its bits |
| CavlcResidualWriter.WriteCoeffToken | internal/h264/cavlc.go:330-357 | The code word for total and trailing ones in the table nC and the block size select |
| CavlcResidualWriter.WriteTotalZeros | internal/h264/cavlc.go:389-421 | The code word for the zeros below the last coefficient, none for a full block |
| CavlcResidualWriter.WriteRunBefore | internal/h264/cavlc.go:440-455 | The code word for a run of zeros in the table of the zeros left |
| CavlcResidualWriter.WriteTrailingOnes | internal/h264/cavlc.go:457-512 | Writes exactly the blocks whose levels are at most three ones |
| CavlcResidualWriter.WriteSingleLevel | internal/h264/cavlc.go:514-550 | Writes exactly the blocks with one level that is not a one |
| CavlcResidualWriter.WriteNonTrailingLevels | internal/h264/cavlc.go:556-618 | Writes exactly the blocks without trailing ones and without later ones, in the admitted numbers |
| CavlcResidualWriter.WriteNonTrailingLevelsTrailingOnes | internal/h264/cavlc.go:721-801 | The same behind trailing ones |
| CavlcResidualWriter.WriteSingleLevelTrailingOnes | internal/h264/cavlc.go:803-868 | Writes exactly the blocks with one other level behind trailing ones |
| CavlcResidualWriter.WriteResidual | internal/h264/cavlc.go:676-719 | The dispatcher writes the block word of exactly the blocks one of these writers admits, and returns the count |
| CavlcResidualReader.ReadCoeffToken | internal/h264/cavlc.go:304-328 | Reads a symbol of the table nC and the block size select, or fails where its parser fails |
| CavlcResidualReader.ReadTotalZeros | internal/h264/cavlc.go:359-387 | Reads the zeros below the last coefficient, or fails where the parser fails |
| CavlcResidualReader.ReadRunBefore | internal/h264/cavlc.go:423-438 | Reads a run of zeros in the table of the zeros left |
| CavlcResidualReader.StoreLevel | internal/h264/cavlc.go:1250-1263 | One entry of the block holds the level, dequantised where asked, or nothing changes and the place does not exist |
| CavlcResidualReader.DecodeResidual | internal/h264/cavlc.go:1183-1248 | The block after decoding holds what the parser read, at the places the scan names, and nothing else changed; failure only where the parser fails or a place does not exist |
| CavlcResidualReader.StoredIsBlock | internal/h264/cavlc.go:1250-1263 | The coefficients of a block stored into zeros are that block |
| CavlcResidualReader.ResidualRoundTrip | internal/h264/cavlc.go:676-1263 | Whatever the bounded writer writes, decoding leaves a zeroed block equal to the written one and takes exactly the written bits |
| CavlcResidualReader.StoredIsNearest | internal/h264/cavlc.go:1250-1263 | Within 32 bits, a level of a block with factors is stored as the nearest integer to level * factor / 64, halves upwards, and every other level as it is |
| CavlcStandard.ReadIsWritten | internal/h264/cavlc.go:234-266 | From any place of any text, a symbol is read if and only if its code word stands there, and exactly its bits are taken |
| CavlcStandard.TokensWritten | internal/h264/cavlc.go:330-357 | coeff_token for no coefficient, one trailing one and two trailing ones is 1, 01, 001 for 0 <= nC < 2; 11, 10, 011 for 2 <= nC < 4; 1111, 1110, 1101 for 4 <= nC < 8; 000011, 000001, 000110 from 8 on; and the words of Table 9-5 for both kinds of chroma DC blocks |
| CavlcStandard.TokensRead | internal/h264/cavlc.go:304-328 | A text is read as one of these tokens if and only if its word stands there |
| CavlcStandard.FixedLength | internal/h264/cavlc.go:292-302 | From nC = 8 on every token has six bits: the number of coefficients less one, and the trailing ones |
| CavlcStandard.SmallestLevel | internal/h264/cavlc.go:774-896 | The smallest level behind the trailing ones is coded 1, or 10 for more than ten coefficients unless three of them are trailing ones |
| CavlcStandard.TotalZerosCodes | internal/h264/cavlc.go:389-421 | The table used for a number of coefficients has a code word for exactly the numbers of zeros that leave them room |
| CavlcStandard.RunsWritten | internal/h264/cavlc.go:440-455 | run_before is coded as Table 9-10 lists it for the zeros left |
| CavlcStandard.RunsRead | internal/h264/cavlc.go:423-438 | A text is read as such a run if and only if its code word stands there |
| LoopFilterStrength.ComparisonIsMatching | internal/h264/loop_filter.go:2091-2120 | The comparison finds no difference exactly when the motions in use can be paired off one to one with equal references and vectors within the limits of section 8.7.2.1 |
| LoopFilterStrength.ComparisonIsSymmetric | internal/h264/loop_filter.go:2091-2120 | Exchanging the blocks changes nothing |
| LoopFilterStrength.MaskedEdge | internal/h264/loop_filter.go:23-26 | Where the mask covers an edge, comparing all four pairs would find no difference in motion |
| LoopFilterStrength.OneComparison | internal/h264/loop_filter.go:1968-2089 | Where partitions run along an edge, the first pair stands for all four |
| LoopFilterStrength.BoundaryShortcutIsExact | internal/h264/loop_filter.go:1968-2028 | With motion uniform inside partitions, the shortcuts at a boundary give the strengths of four separate comparisons |
| LoopFilterStrength.InternalShortcutIsExact | internal/h264/loop_filter.go:2030-2089 | The same inside a macroblock |
| LoopFilterStrength.BoundaryStrength | internal/h264/loop_filter.go:1968-2028 | The general form computes what these shortcuts define, without a range error for one or two lists |
| LoopFilterStrength.InternalStrength | internal/h264/loop_filter.go:2030-2089 | The same inside a macroblock |
| LoopFilterStrength.BoundaryStrengthProgressive | internal/h264/loop_filter.go:1865-1899 | The progressive form computes what the general one does for macroblocks that are not interlaced |
| LoopFilterStrength.InternalStrengthProgressive | internal/h264/loop_filter.go:1904-1942 | The same inside a macroblock |
| LoopFilterStrength.SkippedEdges | internal/h264/loop_filter.go:1296-1381 | Inner edges skipped for a mask of 3 and no coefficients have strength 0 |
| FrameFilter.FillProgressive | internal/h264/loop_filter.go:400-521 | The specialised cache fill leaves the context the tables define |
| FrameFilter.FillGeneral | internal/h264/loop_filter.go:943-1062 | The general cache fill leaves the same context |
| FrameFilter.KernelProgressive | internal/h264/loop_filter.go:599-633 | The thresholds, clipping values and kernel of an edge |
| FrameFilter.KernelGeneral | internal/h264/loop_filter.go:2477-2512 | The same, with an error exactly for a quantiser above 51 |
| FrameFilter.DirProgressive | internal/h264/loop_filter.go:523-576 | One direction of a macroblock the specialised way: the kernel calls in order |
| FrameFilter.DirGeneral | internal/h264/loop_filter.go:1296-1381 | One direction the general way: the same kernel calls in the same order, although it tests the 8x8 transform elsewhere |
| FrameFilter.FilterProgressive | internal/h264/loop_filter.go:344-393 | A whole picture the specialised way makes the sequence of kernel calls its tables define |
| FrameFilter.FilterGeneral | internal/h264/loop_filter.go:279-338 | A whole picture the general way makes the same sequence, without error |
| FrameFilterPlain.NothingLost | internal/h264/loop_filter.go:523-576 | With uniform motion, the comparisons left out and the edges skipped in one direction would have changed no call |
| FrameFilterPlain.FiltersArePlain | internal/h264/loop_filter.go:344-393 | On pictures with uniform motion inside partitions, both filters make the calls of a filter that compares every pair at every edge |
| DeblockStandard.FiltersAreStandard | internal/h264/loop_filter.go:279-393 | On pictures with uniform motion inside partitions, both filters make the calls of section 8.7 over the picture grid: which edges are filtered, the strength of each of the four pairs of 4x4 blocks at an edge, the rounded-up mean of the quantisers of both sides, thresholds, and the first sample in each plane |
| DeblockStandard.CellsOfEdge | internal/h264/loop_filter.go:400-521 | The cells compared at an edge hold the counts and motion of the blocks on its two sides: row i and column 0 against row i and column 3 of the left macroblock, row 0 and column i against row 3 and column i of the upper one |
| DeblockStandard.StrengthsAre | internal/h264/loop_filter.go:1865-1942 | The strengths of an edge are 4 or 3 beside intra macroblocks, and otherwise those of these blocks |
| DeblockStandard.EdgeIsPlain | internal/h264/loop_filter.go:523-576 | Every edge makes the calls the standard asks for it |
| DeblockStandard.TablesAreThese | internal/h264/loop_filter.go:9-112 | The threshold and clipping tables are those of tables 8-16 and 8-17, written as ranges of indices |
| FrameSamples.SamePicture | internal/h264/loop_filter.go:289-317 | The same calls on the same samples lead to the same samples |
| FrameSamples.CallsFit | internal/h264/loop_filter.go:344-393 | Every call of a picture stays inside planes of its size |
| FrameSamples.FilterPictureProgressive | internal/h264/loop_filter.go:344-393 | The planes filtered in place the specialised way hold what those calls lead to |
| FrameSamples.FilterPictureGeneral | internal/h264/loop_filter.go:279-338 | The planes filtered in place the general way hold the same, without error |
| SampleStandard.CallFiltersLines | internal/h264/loop_filter.go:578-633 | A call for an edge filters, in each plane, the sixteen or eight lines of samples across that edge, by column and row, each with the strength of its four or two lines |
| SampleStandard.ClippingIsNearest | internal/h264/dsp.go:297-345 | Clipping takes the nearest value in range |
| DeblockKernels.LoopFilterLuma | internal/h264/dsp.go:297-345 | The sweep over groups of lines filters each line from the samples standing there and changes nothing on refused arguments |
| DeblockKernels.LoopFilterLumaIntra | internal/h264/dsp.go:400-441 | The same for the strong luma filter |
| DeblockKernels.LoopFilterChroma | internal/h264/dsp.go:489-520 | The same for the chroma filter |
| DeblockKernels.LoopFilterChromaIntra | internal/h264/dsp.go:558-578 | The same for the strong chroma filter |
| DeblockKernels.SweepIsLines | internal/h264/dsp.go:297-345 | With rows at least 16 apart, the in-place sweep equals the one-line filters of sections 8.7.2.3 and 8.7.2.4 applied to each original line, and no other sample changes |
| DeblockKernels.LinesDisjoint | internal/h264/dsp.go:297-345 | Two lines of an edge share no sample |
| DeblockKernels.SecondFits | internal/h264/dsp.go:311-334 | The drawn second sample never leaves 0..255, so its conversion to 8 bits never wraps |
| DeblockKernels.WeakFits | internal/h264/dsp.go:558-578 | The three-tap mean is a sample |
| DeblockKernels.StrongFits | internal/h264/dsp.go:400-441 | The means of the strong filter are samples |
| MbaffNeighbours.MacroblockTables.FillDecodeNeighbours | internal/h264/macroblock_mbaff.go:70-162 | For every frame and field mix of pairs, the top, top-left, top-right and both left macroblocks, the row of blocks beside each of the four rows and the line of the top-left one are those of the geometry behind Table 6-4 in section 6.4.12.2, with those not decoded or in another slice unavailable |
| MbaffNeighbours.MacroblockTables.SliceTestSkipped | internal/h264/macroblock_mbaff.go:142-160 | With the macroblock above and to the left in the slice, those above and to the left are in it, so each need not be tested |
| MbaffNeighbours.MacroblockTables.LeftTogether | internal/h264/macroblock_mbaff.go:142-160 | Both left macroblocks are in the slice or neither is, so one test serves both |
| MbaffNeighbours.MacroblockTables.WriteBack | internal/h264/macroblock_state.go:218-230 | Writing back the current macroblock turns the tables into those of the next step of the run |
| MbaffNeighbours.MacroblockTables.StartsRun | internal/h264/macroblock_cache.go:227-247 | Reset tables are those of every run of contiguous slices at its first macroblock |
| NeighbourRing.Geometry.NeighbourIsLatest | internal/h264/macroblock_cache.go:217-223 | In progressive, field and pair order, no slot of the two-row ring is overwritten between a macroblock and the reader beside or below it |
| NeighbourRing.MixedPairsAreAdjacent | internal/h264/macroblock_cache.go:217-223 | The left and upper neighbours in mixed pairs are among those readers |
| NeighbourRing.RowTable.WriteBack | internal/h264/macroblock_cache.go:299-315 | The step of the run that keeps modes or differences: every slot holds the latest macroblock written to it |
| NeighbourRing.RowTable.Clear | internal/h264/macroblock_cache.go:806-849 | The step that clears the differences of a skipped macroblock |
| NeighbourRing.RowTable.KeptWithout | internal/h264/macroblock_cache.go:806-849 | The step of a macroblock that writes nothing |
| NeighbourRing.RowTable.KeptAtStart | internal/h264/macroblock_cache.go:227-247 | New tables are those of a run at its start |
| NeighbourRing.RowTable.LoadTop | internal/h264/macroblock_cache.go:365-391 | At any step of a run, what is loaded above is the bottom row that macroblock wrote |
| NeighbourRing.RowTable.LoadLeft | internal/h264/macroblock_cache.go:717-765 | At any step of a run, what is loaded to the left is the right end of the chosen row that macroblock wrote |
| NeighbourCounts.LeftCountRows | internal/h264/macroblock_cache.go:22-45 | The table of rows beside a left macroblock names the right ends of the rows the geometry chooses, in luma and 4:2:0 chroma |
| NeighbourCounts.CountTable.CodedPlaces | internal/h264/macroblock_cache.go:273-297 | Counts are written back for exactly the macroblocks of the picture, one column beside it being left free |
| NeighbourCounts.CountTable.WriteBack | internal/h264/macroblock_cache.go:273-297 | The entry keeps the counts of all planes of the chroma format, and no other entry changes |
| NeighbourCounts.CountTable.Fill | internal/h264/macroblock_cache.go:402-465 | The cache holds the bottom row above and the right column of the chosen rows to the left, or the value for none |
| NeighbourCounts.CountTable.TopAsWritten | internal/h264/macroblock_cache.go:402-465 | Counts loaded above are those the cache of that macroblock held in its bottom row at write-back |
| NeighbourCounts.CountTable.LeftAsWritten | internal/h264/macroblock_cache.go:402-465 | Counts loaded to the left are those held in the right column at the chosen rows |
| NeighbourCounts.DecodeCounts | internal/h264/macroblock_cache.go:273-465 | Over any run in decode order, in all chroma formats, every macroblock loads what its neighbours wrote last |
| MotionNeighbours.CopyTopMotion | internal/h264/macroblock_cache.go:616-634 | The four blocks loaded above are the bottom row of that macroblock in the tables |
| MotionNeighbours.CopyLeftMotionPair | internal/h264/macroblock_cache.go:636-663 | The two blocks loaded to the left are its right column at the chosen rows |
| MotionNeighbours.CopyBlock | internal/h264/macroblock_cache.go:665-698 | The same for a single block at the left or above right |
| MotionNeighbours.CopyTopLeftMotion | internal/h264/macroblock_cache.go:700-715 | The block above left is the bottom right one, or that of row 1 beside the lower frame macroblock of a pair |
| MotionNeighbours.StoreMotion | internal/h264/macroblock_cache.go:806-893 | Writing back keeps the motion of every earlier macroblock and adds the new one |
| MotionNeighbours.DecodeMotion | internal/h264/macroblock_cache.go:616-893 | Over any run in decode order, every macroblock loads the references and vectors its neighbours wrote last |
| DirectMotion.ColocatedLayout | internal/h264/direct_motion.go:114-181 | For every frame and field mix over uniform co-located motion, the indices of a layout are the places of the co-located blocks in coordinates; an even number of rows always has one |
| DirectPrediction.SpatialWhole | internal/h264/direct_motion.go:346-363 | All blocks have the motion the one co-located block calls for |
| DirectPrediction.SpatialBlocks | internal/h264/direct_motion.go:365-417 | Every direct block is zeroed exactly where its own co-located block calls for it, and the counts rewrite types only where all or none were |
| DirectPrediction.SpatialMismatch | internal/h264/direct_motion.go:419-451 | The same between frame and field macroblocks |
| DirectUniform.PredictSpatial | internal/h264/direct_motion.go:231-293 | Whichever shortcut is taken, every direct block has the motion its own co-located block calls for, and motion is uniform inside the partitions the new types name |
| DirectUniform.SpatialUniform | internal/h264/direct_motion.go:365-451 | The rewriting by counting leaves motion uniform for all co-located motion that is |
| DirectStandard.SpatialIsStandard | internal/h264/direct_motion.go:231-530 | Every block PredictSpatial fills holds, of each list, the derived vector, or zero exactly where colZeroFlag of section 8.4.1.2.2 holds of the tables at its co-located sample and its own reference in that list is 0; the co-located sample is that of section 8.4.1.2.1 and Table 8-6, in coordinates |
| DirectTemporal.TemporalBlocks | internal/h264/direct_motion.go:587-664 | Every direct block has the motion its co-located block maps to, the others stay, and failure means that one does not map |
| DirectTemporal.PredictTemporal | internal/h264/direct_motion.go:36-112 | The same over all branches, and motion is uniform inside the partitions the new types name |
| DirectTemporal.TemporalUniform | internal/h264/direct_motion.go:717-759 | Mapped motion is uniform where the co-located motion is |
| DirectStandard.TemporalIsStandard | internal/h264/direct_motion.go:545-759 | Every block PredictTemporal fills holds reference 0 in list 1 and by component (scale * mvCol + 128) >> 8 and that less mvCol, in 16 bits, where mvCol is the vector at its co-located sample, of list 0 or, where that is unused, list 1, its vertical part halved toward zero or doubled between frame and field; intra samples give zero motion |
| DirectStandard.FailureIsUnmapped | internal/h264/direct_motion.go:545-759 | Failure means that the motion at the co-located sample of some block uses no list, or its reference is not found or has no scale |
| DirectRun.WriteBack | internal/h264/macroblock_cache.go:806-893 | The tables hold the motion of the cells, and every other macroblock keeps its own |
| DirectRun.WriteBackUniform | internal/h264/macroblock_cache.go:806-893 | Uniform motion written back is uniform in the tables; what else was uniform stays so |
| DirectRun.PredictAndStore | internal/h264/direct_motion.go:36-112 | One macroblock of any kind, layout, prediction and write-back together: uniform co-located motion makes uniform motion |
| DirectRun.DecodePicture | internal/h264/direct_motion.go:36-112 | A picture predicted from a uniform one becomes uniform, in whatever order and whatever its tables held before |
| DirectRun.DecodePictures | internal/h264/direct_motion.go:36-112 | So does every picture of a run, each predicted from an earlier one |
| DirectRun.DecodeSecondField | internal/h264/direct_motion.go:36-112 | A field predicted from the other field of its own frame, in the same tables, keeps them uniform |
| DirectNeighbours.MinRefAsUnsigned | internal/h264/direct_motion.go:532-543 | Comparison as unsigned numbers gives the least reference in use |
| DirectNeighbours.MidPred | internal/h264/motion_prediction.go:10-27 | The branches return the median |
| DirectNeighbours.DeriveSpatial | internal/h264/direct_motion.go:295-333 | References and vectors are those section 8.4.1.2.2 derives from the three neighbours, and one list is always used |
| InterSyntax.InfoRoundTrip | internal/h264/cavlc_inter.go:20-42 | A macroblock or sub-macroblock type reads back from its number |
| InterSyntax.RefRoundTrip | internal/h264/cavlc_inter.go:44-56 | A reference index reads back, coded as nothing, as one bit or as a number |
| InterSyntax.MvdRoundTrip | internal/h264/cavlc_inter.go:58-66 | A vector difference reads back |
| InterMotion.MotionRoundTrip | internal/h264/cavlc_inter.go:105-316 | Types, sub-types, references and differences of every P or B macroblock that has a code word read back, and take exactly its bits |
| InterMotion.ReceivedIsSame | internal/h264/cavlc_inter.go:328-613 | What is read agrees with the written macroblock in everything its type carries |
| InterStandard.TypeIs | internal/h264/data.go:75-114 | The macroblock types have the partitions, shapes and list uses of tables 7-13 and 7-14, by number |
| InterStandard.SubTypeIs | internal/h264/data.go:83-130 | So have the sub-macroblock types, of tables 7-17 and 7-18 |
| InterStandard.MotionIsStandard | internal/h264/cavlc_inter.go:105-575 | What is written or read as motion consists of the parts sections 7.3.5.1 and 7.3.5.2 name for the type numbers, in their order, each difference kept at the block of its partition as section 6.4.2 places it |
| InterStandard.MotionWritten | internal/h264/cavlc_inter.go:105-316 | Every motion that can be written is the number of the type, those of four sub-types where there are any, and those parts |
| InterMotionWriter.WriteRefIndex | internal/h264/cavlc_inter.go:44-56 | The code word of a reference index, or a refusal exactly where there is none |
| InterMotionWriter.WriteMvd | internal/h264/cavlc_inter.go:58-66 | The code words of both components, or a refusal |
| InterMotionWriter.WritePMotion | internal/h264/cavlc_inter.go:105-191 | The loops over sub-types, references and differences append the word of the whole P motion, or refuse |
| InterMotionWriter.WriteBMotion | internal/h264/cavlc_inter.go:230-316 | The same for B macroblocks, list by list |
| InterMotionReader.ReadRefIndex | internal/h264/cavlc_inter.go:615-637 | Reads what the parser of a reference index reads, and fails where it fails |
| InterMotionReader.ReadMvd | internal/h264/cavlc_inter.go:639-651 | Reads what the parser of a difference reads, and fails where it fails |
| InterMotionReader.ReadPMotion | internal/h264/cavlc_inter.go:328-420 | Reads what the parser of the whole P motion reads, and fails where it fails |
| InterMotionReader.ReadBMotion | internal/h264/cavlc_inter.go:474-575 | The same for B macroblocks |
| InterResidual.StepsRoundTrip | internal/h264/cavlc_mb.go:471-536 | Any sequence of coded and cleared blocks reads back, with the counts that select tables growing alike on both sides |
| InterPayload.DQuantUpdates | internal/h264/cavlc_mb.go:545-577 | The written difference of quantisers leads the decoder to the next quantiser, around either end of the range |
| InterPayload.UpdateQScale | internal/h264/cavlc_mb.go:545-558 | The quantiser wraps around its range once in either direction, or is refused |
| InterPayload.WriteDQuant | internal/h264/cavlc_mb.go:560-577 | The code word of that difference |
| InterPayload.ResidualContext.PredNonZeroCount | internal/h264/cavlc_luma.go:16-25 | The context of a block is the rounded mean of the counts beside and above it, or the one there is |
| InterPayload.ResidualContext.WriteLuma | internal/h264/cavlc_mb.go:471-497 | The loops over quarters and blocks append the word of the luma steps and leave their counts |
| InterPayload.ResidualContext.WriteChroma | internal/h264/cavlc_mb.go:499-536 | The same for chroma DC and AC, with a refusal for a quantiser out of range |
| InterPayload.ResidualContext.ReadLuma | internal/h264/cavlc_luma.go:40-111 | Coefficients, counts and coded blocks are those the parser of the luma steps reaches |
| InterPayload.ResidualContext.ReadChroma | internal/h264/cavlc_chroma.go:8-59 | The same for chroma DC and AC |
| InterContexts.CountsStandInPlace | internal/h264/data.go:191-204 | The count of block n is kept in the row and column of its plane that section 6.4.3, or 6.4.7 for chroma, gives for n |
| InterContexts.PlacesDiffer | internal/h264/data.go:191-204 | No two counts share a place |
| InterContexts.ContextIsByNeighbours | internal/h264/cavlc_luma.go:16-25 | nC is the rounded-up mean of the counts in the column to the left and in the row above where both are available, the one that is otherwise, and 0 without any; these are the places the counts of neighbouring macroblocks are loaded to |
| InterContexts.PayloadCounts | internal/h264/cavlc_mb.go:471-536 | After a payload every place holds the number of coefficients of its block where that is coded, and 0 elsewhere |
| InterContexts.BlocksInOrder | internal/h264/cavlc_mb.go:471-536 | The coded blocks come in the order luma, chroma DC, chroma AC of Cb and of Cr |
| InterContexts.CoefficientsStandInPlace | internal/h264/cavlc_mb.go:471-536 | Coefficients lie block after block in planes of 256, and chroma DC coefficients are the first of their blocks |
| InterContexts.FactorsByPlane | internal/h264/cavlc_chroma.go:8-59 | Each plane has the factors of its own inter matrix and quantiser |
| InterCodedBits.CountsGathered | internal/h264/cavlc_luma.go:40-111 | A bit is set in what luma decoding returns if and only if a coded block has it in its count, shifted by its quarter |
| InterCodedBits.PatternAndCounts | internal/h264/cavlc_mb.go:387-435 | The value kept for a macroblock is the pattern below bit 12 and that from there on |
| InterCodedBits.PatternsOfFormat | internal/h264/cavlc_mb.go:348-385 | Patterns have a chroma part in 4:2:0 and 4:2:2, and only there |
| InterCodedBits.QuantisersTaken | internal/h264/cavlc_mb.go:387-435 | A payload is refused for a quantiser above 51 + 6 * 6, and otherwise read exactly where its blocks are |
| InterCodedBits.OthersAreZero | internal/h264/cavlc_mb.go:387-435 | Coefficients that no coded block brings are zero, whatever the decoder held before |
| InterMacroblock.WriteCbp | internal/h264/cavlc_mb.go:348-385 | The code word of a coded block pattern, or a refusal |
| InterMacroblock.ReadCbp | internal/h264/cavlc_mb.go:318-346 | Reads what the parser of a pattern reads, and fails where it fails |
| InterMacroblock.CbpCodes | internal/h264/cavlc_mb.go:348-385 | Exactly the patterns of four luma quarters and no, DC or all chroma blocks have a code |
| InterMacroblock.WritePayload | internal/h264/cavlc_mb.go:437-469 | Quantiser difference, luma and chroma in order, or a refusal |
| InterMacroblock.ReadPayload | internal/h264/cavlc_mb.go:387-435 | Reads what the parser of the payload reads, and fails where it fails |
| InterMacroblock.WriteMacroblock | internal/h264/cavlc_inter.go:82-228 | A P or B macroblock is written whole or refused |
| InterMacroblock.ReadMacroblock | internal/h264/cavlc_inter.go:318-613 | A P or B macroblock is read as its parser reads it, and fails where it fails |
| InterMacroblock.MacroblockRoundTrip | internal/h264/cavlc_inter.go:82-613 | Whatever the bounded P or B writer writes, the decoder reads back over a context with the same counts: types, carried references and differences, pattern, quantiser, counts, pattern table value and coefficients, taking exactly the written bits |
| InterCoefficients.CodedArrives | internal/h264/cavlc.go:1250-1263 | Every coded coefficient of that macroblock arrives dequantised |
| InterCoefficients.OthersStay | internal/h264/cavlc.go:1250-1263 | Every other coefficient stays as it was |

## Left out

Stated for less than the code could be asked for:

- BitIo.BitWriter.WriteZeroAlign: only from positions from which it ends (Findings, 1), because a contract of a method that does not return says nothing; BitIo.ZeroAlignEnds is the exact condition.
- BitIo.BitWriter.WriteRbspTrailingBits: likewise; BitIo.TrailingBitsEnd is the exact condition.
- DirectRun.DecodePictures: the tables of the pictures are distinct objects; a second field that shares the tables of the first is DirectRun.DecodeSecondField.
- DirectRun.DecodeSecondField: for tables of field macroblocks only, so rows of the second field are marked as field macroblocks before they are decoded.
- NeighbourCounts.CountTable.Fill: the left column is stated for left macroblocks that are found together, as MbaffNeighbours.MacroblockTables.LeftTogether shows they are; with only one of them a 4:2:2 chroma row may keep a count from before.
- NeighbourCounts.DecodeCounts: each macroblock names the places of its neighbours; that these are the right ones in mixed pairs is MbaffNeighbours.MacroblockTables.FillDecodeNeighbours.
- MotionNeighbours.DecodeMotion: likewise, and references and vectors are loaded as stored, before they are scaled between frame and field macroblocks.
- FrameFilter.FilterGeneral: pictures without interlaced macroblocks, with quantisers of at most 51 and 4:2:0 chroma, the ones both filters accept; validation of slice parameters before the loop is not modelled.
- FrameFilterPlain.FiltersArePlain: also takes it that counts are zero where no luma quarter is coded, as they are after decoding.
- FrameSamples.FilterPictureProgressive: the calls of a picture are computed first and then carried out, which is the same because no call depends on samples; the same holds for FrameSamples.FilterPictureGeneral.
- DeblockKernels.SweepIsLines: rows at least 16 samples apart; for closer rows lines overlap and only the step-by-step contract of the kernels holds.
- DeblockStandard.FiltersAreStandard: takes it that unused references have zero vectors, as they are stored, and compares as many lists as the slice of the current macroblock has.
- CabacResidualBins.LevelsAreRead: where a level has an escape of more than 22 ones, only the bins up to it are named; the state tables of levels agree with the counts of 4:2:0 chroma DC blocks for their at most four levels.
- CavlcStandard.TokensWritten: names three tokens of each column of Table 9-5 and CavlcStandard.FixedLength all of the last one; the other code words are those of the decoder's tables, of which CavlcPrefix.Owned states that no two overlap.
- DirectStandard.TemporalIsStandard: over co-located tables with uniform motion, without which the shortcuts by type would not be exact; the same holds for DirectStandard.SpatialIsStandard.
- DirectTemporal.PredictTemporal: how a co-located reference maps to a list 0 reference and the scale of that reference are parameters, because they rest on reference lists that are not part of this model.
- CavlcResidualWriter.WriteResidual: a refusal promises nothing about the bits already appended; round trips are stated for what is written successfully. The same holds for the other writers of residuals and macroblocks.
- InterMacroblock.ReadMacroblock: payloads are read as with 4:2:0 chroma and 4x4 transforms, the only ones the writer writes; the hook for direct sub-macroblocks of B macroblocks is not modelled.

Modelled in another shape:

- Pointer arithmetic is indexing into arrays and sequences, and slices that overlap are distinct arrays.
- The motion cache of direct prediction is passed in and returned as a sequence of 16 cells, and macroblock types are records of flags instead of bit sets; what the bits spell is not modelled.
- Local arrays of fixed length inside functions are sequences, and long functions are split into methods along their loops.
- The loop that collects the coefficients of a block, repeated in each residual writer, is written once.
- Initial values of the 1024 context variables, quantisation factors and chroma quantiser tables are parameters.
- Reference pictures in the loop filter are the numbers a function gives to references; the function is a parameter.

Not modelled:

- Assembly kernels and the choice between them and the scalar code.
- Macroblock-level CABAC syntax beyond intra modes, vector differences and residuals, and the CABAC residual scan of 8x8 blocks, which is not inlined.
- Intra macroblocks of the CAVLC writer and reader, 8x8 transforms, 4:2:2 and 4:4:4 payloads and lossless macroblocks.
- In the loop filter: field and mixed pictures, 4:2:2 and 4:4:4 chroma, high bit depth, and the recounting of 8x8 blocks in CAVLC pictures.
- Motion vector prediction, intra prediction, inverse transforms, interpolation and weighted prediction.
- Parameter sets, slice headers, reference lists, output order, length-prefixed packets, side data and the public interface.
