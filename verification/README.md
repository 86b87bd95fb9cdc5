# Verified models of FFmpeg's searches, codes, queues and servers

This project models, in Dafny, eight pieces of logic of FFmpeg and proves what each is for:

- **4XM video** (`FourXmHuffman.dfy`, `FourXmBlocks.dfy`, `FourXmPictures.dfy`): the Huffman table, from the bytes of
  its weights, is an optimal prefix code exactly when the 512 nodes of its arrays suffice, and its words never
  overflow; the recursive block decoder tiles every picture, reads inside the last one, and shows what an encoder's
  description of the picture says, for every stream.
- **AAC encoder** (`AacAnmr.dfy`, `AacSections.dfy`, `AacCheapest.dfy`, `AacScalefactors.dfy`, `AacSpectral.dfy`,
  `AacChannel.dfy`, `AacQuantiser.dfy`, `AacRate.dfy`, `AacEncoder.dfy`): the Viterbi search finds a cheapest
  scalefactor sequence; the section trellis always finds sections, cheapest ones while length fields stay single, and
  what it charges is compared, bit by bit, with what is written; the two-loop search ends, at its target or saturated
  when it comes to rest; and from that search to the decoder a channel is one theorem. Distortions are arbitrary
  functions, and Huffman tables arbitrary prefix codes; quantisation is real arithmetic.
- **ffplay** (`PlayerSync.dfy`, `PlayerPackets.dfy`): display, decoder and reader threads as a step system, one atomic
  step a locked section, in any interleaving, with the law of when a picture is due; and the packet queue as a linked
  list.
- **ffserver** (`FeedRing.dfy`, `FeedReceiver.dfy`, `RtspInterleave.dfy`, `ServerStreams.dfy`,
  `ServerConnections.dfy`): the feed file as a ring of pages, the chunked stream that fills it, packets interleaved on
  an RTSP connection, the streams of the configuration, and the accounts of connections, bandwidth and feeds under the
  main loop, each over any run.
- **ffmpeg** (`VideoSync.dfy`): the controller that drops and duplicates frames, with its drift bound.
- **C64 encoder** (`CharsetRenderer.dfy`): the character loop that steps its own index back, and the two-bit code that
  is decodable because it does.

`PrefixCode.dfy` holds what the codes share; `Wrappers.dfy` an option type. State that the program updates in place is
a class or an array, and each method states its whole new state through functions that the lemmas are about. Sockets,
clocks, files and codecs are parameters: bytes accepted, times read, bits counted. `dafny verify dfyconfig.toml`
checks the project.

Findings about the code, each a lemma with its exact condition beside it:

- 257 non-zero weights leave two Huffman roots (`PrefixFreeIff`); the overflow asked about at 4xm.c:597 cannot happen
  (`LengthAtMost22`); in pairs of pixels the even one carries into the odd (`OffsetSeparateIff`).
- The section trellis charges the windows of a group at their own scalefactor indices, and the writer codes them at
  the first window's (`RateRightIff`, `TwoWindowsMischarged`: bands at 140 and 141, charged at 28 and written at 32).
  The trellis is used after the two-loop search alone, which does not copy the indices inside groups as the Viterbi
  search does (`CopyInGroups`, `GroupRate`). It is also one length field short at sections of 14 bands, and counts
  nothing for zero bands (`RateIsWritten`).
- The section trellis finds sections of fewest bits for every group of n bands exactly when a length field counts more
  than n (`CheapestIff`): the second field of a section is charged one band early (`Missed`).
- A 4XM block moved from outside the picture leaves its offset in the stream, so the next block reads it
  (`FourXmPictures.PlanRead`).
- Passthrough repeats output times (`PassthroughRepeats`).
- A feeder's chunk must end with a page: a chunk that ends inside one loses what has come of it, and in a data page
  ends the feeding (`KeptThroughoutIff`, `StraddlingDrops`, `HalfHeaderLost`). A feeder that does not send chunks is
  dropped at once (`FeedStore.ReceiveData`). A size that is negative as an int is not refused, and the reading after
  it is not bounded by the page (`BoundedIff`, `SizeLine`).
- A seek in ffplay relies on its marker: without memory for it the old pictures stay in the ring (`LostMarker`).
- A packet sent in part stands in the memory of its session: when that session ends, the RTSP connection goes on
  sending from freed memory (`WholeIff`, `ClosingSpoils`). RTCP packets are never sent on odd channels, though the
  comment at ffserver.c:2521 says so (`ControlPacketsUnmarked`).
- The main loop keeps the next connection in hand while one is handled: a TEARDOWN of that one frees it
  (`ServedThrough`, `SavedConnectionFreed`).

## Model

| member | source | states |
|---|---|---|
| FourXmHuffman.HuffmanOptimal | FFmpeg/libavcodec/4xm.c:564-602 | with at most 256 non-zero weights, no prefix code for the weighted symbols spends fewer bits (sum of weight times length) than the table built |
| FourXmHuffman.PrefixFreeIff | FFmpeg/libavcodec/4xm.c:564-602 | the words built are a prefix code exactly when at most 256 of the 257 weights are non-zero: the loop has room for 255 merges |
| FourXmHuffman.KraftExact | FFmpeg/libavcodec/4xm.c:564-602 | with at most 256 non-zero weights the Kraft sum over the coded symbols is exactly 1: the merges leave one full binary tree |
| FourXmHuffman.LengthAtMost22 | FFmpeg/libavcodec/4xm.c:594-598 | for every input no word is longer than 22 bits (grandparents weigh at least a Fibonacci number), so the "vlc length overflow" message cannot be reached |
| FourXmHuffman.HuffmanRoundTrip | FFmpeg/libavcodec/4xm.c:589-606 | with 2 to 256 non-zero weights, decoding any run of coded symbols gives those symbols back |
| FourXmHuffman.GrowSound | FFmpeg/libavcodec/4xm.c:564-587 | every merge conserves the total weight and removes one root; what remains is one root, or as many as there was no node left for |
| FourXmHuffman.BuiltSound | FFmpeg/libavcodec/4xm.c:560-587 | the finished forest carries, under every root, the weight and a Kraft sum of 1, and the total stays below the 256*256 sentinel |
| FourXmHuffman.MergePath | FFmpeg/libavcodec/4xm.c:579-586 | a merge puts one bit in front of the words under its two nodes and changes no other word |
| FourXmHuffman.MergeGrown | FFmpeg/libavcodec/4xm.c:579-586 | a merge keeps node frequencies growing like Fibonacci numbers with depth |
| FourXmHuffman.GrowCost | FFmpeg/libavcodec/4xm.c:564-587 | whatever admissible lengths the roots are given, the finished words cost no more than the present words and those lengths |
| FourXmHuffman.TwoSmallest | FFmpeg/libavcodec/4xm.c:565-578 | the scan finds the lightest node, first among equals, and the lightest other one, or the sentinel |
| FourXmHuffman.MergeSmallest | FFmpeg/libavcodec/4xm.c:579-586 | one merge in the three arrays, in place, equal to the merge of the forest they hold; none when a second root is missing |
| FourXmHuffman.BuildForest | FFmpeg/libavcodec/4xm.c:564-587 | the arrays end as the finished forest of the weights |
| FourXmHuffman.ReadCode | FFmpeg/libavcodec/4xm.c:590-598 | the walk from a symbol up collects its word, as value and length, and does not pass 31 bits |
| FourXmHuffman.BuildTables | FFmpeg/libavcodec/4xm.c:564-602 | from the 257 weights: the tables hold value and length of every symbol of the code the lemmas above are about, and the overflow message was not reached |
| FourXmHuffman.WeightsBack | FFmpeg/libavcodec/4xm.c:544-562 | weights written as ranges of symbols are read back, later ranges over earlier ones, and so is the word-aligned place where the data goes on |
| FourXmHuffman.AnyWeights | FFmpeg/libavcodec/4xm.c:544-562 | any 256 byte weights can be sent: one range of all symbols is read back as exactly these |
| FourXmHuffman.ReadWeights | FFmpeg/libavcodec/4xm.c:544-562 | the loop over the ranges, byte by byte; a stream that ends inside them is told from one that does not |
| FourXmHuffman.ReadHuffmanTables | FFmpeg/libavcodec/4xm.c:533-612 | from the bytes of the stream: the tables are those of the weights sent, and the place after them is returned |
| FourXmHuffman.ReadTables | FFmpeg/libavcodec/4xm.c:589-602 | the second loop writes, for each of the 257 symbols, the length and value of its word |
| PrefixCode.KraftInequality | FFmpeg/libavcodec/4xm.c:564-602 | the lengths of any prefix-free words satisfy the Kraft inequality: the lower bound the optimality of the table is measured against |
| PrefixCode.MergeBound | FFmpeg/libavcodec/4xm.c:579-586 | for any admissible lengths there are some, no dearer, in which the two lightest items are siblings; joining them saves exactly their weight |
| PrefixCode.DecodeBack | FFmpeg/libavcodec/4xm.c:604-606 | reading symbols off a prefix code undoes writing them |
| FourXmBlocks.TableComplete | FFmpeg/libavcodec/4xm.c:41-70 | each of the eight tables is a complete prefix code: any five bits hold exactly one block type |
| FourXmBlocks.CodeFits | FFmpeg/libavcodec/4xm.c:321-328 | for every stream no split reaches 1x1, type 6 only meets two-pixel blocks, and a type takes 1 to 5 bits |
| FourXmBlocks.LeavesPartition | FFmpeg/libavcodec/4xm.c:337-344 | whatever the stream, the unsplit blocks tile their 8x8 block: one over every pixel of it, none elsewhere |
| FourXmBlocks.LeavesSound | FFmpeg/libavcodec/4xm.c:325-357 | every accepted vector and every block copied in place reads inside the last picture; below version 2 a block writes its pixels unless its vector was rejected |
| FourXmBlocks.RowPartition | FFmpeg/libavcodec/4xm.c:409-412 | the unsplit blocks of one row of 8x8 blocks cover each of its pixels once and nothing else |
| FourXmBlocks.FramePartition | FFmpeg/libavcodec/4xm.c:409-415 | with sides that are multiples of 8, exactly one unsplit block of a frame is over every pixel |
| FourXmBlocks.FrameSound | FFmpeg/libavcodec/4xm.c:409-415 | all unsplit blocks of a frame are sound in the sense of LeavesSound |
| FourXmBlocks.FramePixel | FFmpeg/libavcodec/4xm.c:409-415 | after a frame a pixel holds what the one block over it gives it; no other block touches it |
| FourXmBlocks.PaintCovered | FFmpeg/libavcodec/4xm.c:321-357 | painting many blocks leaves a pixel covered once with what that block gives it |
| FourXmBlocks.PairSum | FFmpeg/libavcodec/4xm.c:264-277 | adding a pair of pixels in one 32-bit word adds each, and the carry of the low one into the high one |
| FourXmBlocks.OffsetSeparateIff | FFmpeg/libavcodec/4xm.c:264-277 | the offset is added to the odd pixel alone exactly when the even pixel sum fits 16 bits |
| FourXmBlocks.Decoder.MovePair | FFmpeg/libavcodec/4xm.c:264-277 | two pixels in place: the moved values of the source pair |
| FourXmBlocks.Decoder.MoveRow | FFmpeg/libavcodec/4xm.c:284-316 | one row in place, by single pixel or by pairs, and nothing else |
| FourXmBlocks.Decoder.MoveBlock | FFmpeg/libavcodec/4xm.c:280-319 | a block moved or, with scale 0, filled, and nothing else |
| FourXmBlocks.Decoder.DecodeLeaf | FFmpeg/libavcodec/4xm.c:330-363 | an unsplit block: picture and stream positions change as its block type says |
| FourXmBlocks.Decoder.DecodeBlock | FFmpeg/libavcodec/4xm.c:321-365 | the recursion ends and paints exactly the unsplit blocks, in order |
| FourXmBlocks.Decoder.DecodeRow | FFmpeg/libavcodec/4xm.c:410-412 | a row of blocks, painted in order |
| FourXmBlocks.Decoder.DecodeFrame | FFmpeg/libavcodec/4xm.c:409-415 | the whole picture after a frame is the old one with the unsplit blocks painted in order |
| FourXmPictures.TypeRead | FFmpeg/libavcodec/4xm.c:321-328 | a block type is read as what it is: its word, from a listing of the types each shape may have, stands in the stream exactly when the decoder's table lookup gives that type, and is as long |
| FourXmPictures.PlanRead | FFmpeg/libavcodec/4xm.c:321-365 | a block described by an encoder (split, moved by a vector, moved and changed by an offset, left in place, one colour or two) and written to the three streams is what the decoder comes to there, and it stops right behind it in each |
| FourXmPictures.BlockShows | FFmpeg/libavcodec/4xm.c:321-365 | such a block is decoded into what its description says, pixel by pixel: the pixel of the last picture as far away as the vector, the offset added with the carry from the even to the odd column, the colour, or the first colour above or to the left and the second below or to the right |
| FourXmPictures.FrameShows | FFmpeg/libavcodec/4xm.c:408-415 | so is a picture, row by row of its 8x8 blocks |
| FourXmPictures.PixelShows | FFmpeg/libavcodec/4xm.c:408-415 | so is every pixel of a frame from the start of its streams |
| FourXmPictures.EveryFrame | FFmpeg/libavcodec/4xm.c:408-415 | whatever the streams hold, there is a description of the picture that stands in them, and every pixel is what it says: a frame shows nothing but what some encoder meant |
| AacAnmr.BestIsLeast | FFmpeg/libavcodec/aaccoder.c:637-662 | no sequence of indices ending in a state is cheaper than the recurrence says |
| AacAnmr.BestAttained | FFmpeg/libavcodec/aaccoder.c:637-662 | and wherever the recurrence is finite some sequence attains it |
| AacAnmr.FeasibleIff | FFmpeg/libavcodec/aaccoder.c:634-662 | the recurrence is finite somewhere exactly when the bands' index ranges can be chained |
| AacAnmr.ChainCost | FFmpeg/libavcodec/aaccoder.c:677-681 | steps back that each attain the best cost add up to it |
| AacAnmr.WindowFits | FFmpeg/libavcodec/aaccoder.c:571-586 | the window of indices stays inside its old limits and is cut to 60 steps exactly when it was wider |
| AacAnmr.WindowNearest | FFmpeg/libavcodec/aaccoder.c:576-586 | when it is cut, no window of 60 steps inside the limits has its middle nearer to the energy |
| AacAnmr.CostIsWritten | FFmpeg/libavcodec/aaccoder.c:641-660 | the cost of a sequence of indices is the sum of its distortions and the length of the differential code that the writer spends on its scalefactors |
| AacAnmr.FillState | FFmpeg/libavcodec/aaccoder.c:647-655 | the inner loop gives one state the least cost over the previous states, and a step back that attains it |
| AacAnmr.FillRow | FFmpeg/libavcodec/aaccoder.c:637-662 | one stage of the trellis equals the recurrence in every state, in range for the scalefactor table |
| AacAnmr.Backtrack | FFmpeg/libavcodec/aaccoder.c:677-681 | the walk back gives a sequence of indices whose cost is the recurrence's |
| AacAnmr.Search | FFmpeg/libavcodec/aaccoder.c:589-681 | a path is found exactly when one exists, and it is a cheapest of all index sequences, for every distortion function |
| AacAnmr.SearchForQuantizers | FFmpeg/libavcodec/aaccoder.c:571-681 | the scalefactors written are those of a cheapest sequence, differ by at most 60, and no others change |
| AacSections.CostIsCharge | FFmpeg/libavcodec/aaccoder.c:431-481 | the cost of a trellis cell is exactly what its way back is charged |
| AacSections.ChargeIsWritten | FFmpeg/libavcodec/aaccoder.c:431-481 | for any assignment in which zero bands go with the band before: section headers written, and data of the coded bands, are the charge, plus one length field for every section of exactly 62 (long) or 14 (short) bands, plus the length fields that zero bands add |
| AacSections.TrellisRate | FFmpeg/libavcodec/aaccoder.c:424-515 | the same of the final cost and the sections then written |
| AacSections.TraceJoins | FFmpeg/libavcodec/aaccoder.c:434-439 | on the way back a zero band has the codebook of the band before it |
| AacSections.LongRunsCounted | FFmpeg/libavcodec/aaccoder.c:510-514 | what the step-by-step counter of long runs adds up to is the number of sections of exactly twice the escape length |
| AacSections.SectionsOfExpand | FFmpeg/libavcodec/aaccoder.c:489-515 | every assignment has sections, neighbours in different codebooks, and they expand to it |
| AacSections.LongRunsBound | FFmpeg/libavcodec/aaccoder.c:40-55 | there is no such section with fewer bands: with at most 51 bands in long windows only the case of 14 short bands arises |
| AacSections.RunIsLastRun | FFmpeg/libavcodec/aaccoder.c:438-472 | a cell's run is the length of the last section of its way back, at least 1 |
| AacSections.TraceRespects | FFmpeg/libavcodec/aaccoder.c:443-450 | the way back gives no coded band a codebook below the one it needs |
| AacSections.CheapIsGood | FFmpeg/libavcodec/aaccoder.c:446-473 | a cell cheaper than the 61450 sentinel never leads back to one |
| AacSections.BelowSentinel | FFmpeg/libavcodec/aaccoder.c:446-498 | when the final cost, or a bound computed beforehand, is below the sentinel, the backtrack succeeds and respects every band; AacRate.AlwaysSectioned meets it for every real group |
| AacSections.EscapeBoundHolds | FFmpeg/libavcodec/aaccoder.c:451-479 | the bound: every band in codebook 11 with a length field each |
| AacSections.BestIsBelow | FFmpeg/libavcodec/aaccoder.c:446-498 | with the bound below the sentinel so is the final cost |
| AacSections.SectionBack | FFmpeg/libavcodec/aaccoder.c:491-498 | from a cell with a run, that many cells back stay in its codebook, and the section before has another |
| AacSections.HeaderIsLength | FFmpeg/libavcodec/aaccoder.c:499-515 | the length of the written sections is the header bits of the assignment they expand to |
| AacSections.RunBack | FFmpeg/libavcodec/aaccoder.c:510-514 | an escaped run length is read back, for every run up to the end position of 8 bits |
| AacSections.FillCell | FFmpeg/libavcodec/aaccoder.c:460-477 | one cell of a coded band equals the recurrence |
| AacSections.FillZero | FFmpeg/libavcodec/aaccoder.c:434-439 | a zero band carries every cell on |
| AacSections.FillSentinels | FFmpeg/libavcodec/aaccoder.c:446-450 | codebooks too small for a band get the sentinel |
| AacSections.FillCoded | FFmpeg/libavcodec/aaccoder.c:440-478 | a coded band's column equals the recurrence, with the cheapest codebook, first among equals |
| AacSections.FillColumn | FFmpeg/libavcodec/aaccoder.c:431-481 | one column of the trellis, all earlier ones kept |
| AacSections.FindCheapest | FFmpeg/libavcodec/aaccoder.c:485-488 | the cheapest codebook after the last band, first among equals |
| AacSections.Backtrack | FFmpeg/libavcodec/aaccoder.c:489-498 | the walk back ends, fails exactly when it meets a sentinel, and else gives sections of at least one band, neighbours in different codebooks, that partition the bands |
| AacSections.WriteSection | FFmpeg/libavcodec/aaccoder.c:502-514 | one section: its bits, its codebook in every band type, and the zero flags set exactly for codebook 0 |
| AacSections.WriteBandInfo | FFmpeg/libavcodec/aaccoder.c:499-515 | all sections in order; other bands unchanged |
| AacSections.EncodeBandInfo | FFmpeg/libavcodec/aaccoder.c:410-515 | the whole: what is written and recorded is the cheapest cell's way back, and nothing changes when it fails |
| AacCheapest.StayAtMost | FFmpeg/libavcodec/aaccoder.c:455-473 | a coded band's cell costs at most staying in the section of the same codebook, with a length field where the run outgrows one |
| AacCheapest.OpenAtMost | FFmpeg/libavcodec/aaccoder.c:455-473 | and at most opening a section after any codebook that the last coded band may have, once a band has been coded |
| AacCheapest.ColumnInView | FFmpeg/libavcodec/aaccoder.c:431-481 | until a band is coded every codebook costs the same, and then the cheapest is the least of all that the last coded band may have |
| AacCheapest.CostNearlyBest | FFmpeg/libavcodec/aaccoder.c:424-488 | the final cost is at most what any codebooks that carry the bands take, with a length field more for each of their sections |
| AacCheapest.ShortBest | FFmpeg/libavcodec/aaccoder.c:424-488 | with fewer bands than a length field counts, a cell costs at most what any codebooks ending in it take |
| AacCheapest.CheapestOfAll | FFmpeg/libavcodec/aaccoder.c:424-498 | and then no codebooks that carry the bands take fewer bits, section headers and data together, than those the trellis chooses: wherever zero bands are put |
| AacCheapest.ChosenBits | FFmpeg/libavcodec/aaccoder.c:424-498 | the bits of the codebooks chosen are the final cost and the length fields it does not count |
| AacCheapest.NearlyCheapest | FFmpeg/libavcodec/aaccoder.c:424-498 | with any number of bands they are at most those of any other codebooks, zero bands with the band before, and a length field for each of their sections, and the fields the cost does not count |
| AacCheapest.CheapestIff | FFmpeg/libavcodec/aaccoder.c:424-498 | no codebooks for a group of n bands ever take fewer bits than those the trellis chooses, for all n up to the length of its tables, exactly when n is below the escape length: 31 in long windows, 7 in short ones |
| AacCheapest.Missed | FFmpeg/libavcodec/aaccoder.c:461-472 | with any more bands it may miss: the second length field of a section is charged one band early, so a group ends in one section in codebook 11 that takes two bits more (short windows; four in long ones) than two sections |
| AacRate.AlwaysSectioned | FFmpeg/libavcodec/aaccoder.c:424-498 | for every group of at most 1024 values, whatever its values, zero bands and needed codebooks, the cost stays below the 61450 sentinel, the backtrack never meets one and respects every coded band |
| AacRate.RateIsWritten | FFmpeg/libavcodec/aaccoder.c:424-515 | section bits and data bits written, for the values that were charged for, are the final cost plus exactly three things: a length field for every section of 62 or 14 bands, the length fields zero bands add, and the data of zero bands in the codebooks they are swept into |
| AacRate.ZeroDataIff | FFmpeg/libavcodec/aaccoder.c:434-439 | the last of these is nothing exactly when every zero band got codebook 0 |
| AacRate.TotalIsWritten | FFmpeg/libavcodec/aaccoder.c:455-459 | what the writer spends on the data of a group is the rate of its values in their codebooks |
| AacRate.CheapestWritten | FFmpeg/libavcodec/aaccoder.c:424-515 | in a group without zero bands and with fewer bands than a length field counts, the writer would spend no fewer bits on other sections that carry the values, and the values in them, than on those chosen |
| AacRate.LeastIff | FFmpeg/libavcodec/aaccoder.c:270-292 | the codebook the search finds for a band is the first whose table carries every value that will be written of it, in whatever window of the group |
| AacRate.RateRightIff | FFmpeg/libavcodec/aaccoder.c:455-459 | in a group without zero bands, charge and bits written agree for every signal, that is, whatever coefficients are quantised, long sections aside, exactly when all windows have the scalefactor indices of the first: the trellis charges window w at its own indices, the writer codes all at the first window's; for any step that falls as the index rises |
| AacRate.Mischarged | FFmpeg/libavcodec/aaccoder.c:455-459 | for any window and band whose index differs there are coefficients that are charged otherwise than they are written: one size all over that band, with values of at least 32 at one index and of 16 to 31 at the other |
| AacRate.TwoWindowsMischarged | FFmpeg/libavcodec/aaccoder.c:455-459 | with the program's own steps: two windows of one band of four coefficients, at indices 140 and 141; the second is charged at values of 28 and written at values of 32 |
| AacQuantiser.MagnitudeFalls | FFmpeg/libavcodec/aaccoder.c:69-79 | a value grows with its coefficient and with the factor it is quantised by |
| AacQuantiser.QuantisedSize | FFmpeg/libavcodec/aaccoder.c:69-79 | a value has the magnitude of its coefficient's size and the coefficient's sign |
| AacQuantiser.IsStepFalls | FFmpeg/libavcodec/aaccoder.c:282-285 | the program's factor, the power of 3/4 of a power of the fourth root of 2, falls strictly as the scalefactor index rises |
| AacQuantiser.BetweenIs | FFmpeg/libavcodec/aaccoder.c:69-79 | for any two factors there is a size of coefficient with a value of at least 32 at the larger one and of 16 to 31 at the other |
| AacQuantiser.AtLoud | FFmpeg/libavcodec/aaccoder.c:282-285 | a size that just gives 32 at an index gives 28 at the next |
| AacSections.SectionsBack | FFmpeg/libavcodec/aacdec.c:719-755 | the decoder reads back the codebook of every band from the sections written, and leaves the rest of the stream (section 4.6.3 of ISO/IEC 14496-3) |
| AacSections.BandInfoRoundTrip | FFmpeg/libavcodec/aacdec.c:719-755 | the same, from the trellis to the decoder |
| AacScalefactors.StepSpread | FFmpeg/libavcodec/aaccoder.c:799-807 | a saturating step of at most 32 keeps any two scalefactors within 60 |
| AacScalefactors.StepMoves | FFmpeg/libavcodec/aaccoder.c:799-807 | a step goes up by exactly q below 218 and down by exactly q above 60 - q, and else not at all |
| AacScalefactors.CountBits | FFmpeg/libavcodec/aaccoder.c:760-798 | one count: the total bits, the distortions less bits and the least scalefactor of exactly the bands not zero and below 218 |
| AacScalefactors.Step | FFmpeg/libavcodec/aaccoder.c:799-807 | all scalefactors stepped in place, still within 60 of each other |
| AacScalefactors.FitBits | FFmpeg/libavcodec/aaccoder.c:759-811 | the inner loop ends for every bit count and target: each count is followed by a step of all bands, coarser exactly when it is over the target, by halving steps; the first single step after a count within two percent of the target, or with the first scalefactor saturated, is the last; and it gives the least scalefactor and last distortions of the bands counted |
| AacScalefactors.CorrectBand | FFmpeg/libavcodec/aaccoder.c:817-828 | one band: lowered by 1 or 2 when too distorted, then cut to the window; its codebook is that of the new value |
| AacScalefactors.CorrectedInRange | FFmpeg/libavcodec/aaccoder.c:814-825 | the corrected value lies in the window of 60 and at most 219 |
| AacScalefactors.Correct | FFmpeg/libavcodec/aaccoder.c:813-830 | all bands corrected, within 60 of each other, and the flag set exactly when one changed |
| AacScalefactors.CorrectionRests | FFmpeg/libavcodec/aaccoder.c:814-828 | a correction leaves a scalefactor alone exactly when it is in the window and its band is within its limit, or cannot go lower |
| AacScalefactors.CorrectionLowers | FFmpeg/libavcodec/aaccoder.c:817-825 | and lowers, inside the window, exactly the bands over their limit: by one where the band then has a codebook, else by two |
| AacScalefactors.SearchRests | FFmpeg/libavcodec/aaccoder.c:813-832 | a search that ends before its tenth round ends with a count within two percent of the target, or the first scalefactor saturated, one step before the result; and with every band within its limit or at the bottom of the window |
| AacScalefactors.TwoLoopSearch | FFmpeg/libavcodec/aaccoder.c:754-832 | the search terminates for every signal and target; each round is an inner loop for this target, from where the last one left, and a correction of its result; there are ten rounds, or one that changes nothing is the last; the result is that of the last, in 60..219 and within a spread of 60 |
| AacScalefactors.SpreadCodable | FFmpeg/libavcodec/aacenc.c:381-391 | bytes within 60 of each other can be coded whatever bands are left out |
| AacScalefactors.CountIsWritten | FFmpeg/libavcodec/aacenc.c:375-392 | when every band with data takes part, the count of the search is what the writer spends on data and differences, but for the first difference, which it leaves out |
| AacScalefactors.EncodeScaleFactors | FFmpeg/libavcodec/aacenc.c:375-392 | every difference coded is in 0..120, so the error message is not reached, and the bits are those of the differences |
| AacScalefactors.SearchedRoundTrip | FFmpeg/libavcodec/aacenc.c:375-392 | the differences decode to the same scalefactors |
| AacScalefactors.DifferencesBack | FFmpeg/libavcodec/aacdec.c:807-817 | the differential decoder gives back any codable scalefactors (section 4.6.2 of ISO/IEC 14496-3) |
| AacSpectral.IndexBack | FFmpeg/libavcodec/aaccoder.c:144-148 | the mixed-radix index gives back its digits |
| AacSpectral.IndexBound | FFmpeg/libavcodec/aaccoder.c:144-150 | and stays inside the codebook |
| AacSpectral.EscapeBack | FFmpeg/libavcodec/aaccoder.c:187-196 | an escape word of a magnitude in 16..8191 is read back |
| AacSpectral.ExtraIsWritten | FFmpeg/libavcodec/aaccoder.c:151-169 | the sign and escape bits charged are those written |
| AacSpectral.ChargeIsWritten | FFmpeg/libavcodec/aaccoder.c:144-198 | the bits charged for a vector are the bits written for it |
| AacSpectral.BandChargeIsWritten | FFmpeg/libavcodec/aaccoder.c:102-204 | the bits charged for a band are the bits written for it |
| AacSpectral.BandChargeBound | FFmpeg/libavcodec/aaccoder.c:144-169 | in codebook 11, with code words of at most 12 bits, a band is charged at most 28 bits a value, whatever the values |
| AacSpectral.LongerEscapes | FFmpeg/libavcodec/aaccoder.c:187-196 | a band of one value of at least 32 is charged at least two bits a value more than a band of one value in 16..31: both use the same table entry, and the escape words grow |
| AacSpectral.EncodeBand | FFmpeg/libavcodec/aaccoder.c:102-204 | a band's bits, as many as charged |
| AacSpectral.SignsBack | FFmpeg/libavcodec/aacdec.c:1031-1180 | sign bits are read back, one for every non-zero digit |
| AacSpectral.EscapesBack | FFmpeg/libavcodec/aacdec.c:1120-1180 | escape words are read back, one for every digit of 16 |
| AacSpectral.VectorBack | FFmpeg/libavcodec/aacdec.c:1031-1180 | a vector in range is decoded to the same signed values |
| AacSpectral.BandBack | FFmpeg/libavcodec/aacdec.c:991-1190 | a band is decoded to its values cut to the codebook's range |
| AacChannel.PutIcsInfo | FFmpeg/libavcodec/aacenc.c:267-283 | window sequence, shape, number of bands and the grouping bits, window by window |
| AacChannel.ChannelBack | FFmpeg/libavcodec/aacenc.c:441-455 | a whole channel read back, in a common window or with its own window information: gain, window sequence, shape and layout, codebook of every band, scalefactor of every band that has one, and every value in every window; the rest of the stream is left |
| AacChannel.SearchedChannelBack | FFmpeg/libavcodec/aacenc.c:375-455 | scalefactors within a spread of 60, as both searches leave them, with the zero flags the section writer leaves, make a channel that is written without error and read back whole |
| AacChannel.EncodeBandWindows | FFmpeg/libavcodec/aacenc.c:427-432 | one band in every window of its group |
| AacChannel.EncodeSpectralCoeffs | FFmpeg/libavcodec/aacenc.c:420-435 | the spectrum of a group; bands without a codebook write nothing |
| AacEncoder.EncodeGroupInfo | FFmpeg/libavcodec/aacenc.c:364-370 | the sections of one group are those of the cheapest way back through the trellis, which never fails; its band types and zero flags are recorded, and no other group's change |
| AacEncoder.EncodeBandInfos | FFmpeg/libavcodec/aacenc.c:364-370 | so for every group, each from the least codebooks and zero flags it had before |
| AacEncoder.OrderIncreases | FFmpeg/libavcodec/aacenc.c:381-391 | the slots of the coded bands, group by group, strictly increase from slot 0 inside the arrays |
| AacEncoder.EncodeSpectrum | FFmpeg/libavcodec/aacenc.c:416-435 | the spectrum of every group in order |
| AacEncoder.FlagsRecorded | FFmpeg/libavcodec/aacenc.c:416-426 | in coding order the zero flags left are set exactly for codebook 0 |
| AacEncoder.CodedOk | FFmpeg/libavcodec/aacenc.c:375-392 | whatever the sections chosen, the scalefactors left to code can be |
| AacEncoder.EncodeIndividualChannel | FFmpeg/libavcodec/aacenc.c:441-455 | one channel from its scalefactors: the bits are those of the channel whose sections are the trellis's choice, whose values are taken at the first window's indices and whose scalefactors are those of the bands with a codebook; and whatever follows, the decoder reads all of it back |
| AacEncoder.SearchAndEncode | FFmpeg/libavcodec/aacenc.c:562-597 | the two-loop search, changes of zero flags and of the number of bands, and the writer in turn: for every signal and target the decoder reads back the channel meant, with the scalefactors the rounds of that search for that target end in |
| AacEncoder.CopyInGroups | FFmpeg/libavcodec/aaccoder.c:682-686 | the indices of a group's first window are copied to its other windows, and first windows keep theirs |
| AacEncoder.ChargedIsWritten | FFmpeg/libavcodec/aaccoder.c:455-459 | then the values charged for are those written |
| AacEncoder.GroupRate | FFmpeg/libavcodec/aaccoder.c:424-515 | and then the writer spends on a group the cost its sections were chosen for and exactly what the trellis does not count |
| AacChannel.GroupsBack | FFmpeg/libavcodec/aacdec.c:658-670 | the decoder counts the grouping bits back into the lengths of the groups |
| AacChannel.IcsBack | FFmpeg/libavcodec/aacdec.c:644-712 | the decoder reads back window sequence, shape and layout and leaves the rest of the stream |
| AacChannel.AllSectionsBack | FFmpeg/libavcodec/aacdec.c:725-754 | sections of all window groups read back |
| AacChannel.ItemsBack | FFmpeg/libavcodec/aacdec.c:1005-1038 | bands read back in order, those without a codebook cleared |
| AacChannel.AllShaped | FFmpeg/libavcodec/aacdec.c:1005-1015 | the decoder works out, from the codebooks it read, the same bands and sizes in the same order as were written |
| PlayerSync.InitInv | FFmpeg/ffplay.c:2717-2743 | the starting state, all zero but for the flush packet that packet_queue_init puts, satisfies the invariant, also when there is no memory for that packet |
| PlayerSync.PausedEffect | FFmpeg/ffplay.c:1125-1135 | pausing stops, and resuming moves the frame timer by exactly the time since the last picture; the video clock goes on from where it was when the input cannot pause, and else from where it would be without the pause |
| PlayerSync.CorrectionFollows | FFmpeg/ffplay.c:1155-1167 | a corrected delay d for a nominal delay n never makes the offset from the clock followed larger, and makes it smaller by exactly n when a slave is off by at least max(0.01, n) and less than 10 seconds; else d is n |
| PlayerSync.RaisedTarget | FFmpeg/ffplay.c:1137-1176 | a picture is due at the old frame timer and such a corrected delay, n the time since the last picture when that is positive and below ten seconds, and else the delay remembered; timer, times and delay are remembered for the next |
| PlayerSync.SyncsUp | FFmpeg/ffplay.c:1155-1167 | picture by picture of n seconds a clock that follows another comes within the threshold of it, in as many pictures as the offset has n |
| PlayerSync.ShownWhenDue | FFmpeg/ffplay.c:1186-1203 | a picture is shown exactly when it is there and due, and the video clock then reads its time |
| PlayerSync.StepKeeps | FFmpeg/ffplay.c:1178-1290 | every step of the display, decoder and reader threads, and of the one that closes, keeps the ring, its order, its times, the queue, and the reasons to sleep |
| PlayerSync.RunKeeps | FFmpeg/ffplay.c:1178-1290 | so does every interleaving |
| PlayerSync.RingSafe | FFmpeg/ffplay.c:1186-1279 | in every interleaving the size is 0..2, the slot the decoder works on is none the display may read, a picture is shown only when due, and a queued picture is not due before the one ahead of it: the assertion at line 1204 holds |
| PlayerSync.PicturesInOrder | FFmpeg/ffplay.c:1272-1279 | pictures leave in the order they entered, none skipped and none twice |
| PlayerSync.PicturesConserved | FFmpeg/ffplay.c:1178-1290 | in every interleaving the pictures that leave the ring, and then those in it, are those that were in it and those that entered, in order, each with the time and the seek it was given |
| PlayerSync.NoneLost | FFmpeg/ffplay.c:1418-1500 | until closing begins every picture decoded enters the ring, but for one in hand |
| PlayerSync.AfterSeekAtOnce | FFmpeg/ffplay.c:1573-1594 | the first picture after a flush is due at the moment of the flush, whatever the threads do until it is timed, unless there is a pause |
| PlayerSync.NothingStale | FFmpeg/ffplay.c:1573-1594 | once a packet from after a seek is taken, none put before that seek is; and while every seek has got its marker, the flush comes first and leaves no picture from before in the ring |
| PlayerSync.LostMarker | FFmpeg/ffplay.c:2622-2625 | and not otherwise: a seek whose marker gets no memory leaves whatever picture is in the ring there, with the decoder past the seek |
| PlayerSync.RunEpoch | FFmpeg/ffplay.c:2600-2629 | the decoder never goes back to an earlier seek |
| PlayerSync.ClosingEnds | FFmpeg/ffplay.c:2400-2411 | after closing has signalled, be it by the reader thread at its end or by the display thread that changes the channel while the reader goes on, the decoder is asleep on neither condition, can always move, and is done within four of its moves |
| PlayerPackets.PacketQueue.constructor | FFmpeg/ffplay.c:302-308 | a new queue holds the flush packet, or nothing when there is no memory for its node |
| PlayerPackets.PacketQueue.Put | FFmpeg/ffplay.c:334-364 | puts one packet last and wakes a sleeper, or fails without memory for its data or node and changes nothing; list, end pointers and totals describe the same packets |
| PlayerPackets.PacketQueue.Get | FFmpeg/ffplay.c:378-411 | one look: takes the oldest packet, unless aborted or empty; on an empty queue a blocking caller sleeps until the next look |
| PlayerPackets.PacketQueue.Flush | FFmpeg/ffplay.c:310-325 | drops all packets and resets the totals |
| PlayerPackets.PacketQueue.Abort | FFmpeg/ffplay.c:366-375 | aborts, keeping the packets |
| PlayerPackets.PacketQueue.Seek | FFmpeg/ffplay.c:2600-2629 | after a seek the queue is the flush marker alone, or empty when there is no memory for its node |
| PlayerPackets.TotalAppend | FFmpeg/ffplay.c:357-358 | the running size is the sum over the packets |
| VideoSync.FramesBalance | FFmpeg/ffmpeg.c:1161-1195 | over any run, frames out are frames in plus duplicates minus drops, exactly when the frame limit held none back |
| VideoSync.TimesIncrease | FFmpeg/ffmpeg.c:1165-1195 | with a sync method, output times strictly increase over any run, whatever the input times |
| VideoSync.PassthroughTimes | FFmpeg/ffmpeg.c:1191-1192 | without one, output times are the rounded input times, and increase exactly when those do |
| VideoSync.PassthroughRepeats | FFmpeg/ffmpeg.c:1191-1192 | two inputs at one time then get one output time |
| VideoSync.ConstantCount | FFmpeg/ffmpeg.c:1165-1178 | at a constant rate an input is dropped exactly when more than 1.1 behind and repeated exactly when more than 1.1 ahead, and then as often as brings the next output time nearest to it |
| VideoSync.VariableCount | FFmpeg/ffmpeg.c:1165-1178 | at a variable rate it is dropped exactly when at least 0.6 behind, never repeated, and given the nearest time of its own exactly when more than 0.6 ahead |
| VideoSync.LimitKept | FFmpeg/ffmpeg.c:1193-1196 | never more frames than the limit are output, and frames are held back only once there are as many |
| VideoSync.DriftBounded | FFmpeg/ffmpeg.c:1165-1178 | with input times that do not go back and no limit reached, the lead stays in -2.1..0.5 (constant rate) or -1.6..-0.4 (variable rate) after every frame, exactly when the first input is not further behind than that |
| VideoSync.StaysInStep | FFmpeg/ffmpeg.c:1165-1178 | the step of that induction |
| VideoSync.CutGrows | FFmpeg/ffmpeg.c:1194-1196 | what the limit holds back never shrinks |
| VideoSync.VideoOutput.DoVideoOut | FFmpeg/ffmpeg.c:1161-1319 | one input frame in the updated state: counters, next time, and the times given to the encoder |
| VideoSync.VideoOutput.Emit | FFmpeg/ffmpeg.c:1246-1319 | so many frames, one after another in time |
| CharsetRenderer.BuildTables | FFmpeg/libavcodec/a64multienc.c:87-100 | the three tables hold, for every luma, the grey below, the grey above, and the dither step between them |
| CharsetRenderer.FillDither | FFmpeg/libavcodec/a64multienc.c:90-96 | the steps from one grey to the next, that one included |
| CharsetRenderer.ShadeRange | FFmpeg/libavcodec/a64multienc.c:93-93 | a dither step is 0..6 and within one seventh of where the pixel is |
| CharsetRenderer.GreyHasNoShade | FFmpeg/libavcodec/a64multienc.c:90-99 | a pixel at a grey is drawn in that grey only |
| CharsetRenderer.RowByteCodes | FFmpeg/libavcodec/a64multienc.c:117-130 | the two bits of each dot are read back from the row byte |
| CharsetRenderer.RenderRow | FFmpeg/libavcodec/a64multienc.c:108-137 | both fields' bytes of a row, and the errors at either end so far |
| CharsetRenderer.RenderCharacter | FFmpeg/libavcodec/a64multienc.c:103-140 | the sixteen bytes of a character and its two errors; other bytes unchanged |
| CharsetRenderer.ClampTop | FFmpeg/libavcodec/a64multienc.c:144-145 | clamps in place |
| CharsetRenderer.ClampBottom | FFmpeg/libavcodec/a64multienc.c:147-148 | clamps in place |
| CharsetRenderer.NeedsAdjustingIs | FFmpeg/libavcodec/a64multienc.c:142-142 | in five colours a character is redone exactly when it has a pixel below grey 1 and one above grey 3 |
| CharsetRenderer.AdjustedOnce | FFmpeg/libavcodec/a64multienc.c:142-150 | one adjustment is enough: the loop steps back at most once for a character |
| CharsetRenderer.AdjustedNearest | FFmpeg/libavcodec/a64multienc.c:143-149 | the adjusted character is as near to the original, in summed difference, as any that can be shown |
| CharsetRenderer.RenderCharset | FFmpeg/libavcodec/a64multienc.c:103-160 | the loop that steps back terminates; every character is adjusted where needed, drawn as it then is, drawn twice exactly if it was adjusted, and its colour bit set exactly for a pixel above grey 3 |
| CharsetRenderer.CharacterDecodes | FFmpeg/libavcodec/a64multienc.c:111-130 | the colour bit and the two bits of a dot of a finished character determine the grey chosen |
| CharsetRenderer.CharsetDecodes | FFmpeg/libavcodec/a64multienc.c:103-160 | what is shown from the finished bytes and colour bits is, dot by dot, the grey chosen |
| CharsetRenderer.PatternWeight | FFmpeg/libavcodec/a64tables.h:93-148 | a pattern shows the brighter grey in four of its thirty-two dots for every step |
| CharsetRenderer.ToneBound | FFmpeg/libavcodec/a64tables.h:93-148 | a flat area is never shown brighter than it is, nor darker by a quarter of a palette step |
| FeedRing.HeaderKept | FFmpeg/ffserver.c:2697-2716 | over any run of pages the header page is not overwritten but for the write index, which is the current one |
| FeedRing.StoreBounded | FFmpeg/ffserver.c:2697-2710 | one page stays within the limit exactly when it is written before the limit |
| FeedRing.FileBounded | FFmpeg/ffserver.c:2697-2710 | over any run the file stays within the limit rounded up to a page exactly when the first page is written before it; then the index stays aligned, past the header and before the limit |
| FeedRing.RingHoldsNewest | FFmpeg/ffserver.c:2697-2710 | from any aligned start, going back from the write index the ring holds the received pages, newest first, as many as there are or fit |
| FeedRing.RingReadsBack | FFmpeg/ffserver.c:2697-2710 | a full ring read from the write index round is the most recent pages in arrival order |
| FeedRing.UnlimitedAppends | FFmpeg/ffserver.c:2697-2710 | without a limit every page received follows what was there |
| FeedRing.OpenedResumes | FFmpeg/ffserver.c:2604-2618 | a feeder that comes back goes on where the last one stopped |
| FeedRing.OpenedTruncated | FFmpeg/ffserver.c:2604-2608 | truncating keeps the header and starts after it |
| FeedReceiver.ReceivedPages | FFmpeg/ffserver.c:2628-2763 | however a chunked stream arrives, in readings of any size: once it is read, its pages after the header are stored in order and the buffer has what follows; the feeder is dropped exactly when a data page lacks its mark or the header does not match. Chunks but the last are whole pages |
| FeedReceiver.KeptThroughoutIff | FFmpeg/ffserver.c:2633-2661 | of a stream in step, no page is lost at the end of a chunk exactly when every chunk but the last ends with a page |
| FeedReceiver.KeptIff | FFmpeg/ffserver.c:2645-2651 | the line end after a chunk leaves the partial page alone exactly when there is none: else it is taken for the end of a size line that starts in the page, and the page is begun again |
| FeedReceiver.StraddlingDrops | FFmpeg/ffserver.c:2645-2687 | a chunk that ends inside a data page ends the feeding: the mark reads as a size of 15, and the next line as data without the mark |
| FeedReceiver.HalfHeaderLost | FFmpeg/ffserver.c:2645-2651 | half a header page in a chunk of its own: its letters read as a size of 255, and the half is lost |
| FeedReceiver.LongLineDrops | FFmpeg/ffserver.c:2652-2656 | eleven bytes of a line at once, none of them its end, end the feeding; so do eight digits of a size, but for the first |
| FeedReceiver.CallsAreBytes | FFmpeg/ffserver.c:2628-2679 | handlings at any arrival pattern take the stream as if byte by byte, as far as it has been read |
| FeedReceiver.CallIsBytes | FFmpeg/ffserver.c:2628-2679 | so does one handling, and it takes at least one byte when there is one |
| FeedReceiver.PieceIsBytes | FFmpeg/ffserver.c:2662-2687 | a piece of data taken at once is as good as its bytes one by one |
| FeedReceiver.SizeRead | FFmpeg/ffserver.c:2649-2649 | the hexadecimal size in a line short enough to be read at once is cut to an int, and is right up to seven digits, whatever stands behind it in the buffer |
| FeedReceiver.SizeBack | FFmpeg/ffserver.c:2649-2649 | any number in hexadecimal, after any white space, with or without sign and prefix, is read as that number, bounded as a long is, and then cut to an int |
| FeedReceiver.SizeLine | FFmpeg/ffserver.c:2645-2651 | by the lower 32 bits of the number in a size line: none set ends the feeding, the top one set leaves the next reading unbounded, and any other number is the size of the chunk |
| FeedReceiver.BoundedIff | FFmpeg/ffserver.c:2645-2664 | every reading of a stream asks for no more than the room left in the page exactly when no line of it reads as a negative size |
| FeedReceiver.InSyncGrows | FFmpeg/ffserver.c:2681-2687 | the mark is looked for in every data page as soon as two bytes of it are there |
| FeedReceiver.EndLeaves | FFmpeg/ffserver.c:2662-2679 | a connection that has ended leaves the feed with the pages received whole; with nothing there any other waits |
| FeedReceiver.FailureEnds | FFmpeg/ffserver.c:2689-2703 | when pages cannot be written, feeding ends with the first page after the header, and none is stored |
| FeedReceiver.IndexStays | FFmpeg/ffserver.c:2697-2716 | whatever is received: when the write index cannot be written, the one in the file stays, so that the next feeder writes over that page |
| FeedReceiver.FeedStore.constructor | FFmpeg/ffserver.c:3804-3808 | the server's start: index, size, and the limit raised to the file, whatever the file holds |
| FeedReceiver.FeedStore.StartReceive | FFmpeg/ffserver.c:2585-2626 | a feeder is refused while another feeds, on a read-only feed, when the file does not open or its index cannot be read or is negative, and else finds the feed as it is in the file |
| FeedReceiver.FeedStore.ReceiveData | FFmpeg/ffserver.c:2628-2775 | one handling: line bytes, then data once; without chunks no byte is asked for and the feeding ends |
| FeedReceiver.FeedStore.TakeLineByte | FFmpeg/ffserver.c:2635-2659 | one byte of a chunk's line |
| FeedReceiver.FeedStore.ReceiveChunk | FFmpeg/ffserver.c:2662-2679 | one reading of data: at most the chunk, the page and what is there |
| FeedReceiver.FeedStore.CheckPage | FFmpeg/ffserver.c:2681-2763 | the mark, the header page, and a full page stored, with failing writes |
| FeedReceiver.FeedStore.FillBuffer | FFmpeg/ffserver.c:2663-2677 | the piece follows what the buffer holds |
| FeedReceiver.FeedStore.StorePacket | FFmpeg/ffserver.c:2697-2716 | one page written at the index, and the index moved on, round, and into the header unless that fails |
| FeedRing.BigEndianBack | FFmpeg/libavformat/ffmdec.c:28-49 | the write index is read back from its eight bytes |
| RtspInterleave.WholeIff | FFmpeg/ffserver.c:2504-2552 | for any partial sends and any number of sessions, and whatever a freed buffer may hold, what is sent is whole replies and whole framed packets at every moment, exactly when no session ends while its packet is under way: the bytes still to send stand in the session's own memory |
| RtspInterleave.WireIsWhole | FFmpeg/ffserver.c:2504-2552 | in such runs the bytes sent are a prefix of whole replies and whole framed packets, one after another, and all of them when nothing is under way (section 10.12 of RFC 2326) |
| RtspInterleave.CutSpoils | FFmpeg/ffserver.c:888-893 | at the first end of a session with its packet under way, something may be found in its memory that makes what is sent anything but whole |
| RtspInterleave.ClosingSpoils | FFmpeg/ffserver.c:888-893 | a concrete such run: one packet of one byte |
| RtspInterleave.PrefixHeard | FFmpeg/ffserver.c:2524-2533 | a client that reads by section 10.12 of RFC 2326 (dollar, channel, length with the high byte first, and so many bytes; or a reply) hears, of any beginning of the bytes of whole units, exactly the units that are there whole, as they were |
| RtspInterleave.ClientHears | FFmpeg/ffserver.c:2504-2552 | so in every run in which no session ends with its packet under way it hears the first of the replies and packets, in order, and all of them when nothing is left to send |
| RtspInterleave.WireReadOneWay | FFmpeg/ffserver.c:2524-2533 | whole units can be read off the bytes in one way only |
| RtspInterleave.RequestsRead | FFmpeg/ffserver.c:926-927 | whatever requests a client writes one after another, lines ended by CR LF or by LF alone, they are those read, each ended by its blank line and not before |
| RtspInterleave.PacketsDelivered | FFmpeg/ffserver.c:2471-2565 | inside the connection or by UDP, each session's packets go out once each, in order, and on the channel of their stream: sent ones and buffered ones are all it was given, but for buffers dropped for want of memory, and then what is left is in order |
| RtspInterleave.RequestsUndisturbed | FFmpeg/ffserver.c:909-940 | requests are the client's bytes cut at blank lines, one reply each while the connection is open, whatever packets are sent in between |
| RtspInterleave.FailSafeUnused | FFmpeg/ffserver.c:2481-2493 | the loop's fail-safe is never needed, and it reads outside no buffer; a packet goes out exactly when due and, inside a connection, that is there, free and memory is |
| RtspInterleave.ControlPacketsUnmarked | FFmpeg/ffserver.c:2520-2523 | no packet is ever sent on an odd channel: the test meant for control packets looks at the length field |
| RtspInterleave.StepKeeps | FFmpeg/ffserver.c:1012-1063 | every event keeps the connection and its sessions in order, and all but such an end keep what is sent whole |
| RtspInterleave.RunKeeps | FFmpeg/ffserver.c:1012-1063 | so does every run |
| RtspInterleave.PassesKeep | FFmpeg/ffserver.c:2470-2581 | and a session's sending loop |
| RtspInterleave.Length4Back | FFmpeg/ffserver.c:2488-2491 | a packet's length is read back from its four bytes |
| RtspInterleave.RtspConnection.ReadRequest | FFmpeg/ffserver.c:900-940 | reads bytes until a request is whole or too long; closes on a timeout, an error or the end of the connection |
| RtspInterleave.RtspConnection.TakeByte | FFmpeg/ffserver.c:909-940 | one byte: the request, and the reply it starts, or the end when there is no memory for one |
| RtspInterleave.RtspConnection.Write | FFmpeg/ffserver.c:1012-1062 | sends what the socket takes, and waits for a request again when all is sent; closes on an error |
| RtspInterleave.RtpSession.SendData | FFmpeg/ffserver.c:2470-2565 | the loop: packets due are sent, by UDP or while the connection is free and takes them whole |
| RtspInterleave.RtpSession.SendPacketNow | FFmpeg/ffserver.c:2479-2565 | one pass of it: waits, drops, fails without its connection, or sends |
| RtspInterleave.RtpSession.SendInside | FFmpeg/ffserver.c:2519-2552 | frames a packet and sends what the socket takes |
| ServerStreams.NotLiveWeighsNothing | FFmpeg/ffserver.c:4043-4643 | whatever the configuration and the files, a status page or redirection has no tracks and no bandwidth |
| ServerStreams.FeedHasTracks | FFmpeg/ffserver.c:3666-3680 | every track of a stream that comes from a feed is among the feed's own |
| ServerStreams.ConfigurationRead | FFmpeg/ffserver.c:4043-4643 | whatever feeds, streams, status pages and redirections a configuration's author means, they are what is read of its lines, without an error: formats, feeds, read-only feeds, and tracks with their rates or 64000 |
| ServerStreams.SectionRates | FFmpeg/ffserver.c:3815-3836 | the rates of a stream that comes from a feed are those its section gives for audio and video together |
| ServerStreams.BandwidthIff | FFmpeg/ffserver.c:3815-3836 | a stream's bandwidth is enough for its rates, by less than a thousand bits too much, exactly when they are at most 2^32 - 1000; above, the unsigned sum wraps and it is too small |
| ServerStreams.ParsedKeeps | FFmpeg/ffserver.c:4043-4643 | every line of the configuration keeps that only live streams have tracks, and that a stream's feed is a feed |
| ServerStreams.Configuration.ParseConfig | FFmpeg/ffserver.c:4043-4643 | the loop over the lines; refused when there is an error |
| ServerStreams.Configuration.BuildFileStreams | FFmpeg/ffserver.c:3610-3657 | live streams without a feed get their file's tracks, or go |
| ServerStreams.Configuration.BuildFeedStreams | FFmpeg/ffserver.c:3666-3680 | each stream's tracks are added to its feed, each once |
| ServerStreams.Configuration.ComputeBandwidth | FFmpeg/ffserver.c:3815-3836 | the bandwidth of every stream, in 32-bit unsigned steps |
| ServerConnections.AccountsKept | FFmpeg/ffserver.c:775-894 | whenever the loop comes round the count is the length of the list and within the limit, and the bandwidth counted is that of what the connections are served; with no connection left both are zero |
| ServerConnections.ConfiguredStarts | FFmpeg/ffserver.c:3815-3836 | every configuration gives the server streams to start with: those that are not live weigh nothing |
| ServerConnections.ServedThrough | FFmpeg/ffserver.c:704-726 | a run goes through exactly when in no pass a connection tears down the session right after it in the list: the pass keeps the next connection in hand over a handler that may free it |
| ServerConnections.WalkIff | FFmpeg/ffserver.c:705-712 | the same of one pass |
| ServerConnections.OthersStay | FFmpeg/ffserver.c:896-1071 | a turn closes no connection but its own and the session it tears down, for every connection and both ways |
| ServerConnections.SavedConnectionFreed | FFmpeg/ffserver.c:705-712 | a concrete run that goes wrong: A sets up a session, B connects, B tears the session down |
| ServerConnections.OlderIsSafe | FFmpeg/ffserver.c:705-712 | a connection that tears down only sessions newer than itself does no such harm |
| ServerConnections.FeedOpenIff | FFmpeg/ffserver.c:2585-2626 | a feed is marked open exactly when one connection is receiving into it, and never two |
| ServerConnections.NoneDangling | FFmpeg/ffserver.c:827-831 | no connection refers to one that has gone |
| ServerConnections.ServedIff | FFmpeg/ffserver.c:1554-1858 | a viewer gets data exactly when the stream is live, not being fed, fits in the bandwidth with all that is counted, no redirection is asked for and its input opens; a feeder receives exactly into a feed that may be written, is not open, and whose file opens |
| ServerConnections.ToldIff | FFmpeg/ffserver.c:1554-1858 | what a client is told: 301 exactly for a redirection, 503 exactly when a viewer's bandwidth no longer fits, 200 for a status page or an answer that names the stream, and 404 for all else that is not served |
| ServerConnections.HeaderThenData | FFmpeg/ffserver.c:943-973 | a connection goes on to data once its header is sent exactly when it is a viewer's that is served; any other that was sent a header is closed |
| ServerConnections.WaitersGoOn | FFmpeg/ffserver.c:2718-2775 | when a feeder brings a page or fails, those who wait for its feed go on, with more data or to the end of theirs, and no other connection does; in between nothing moves them but a failure of their own |
| ServerConnections.ReplyFirst | FFmpeg/ffserver.c:1012-1062 | a request is answered before the next is read, and so is a packet sent |
| ServerConnections.SetupBinds | FFmpeg/ffserver.c:3155-3229 | after a SETUP over TCP a session sends inside the connection it came on exactly when the request came as far as its transport; a session for another stream stays as it is |
| ServerConnections.PlayStarts | FFmpeg/ffserver.c:3237-3261 | a PLAY makes a session send at its turns exactly when it is ready or going already |
| ServerConnections.PauseStops | FFmpeg/ffserver.c:3263-3286 | a PAUSE stops a session exactly when it is sending or waiting, and then nothing moves it but a command |
| ServerConnections.CastSends | FFmpeg/ffserver.c:534-587 | a stream sent to a group has a connection from the start exactly when there is room and memory, and sends exactly when its input opens |
| ServerConnections.ClosedKeeps | FFmpeg/ffserver.c:809-894 | closing gives back bandwidth and feed |
| ServerConnections.RequestedKeeps | FFmpeg/ffserver.c:1457-1858 | an HTTP request keeps the accounts in each of its outcomes |
| ServerConnections.RequestedShape | FFmpeg/ffserver.c:1554-1858 | what each outcome changes |
| ServerConnections.FeedDataKeeps | FFmpeg/ffserver.c:2718-2775 | data from a feeder, or its failure, keeps the accounts |
| ServerConnections.RtpNewKeeps | FFmpeg/ffserver.c:3315-3376 | a new RTP connection is refused exactly at the limit or without memory, and else counted |
| ServerConnections.CommandedKeeps | FFmpeg/ffserver.c:3064-3309 | an RTSP command keeps the accounts |
| ServerConnections.RequesterStays | FFmpeg/ffserver.c:2843-2931 | no command disturbs the connection it came on |
| ServerConnections.RtspRequestedKeeps | FFmpeg/ffserver.c:2843-2931 | every request is answered on the connection it came on, or closes it when there is no memory for the reply |
| ServerConnections.TurnKeeps | FFmpeg/ffserver.c:896-1071 | whatever a connection's turn brings, the accounts are kept |
| ServerConnections.HttpServer.constructor | FFmpeg/ffserver.c:4730-4734 | the server as the configuration leaves it |
| ServerConnections.HttpServer.NewConnection | FFmpeg/ffserver.c:760-799 | accepts a connection below the limit |
| ServerConnections.HttpServer.CloseConnection | FFmpeg/ffserver.c:809-894 | the state after closing |
| ServerConnections.HttpServer.RemoveConnection | FFmpeg/ffserver.c:817-831 | the list and the references in it |
| ServerConnections.HttpServer.HttpParseRequest | FFmpeg/ffserver.c:1476-1858 | the state after a request, and whether the connection stays |
| ServerConnections.HttpServer.Wake | FFmpeg/ffserver.c:2718-2723 | the connections waiting for a feed, and only those, go on |
| ServerConnections.HttpServer.HttpReceiveData | FFmpeg/ffserver.c:2689-2775 | the state after data or failure of a feeder |
| ServerConnections.HttpServer.RtpNewConnection | FFmpeg/ffserver.c:3315-3376 | the state after a new RTP connection |
| ServerConnections.HttpServer.RtspCommand | FFmpeg/ffserver.c:3064-3309 | the state after a command |
| ServerConnections.HttpServer.RtspParseRequest | FFmpeg/ffserver.c:2843-2931 | the state after a request |
| ServerConnections.HttpServer.HttpSendData | FFmpeg/ffserver.c:2465-2581 | the state after sending, and the RTSP connection locked when a packet went out in part |
| ServerConnections.HttpServer.HandleConnection | FFmpeg/ffserver.c:896-1071 | the state after any turn |
| ServerConnections.HttpServer.HandleConnections | FFmpeg/ffserver.c:704-712 | one pass over the list with the next connection kept in hand, and whether it went through |
| ServerConnections.HttpServer.StartMulticast | FFmpeg/ffserver.c:534-587 | the connections that stand from the start |
| ServerConnections.HttpServer.HttpServerLoop | FFmpeg/ffserver.c:590-727 | the state after any number of passes that go through, with the accounts kept |

## Left out

- FourXmHuffman.ReadWeights: a stream that ends inside the ranges is reported, where the program reads on past the end of its input.
- FourXmHuffman.ReadHuffmanTables: the program would read weights past the end of its input, where the model reports that there are none; what init_vlc does with a code that is not a prefix code is left out.
- FourXmPictures.EveryFrame: the vectors are any function of the byte read, where the program has a table of 256 for each version (4xm.c:72-106 and 253-262).
- FourXmBlocks.Decoder.DecodeFrame: streams are infinite sequences, so reading past the end of a stream is not modelled; pictures have sides that are multiples of 8, and the header checks of decode_p_frame are left out.
- AacAnmr.Search: bands and window groups are one list; when no path exists the program goes back through an index of -2, where the model reports that there is none.
- AacAnmr.SearchForQuantizers: the limits of the index window, the mean energy and the distortions are inputs, since they are computed from floats; AacEncoder.CopyInGroups has the last loop of the search.
- AacSections.ChargeIsWritten: the data bits are a table of the bands here; AacRate ties it to the writer.
- AacSections.TrellisRate: the same.
- AacCheapest.NearlyCheapest: compares with codebooks in which zero bands go with the band before, as the trellis has them; CheapestOfAll compares with any.
- AacRate.RateRightIff: is about groups without zero bands and with at least one value in every band; RateIsWritten says what zero bands add. Coefficients are exact reals, each given as the power of 3/4 of its size with its sign, and the program computes with floats.
- AacScalefactors.TwoLoopSearch: starts from scalefactors 140..199, as the program sets them; the float comparison with 1.02 times the target is exact.
- AacSpectral.EncodeBand: starts from quantised integers, which AacQuantiser has in real arithmetic where the program uses floats; the distortion that the same lines add up is a parameter of the searches.
- AacEncoder.SearchAndEncode: what adjust_frame_information and search_for_ms do in between is any change of zero flags and any number of bands dropped at the end; the values are any function of window, band and index.
- PlayerSync.RingSafe: each locked section, each unlocked update of a clock field and the display's read of two target times is one atomic step, and time does not go back; torn reads of doubles and wake-ups without a signal are not modelled. The model ends when a stream is closed: opening another one is a new run.
- PlayerPackets.PacketQueue.Get: one turn of the loop; PlayerSync models the waiting between two.
- VideoSync.DriftBounded: times are exact reals; one input stream and one output stream.
- FeedReceiver.ReceivedPages: sizes have 1 to 7 hexadecimal digits (LongLineDrops says why) and no sign or prefix (SizeBack has those); writes of a page succeed (FailureEnds and IndexStays have the others).
- FeedReceiver.FeedStore.ReceiveData: after a size that is negative as an int nothing more is said of the connection; what recv does with such a length is left out. A write that stores less than a page counts as written, as the program takes it; whether the header page is that of the feed is an input.
- FeedReceiver.FeedStore.TakeLineByte: the same.
- RtspInterleave.WholeIff: the sessions of a connection are there from the start; of freed memory only the contents matter, which may be anything.
- RtspInterleave.RtpSession.SendData: one frame's packets; preparing the next frame is an event of its own.
- ServerStreams.Configuration.ParseConfig: lines are taken apart and names looked up; options that only set codec parameters are one kind of line.
- ServerConnections.AccountsKept: a connection is a record in a list; buffers and log lines are left out, poll results are what each turn finds, and memory is only whether an allocation succeeds. Runs that go wrong in the sense of ServedThrough have no state afterwards.
- ServerConnections.OlderIsSafe: gives one direction, for a caller who knows only the order of ids; WalkIff has both.
- CharsetRenderer.RenderCharset: takes the palette's luma values, increasing from 0, and pixels of a byte; the codebook search and a64multi_encode_frame are left out.
- encode_window_bands_info, the faac and fast searches, search_for_ms, adjust_frame_information and pulses of the AAC encoder.
- Subtitles, audio, frame dropping by skip_frames and the seek arithmetic of ffplay.
- Parsing of HTTP and RTSP text, access lists, redirection text, status pages, stream switching and child processes of ffserver.
- Audio sync, resampling, filters and muxing of ffmpeg.
