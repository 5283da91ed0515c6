# Kōtuku: audio effects, hash tables and protocols

A Dafny model of the parts of Kōtuku whose correctness depends on more than one function: feedback effects that must
stay bounded and fall silent, the transforms behind the analyser and the pitch shifter, two robin-hood hash tables, and
the shared-state protocols around the mixer. Signals are exact reals. Sine, cosine, exponentials and logarithms are
parameters, constrained only by the facts that the proofs use (a sweep lies in [-1, 1], a dB gain undoes the reduction
that was required, and so on). `dafny verify dfyconfig.toml` checks the whole project.

Code that works in place is modelled in place: the tables, processors, deque, completion slots and meter are classes whose
methods run the source's loops, and each method is proved against a function of the old state. The theorems about whole
runs are then lemmas about those functions.

## What is modelled

- **Transforms.** `Fft` is the analyser's in-place transform over any commutative ring with the needed roots of unity;
  `PitchFft` is the pitch shifter's table-driven one and its inverse; `Rings` and `ComplexNumbers` supply the algebra.
- **Hash tables.** `RobinHood`, `TableValues` and `DenseTables` are `ankerl::unordered_dense`; `OrderedBuckets` and
  `OrderedHashes` are `tsl::ordered_hash`. A ghost map from value index to bucket makes the index a bijection; no proof
  about `ordered_hash` assumes a free bucket where its small tables have none.
- **Feedback effects.** `Lattice`, `PhaserMath` and `PhaserProcessors` are the phaser, `DelayLines` the ring, read heads and
  self-retiring history that `Flangers` and `Delays` share, `Ramps` the 10 ms ramps, and `PeakDeques` and `Limiters` the
  lookahead limiter. Runs interleave frames with arbitrary supported edits.
- **Pitch shifter.** `PeakRegions` is the partition of a spectrum into peak regions, the measured frequency of a peak, and
  where its region moves; `PitchShifters` is the countdown that decides when every buffer is zero; `PitchOverlaps` is
  what is heard at every ratio; `PitchStereos` shows why one transform serves two channels; `PitchUnity`, `PitchWindows`
  and `PitchTransforms` show that at zero semitones the whole chain of transforms, shift and overlap-add is a delay.
- **Protocols.** `ThreadPools` is a transition system over the pool's mutex and condition variables with spurious wakeups,
  `LoopBlocks` its loop partition, `OutputCommit` the two-phase output commit against concurrent detach and
  set_processor, `Completions` the slot table with its ready ring, `Meters` metering around a processor, and
  `ParamValidation` full and incremental validation.

## Findings

- **Phaser tail in stereo.** The derivation of `phaser_decay_bound` bounds the energy of one channel, while retirement
  compares the sum over channels. The margin of 1% that the source adds for rounding, together with the slack of the
  headroom, also covers two channels: `PhaserProcessors.BoundSuffices` proves it for the source's own bound.
- **Limiter guard.** The comment at src/audio/audio_limiter_dsp.h:279-281 says that the guard only absorbs rounding. In
  exact arithmetic it also acts when the required reduction is positive but below the snap level:
  `Limiters.GuardNeeded` gives the exact condition, and `Limiters.GuardActs` two frames after which it acts.
- **ordered_hash assertion.** The debug assertion at include/tsl/ordered_hash.h:1234-1235 holds for every table whose load
  factor is at least one half, and fails when a full table below that grows, which takes one insertion:
  `OrderedHashes.TableAsserts`, `OrderedHashes.FullTableFails`, `OrderedHashes.FailingTable`. The index is still sound
  whenever the count is at least the size, which is what `OrderedHashes.OrderedHash.RehashImpl` asks for.
- **Incremental validation.** A committed state of the schema's shape and counts agrees with full validation on every edit
  exactly if it passes full validation itself, which a change of rate can end: `ParamValidation.AgreesExactlyIfValid`, and
  `ParamValidation.AgreeOnlyIfValid` for one parameter set. Committed counts out of range and entries of another length
  do no harm (`ParamValidation.ValidOriginsAgree`). This is the relaxation that the source documents for a moved Nyquist
  bound.

## Model

| member | source | states |
|---|---|---|
| `Fft.AnalyserFft` | src/audio/audio_analyser_dsp.h:48-73 | For every power-of-two length and every commutative ring with the needed roots, the in-place loops leave exactly the discrete Fourier transform of the original array |
| `Fft.BitReverse` | src/audio/audio_analyser_dsp.h:51-56 | The reversed-carry counter and its conditional swaps apply the bit-reversal permutation, each pair once |
| `Fft.NextReversed` | src/audio/audio_analyser_dsp.h:52-54 | Toggling digits from the top down turns the reversal of i - 1 into the reversal of i |
| `Fft.ReverseCarryNext` | src/audio/audio_analyser_dsp.h:52-54 | Adding one from the top digit of a reversed index reverses the next index |
| `Fft.RevIndexInvolution` | src/audio/audio_analyser_dsp.h:55 | The permutation is its own inverse, so swapping only when i < j reaches every pair once |
| `Fft.SwapTurn` | src/audio/audio_analyser_dsp.h:55 | One turn of the swap loop: what holds below i holds below i + 1 |
| `Fft.ButterflyBlock` | src/audio/audio_analyser_dsp.h:63-70 | The innermost loop, with its running power w, joins two blocks and touches nothing outside them |
| `Fft.Passes` | src/audio/audio_analyser_dsp.h:58-72 | Passes of doubling length leave the array as one transformed block |
| `Fft.Pass` | src/audio/audio_analyser_dsp.h:58-72 | A pass over the array turns transformed blocks of half the length into transformed blocks of the whole length |
| `Fft.RootPowers` | src/audio/audio_analyser_dsp.h:59-60 | From step(2) = -1 and step(2m)^2 = step(m): half a turn of every root is -1 and a whole turn is 1 |
| `Fft.DftBins` | src/audio/audio_analyser_dsp.h:65-68 | The two bins that a butterfly computes, from the sums over the even and odd samples |
| `Fft.DftButterfly` | src/audio/audio_analyser_dsp.h:65-68 | The transform of a sequence is the butterfly of the transforms of its even and odd halves |
| `Fft.CombinedIsDft` | src/audio/audio_analyser_dsp.h:58-72 | Joining blocks of the bit-reversed samples gives the transform of the samples in order |
| `ComplexNumbers.ComplexLaws` | src/audio/audio_analyser_dsp.h:66-69 | Complex numbers with the source's product satisfy the ring laws that the transform needs |
| `PitchFft.BuildReverse` | src/audio/audio_pitchshift_dsp.h:177-183 | The permutation table holds the bit reversal of every index |
| `PitchFft.Permute` | src/audio/audio_pitchshift_dsp.h:199-205 | Swapping by table is the same permutation as the reversed-carry counter's |
| `PitchFft.TableFft` | src/audio/audio_pitchshift_dsp.h:197-226 | With twiddles from the table, the transform is the discrete Fourier transform, and with Inverse the unscaled one at the conjugate root |
| `PitchFft.ConjugatedSteps` | src/audio/audio_pitchshift_dsp.h:207-214 | Negating the imaginary parts of the twiddles gives the twiddles of another transform of the same kind |
| `PitchFft.RoundTrip` | src/audio/audio_pitchshift_dsp.h:197-226 | At inverse roots, the transform of the transform of x is n times x, at every index |
| `PitchFft.Inverted` | src/audio/audio_pitchshift_dsp.h:207-214 | For twiddles on the unit circle, whose conjugates are their inverses, so is what fft() with Inverse makes of fft() |
| `PitchFft.ThereAndBack` | src/audio/audio_pitchshift_dsp.h:197-226 | fft() and then fft() with Inverse leave n times the array in place |
| `ComplexNumbers.ComplexConjugation` | src/audio/audio_pitchshift_dsp.h:207-214 | Conjugation keeps zero and one, sums and products of complex numbers |
| `ComplexNumbers.UnitModulus` | src/audio/audio_pitchshift_dsp.h:145-151 | A twiddle on the unit circle is undone by its conjugate |
| `RobinHood.DafInc` | include/ankerl/unordered_dense.h:935-937 | One more step of distance adds 256 to the packed word without a carry out of 32 bits |
| `RobinHood.Chain` | include/ankerl/unordered_dense.h:942-949 | Behind a rich bucket, richness falls by at most one distance a bucket, so clusters reach back to their home |
| `RobinHood.StoredBehind` | include/ankerl/unordered_dense.h:1183-1191 | Every bucket between a key's home and its own is at least as rich as a probe for that key would be there |
| `RobinHood.EmptyExists` | include/ankerl/unordered_dense.h:929-949 | With fewer values than buckets a bucket is empty, so every probe ends |
| `RobinHood.ProbeNext` | include/ankerl/unordered_dense.h:935-938 | A probe step keeps distance and fingerprint true and never passes an empty bucket |
| `RobinHood.CarryNext` | include/ankerl/unordered_dense.h:943-947 | Exchanging the bucket in hand with an occupied one keeps the index whole apart from the new bucket in hand |
| `RobinHood.CarryEnd` | include/ankerl/unordered_dense.h:948 | Dropping the bucket in hand into an empty one completes the index |
| `RobinHood.HoleNext` | include/ankerl/unordered_dense.h:1058-1062 | Moving the next bucket back by one keeps the index whole apart from the hole, which moves on |
| `RobinHood.HoleEnd` | include/ankerl/unordered_dense.h:1063 | Where the next bucket is empty or at home, the hole becomes an empty bucket and order holds everywhere |
| `RobinHood.Renumber` | include/ankerl/unordered_dense.h:1066-1082 | Renaming the last value's bucket to the freed value index restores the bijection over the shortened values |
| `DenseTables.ProbeAbsent` | include/ankerl/unordered_dense.h:1188-1190 | A probe richer than the bucket it meets proves that no value has the key |
| `DenseTables.ProbePasses` | include/ankerl/unordered_dense.h:1184-1193 | A probe that goes on has not passed any value with the key |
| `DenseTables.Table.constructor` | include/ankerl/unordered_dense.h:837-838 | A new table is a valid index of no values |
| `DenseTables.Table.NextWhileLess` | include/ankerl/unordered_dense.h:929-940 | Finds the first bucket on the key's probe path that is no richer than the probe |
| `DenseTables.Table.PlaceAndShiftUp` | include/ankerl/unordered_dense.h:942-949 | Puts a bucket in place and shifts the cluster up, leaving a whole index of one more value |
| `DenseTables.Table.CalcShiftsForSize` | include/ankerl/unordered_dense.h:955-961 | The largest shift, so the smallest bucket count, whose capacity holds the size |
| `DenseTables.Table.FillBucketsFromValues` | include/ankerl/unordered_dense.h:1026-1036 | Rebuilds the index of every value from cleared buckets |
| `DenseTables.Table.IncreaseSize` | include/ankerl/unordered_dense.h:1038-1050 | Doubles the buckets and rebuilds the index |
| `DenseTables.Table.PlaceElement` | include/ankerl/unordered_dense.h:1115-1131 | Appends one value, growing or placing its bucket, and keeps the table valid |
| `DenseTables.Table.TryEmplace` | include/ankerl/unordered_dense.h:1133-1155 | Inserts exactly if the key is absent, at the end; otherwise returns the index of its value and changes nothing |
| `DenseTables.Table.Emplace` | include/ankerl/unordered_dense.h:1572-1601 | As TryEmplace, although the value is appended before the search and dropped again if its key is present |
| `DenseTables.Table.Find` | include/ankerl/unordered_dense.h:1157-1195 | Returns the index of the key's value if there is one, and the end exactly if there is none |
| `DenseTables.Table.ShiftDown` | include/ankerl/unordered_dense.h:1056-1063 | Backward shift: removes one bucket and leaves probe order intact everywhere |
| `DenseTables.Table.DoErase` | include/ankerl/unordered_dense.h:1052-1083 | Removes one value by moving the last one into its place, and returns it |
| `DenseTables.Table.EraseKey` | include/ankerl/unordered_dense.h:1085-1104 | Removes the one value with the key, or nothing exactly if no value has it |
| `DenseTables.Table.ExtractAt` | include/ankerl/unordered_dense.h:1652-1680 | Removes and returns the value at an index |
| `DenseTables.Table.EraseRange` | include/ankerl/unordered_dense.h:1692-1714 | Removes exactly the values of the range: the values before it stay in place, and the rest is the rest, as a multiset |
| `DenseTables.Table.EraseIf` | include/ankerl/unordered_dense.h:2077-2096 | Back to front with the last value swapped in, removes exactly the values that match, and counts them |
| `DenseTables.Table.Replace` | include/ankerl/unordered_dense.h:1455-1505 | Leaves one value of the container per distinct key, in a valid table: what dropping each repeated key in favour of the last value leaves |
| `DenseTables.Table.Rehash` | include/ankerl/unordered_dense.h:1884-1894 | Keeps the values and leaves a capacity for the count and for them |
| `DenseTables.Table.Clear` | include/ankerl/unordered_dense.h:1404-1407 | Leaves a valid table of no values with the same buckets |
| `DenseTables.FilteredDrop` | include/ankerl/unordered_dense.h:2087-2093 | Swap-removing a match while going back to front leaves the kept values, with those below untouched |
| `DenseTables.MovedFromEnd` | include/ankerl/unordered_dense.h:1699-1704 | Each removal of the first loop moves one value from the end into the range |
| `DenseTables.RangeErased` | include/ankerl/unordered_dense.h:1692-1714 | After both loops exactly the range is gone, whichever of range and tail is longer |
| `DenseTables.UniqueDrop` | include/ankerl/unordered_dense.h:1495-1499 | Dropping a duplicate for the last value loses no key of the container and adds nothing to it |
| `DenseTables.PrefixStays` | include/ankerl/unordered_dense.h:1472-1495 | Of two values with one key the earlier survives: the longest prefix of distinct keys stays in place |
| `TableValues.AppendContents` | include/ankerl/unordered_dense.h:1115-1131 | Appending an absent key's value extends the map that the values stand for by that binding alone |
| `TableValues.SwapRemoveContents` | include/ankerl/unordered_dense.h:1066-1082 | Removing by swap removes exactly that key's binding from the map |
| `TableValues.SwapRemoveKey` | include/ankerl/unordered_dense.h:1066-1082 | After a removal by swap, the keys are those before without the removed one |
| `OrderedHashes.TruncatedHome` | include/tsl/ordered_hash.h:1520-1522 | With up to 2^32 buckets, masking the truncated hash gives the same ideal bucket as masking the whole hash |
| `OrderedHashes.RoundUpPower` | include/tsl/ordered_hash.h:1628-1643 | Rounding up gives a power of two, the count itself if it already is one |
| `OrderedHashes.RoundUpOfPower` | include/tsl/ordered_hash.h:1629-1631 | A power of two rounds to itself |
| `OrderedHashes.NeededBounds` | include/tsl/ordered_hash.h:956-967 | The ceiling of count over the load factor is at least the count, and holds it |
| `OrderedHashes.ThresholdHolds` | include/tsl/ordered_hash.h:948-954 | With that many buckets the count is within the load threshold |
| `OrderedHashes.TableAsserts` | include/tsl/ordered_hash.h:1234-1235 | The debug assertion holds whenever a valid table with a load factor of at least one half grows |
| `OrderedHashes.FullTableFails` | include/tsl/ordered_hash.h:1234-1235 | It fails whenever a full table with a load factor below one half grows |
| `OrderedHashes.FailingTable` | include/tsl/ordered_hash.h:1534-1543 | Such a table arises from the constructor and one insertion |
| `OrderedBuckets.Chain` | include/tsl/ordered_hash.h:1210-1231 | Behind a displaced bucket all buckets are in use, and distances fall by at most one a bucket |
| `OrderedBuckets.FreeExists` | include/tsl/ordered_hash.h:1474-1493 | A value without a bucket, in a table of no more values than buckets, leaves a free bucket: insertion ends although small tables become full |
| `OrderedBuckets.CarrySwap` | include/tsl/ordered_hash.h:1475-1481 | Taking the bucket of a value closer to its ideal keeps order, with that value now in hand |
| `OrderedBuckets.ShiftOrdered` | include/tsl/ordered_hash.h:1304-1311 | Swapping the hole with a displaced neighbour keeps order around the hole, which moves on |
| `OrderedBuckets.ShiftLowersTotal` | include/tsl/ordered_hash.h:1304-1311 | Each backward shift lowers the total distance by one, so it ends even without a free bucket or a value at home |
| `OrderedBuckets.GapLinked` | include/tsl/ordered_hash.h:1340-1354 | Shifting indexes up by one from p opens a gap in which every other bucket still follows its value |
| `OrderedBuckets.ForgetLinked` | include/tsl/ordered_hash.h:1340-1354 | Shifting indexes down by one closes the gap of a value without a bucket |
| `OrderedHashes.ProbeAbsent` | include/tsl/ordered_hash.h:1220-1229 | A free bucket, a richer probe, or a whole turn of a full table proves the key absent |
| `OrderedHashes.ProbePasses` | include/tsl/ordered_hash.h:1217-1230 | A probe that goes on has not passed the key |
| `OrderedHashes.OrderedHash.constructor` | include/tsl/ordered_hash.h:1650-1651 | A new map is valid with no buckets at all |
| `OrderedHashes.OrderedHash.FindKey` | include/tsl/ordered_hash.h:1214-1231 | Finds the bucket of the key, and the end exactly if no indexed value has it; ends even when every bucket is in use |
| `OrderedHashes.OrderedHash.Find` | include/tsl/ordered_hash.h:1214-1231 | Lookup agrees with membership in the value sequence, both ways |
| `OrderedHashes.OrderedHash.DistanceFromIdeal` | include/tsl/ordered_hash.h:1499-1511 | The circular distance from the ideal bucket |
| `OrderedHashes.OrderedHash.Displace` | include/tsl/ordered_hash.h:1475-1481 | Takes a poorer place's bucket and leaves its value in hand, with every other value indexed |
| `OrderedHashes.OrderedHash.PlaceTurn` | include/tsl/ordered_hash.h:1474-1485 | One probe of placing an index, by exchange or by going on, keeps every other value indexed and comes nearer to a free bucket |
| `OrderedHashes.OrderedHash.InsertIndex` | include/tsl/ordered_hash.h:1471-1497 | Gives the one unindexed value a bucket and keeps every other value indexed; asks to grow only at the minimum load |
| `OrderedHashes.OrderedHash.Reinsert` | include/tsl/ordered_hash.h:1265-1283 | The inner loop of rehashing gives one value a bucket in the new array |
| `OrderedHashes.OrderedHash.RehashImpl` | include/tsl/ordered_hash.h:1233-1285 | Every value is indexed again in the rounded bucket count, and the values are untouched |
| `OrderedHashes.OrderedHash.Refill` | include/tsl/ordered_hash.h:1260-1284 | Walking the old buckets indexes every value again exactly once |
| `OrderedHashes.OrderedHash.GrowOnHighLoad` | include/tsl/ordered_hash.h:1534-1543 | Doubles (or starts) the buckets exactly when asked or at the threshold, and leaves room for one more value |
| `OrderedHashes.OrderedHash.SearchForInsert` | include/tsl/ordered_hash.h:1376-1390 | Finds the key, or the place from which its index may be inserted |
| `OrderedHashes.OrderedHash.ShiftIndexesInBuckets` | include/tsl/ordered_hash.h:1340-1354 | Shifts exactly the indexes at or above the given one |
| `OrderedHashes.OrderedHash.Insert` | include/tsl/ordered_hash.h:1372-1408 | Appends exactly if the key is absent and there is room; otherwise returns its place or reports the limit, unchanged |
| `OrderedHashes.OrderedHash.InsertAtPosition` | include/tsl/ordered_hash.h:1414-1469 | Inserts exactly at the position, with everything after it one later, under the same conditions |
| `OrderedHashes.OrderedHash.BackwardShift` | include/tsl/ordered_hash.h:1301-1312 | Restores probe order after a bucket was cleared, and keeps the same values indexed |
| `OrderedHashes.OrderedHash.EraseValueFromBucket` | include/tsl/ordered_hash.h:1314-1333 | Removes the bucket's value from its position, keeping the order of the others and their index |
| `OrderedHashes.OrderedHash.EraseKey` | include/tsl/ordered_hash.h:1356-1366 | Removes the one value with the key in order, or nothing exactly if there is none |
| `OrderedHashes.OrderedHash.EraseAt` | include/tsl/ordered_hash.h:728-743 | Removes the value at an index in order |
| `OrderedHashes.OrderedHash.UnorderedErase` | include/tsl/ordered_hash.h:1083-1109 | Removes the key's value with the last one moved into its place |
| `OrderedHashes.Traded` | include/tsl/ordered_hash.h:1100-1103 | Swapping two values together with their buckets' indexes keeps the index whole |
| `OrderedHashes.OrderedHash.CompactTurn` | include/tsl/ordered_hash.h:1139-1148 | One turn of the compaction drops or moves down one value and its bucket |
| `OrderedHashes.OrderedHash.EraseIf` | include/tsl/ordered_hash.h:1115-1153 | Leaves exactly the values that do not match, in order, and counts the others |
| `OrderedHashes.OrderedHash.Rehash` | include/tsl/ordered_hash.h:956-960 | At least the count of buckets, and a threshold that holds the values |
| `OrderedHashes.OrderedHash.Reserve` | include/tsl/ordered_hash.h:962-967 | A threshold that holds the count |
| `OrderedHashes.OrderedHash.Clear` | include/tsl/ordered_hash.h:629-636 | Leaves a valid map of no values with the same buckets |
| `Lattice.StageLossless` | src/audio/audio_phaser_dsp.h:22-25 | A stage with k^2 + q^2 = 1 keeps the sum of squares |
| `Lattice.WeightedStep` | src/audio/audio_phaser_dsp.h:27-31 | The identity V' = sum a_i s_i^2 + a_1 u^2 - d sum y_i^2, at every stage |
| `Lattice.PassedBound` | src/audio/audio_phaser_dsp.h:32-33 | sum y_i^2 is at least q^2/4 sum s_i^2 less u^2/2 |
| `Lattice.Lossless` | src/audio/audio_phaser_dsp.h:22-25 | A frame turns the stored energy into that of the stages plus the square of what was fed in |
| `Lattice.SilentNeverGrows` | src/audio/audio_phaser_dsp.h:22-25 | Without input the stored energy never grows for feedback of magnitude at most one |
| `Lattice.SilentContracts` | src/audio/audio_phaser_dsp.h:35 | V' <= rho V on every silent frame, for any corner with q at least Q and any feedback of magnitude at most G |
| `Lattice.EnergyDecays` | src/audio/audio_phaser_dsp.h:37-39 | Over any sequence of such coefficients the stored energy is at most a_1 rho^n times its start |
| `Lattice.LaterOutputBelow` | src/audio/audio_phaser_dsp.h:387-391 | Once the energy is within the square of the residual, every later silent output is within the residual |
| `Lattice.HeadroomKept` | src/audio/audio_phaser_dsp.h:39-40 | V stays within h times the squared input peak, where a_1 <= h (1 - sqrt rho)^2 |
| `PhaserMath.Orthogonal` | src/audio/audio_phaser_dsp.h:91-96 | k^2 + q^2 = 1 for every corner |
| `Lattice.StageTransfer` | src/audio/audio_phaser_dsp.h:17-18 | At a steady corner a stage is the all-pass H(z) = (z^-1 - k) / (1 - k z^-1): its difference equation holds between any two inputs |
| `Lattice.CascadeTransfer` | src/audio/audio_phaser_dsp.h:349-357 | So is every stage of the cascade, between the signals before and behind it |
| `Lattice.FirstThrough` | src/audio/audio_phaser_dsp.h:348-358 | What resting stages first let through is (-k)^6 of the input plus the feedback |
| `PhaserMath.QuarterTurn` | src/audio/audio_phaser_dsp.h:17-18 | A stage turns the phase by -90 degrees at its corner |
| `PhaserMath.KFalls` | src/audio/audio_phaser_dsp.h:91-94 | A higher corner has a smaller k |
| `PhaserMath.QSmallestAtEnds` | src/audio/audio_phaser_dsp.h:89-96 | On a range of corners q is smallest at one of its ends |
| `PhaserMath.StepFits` | src/audio/audio_phaser_dsp.h:106-118 | The weight step is positive, and the feedback term it leaves is at most 0.9 + 0.1 g^2 |
| `PhaserMath.StepLargest` | src/audio/audio_phaser_dsp.h:106-118 | It is the largest step, up to 10, that leaves no larger feedback term |
| `PhaserMath.ContractionHolds` | src/audio/audio_phaser_dsp.h:115-123 | The chosen weight and rate satisfy both conditions of the contraction, with a rate strictly below one |
| `PhaserMath.WithinKept` | src/audio/audio_phaser_dsp.h:221-223 | A ramp stays inside the corners and feedback between its ends, frame after frame |
| `PhaserMath.WithinStarts` | src/audio/audio_phaser_dsp.h:225-234 | The bounds refreshed by an edit cover the ramp that it starts |
| `PhaserMath.RampRuns` | src/audio/audio_phaser_dsp.h:278-288 | n frames after an edit every value is n / frames of the way to its target, which it reaches and keeps |
| `PhaserProcessors.CoefficientsBounded` | src/audio/audio_phaser_dsp.h:225-234 | At every phase the swept corner has a q of at least the refreshed bound's |
| `PhaserProcessors.CoefficientsClamped` | src/audio/audio_phaser_dsp.h:129-134 | Clamped corners have a q of at least that of the two extreme corners |
| `PhaserProcessors.Sweeps` | src/audio/audio_phaser_dsp.h:7-9 | The sweep is centred, moves by the depth in octaves either way, and rises with the sine; k falls as it rises |
| `PhaserProcessors.PhaseTurns` | src/audio/audio_phaser_dsp.h:367-368 | With settled values the phase turns by the increment a frame, around the circle |
| `PhaserProcessors.OutputBlends` | src/audio/audio_phaser_dsp.h:365 | At mix 0 the output is the clamped input, at mix 1 what the cascade leaves in its loop while there is history and silence without, and in between it lies on the line from one to the other |
| `PhaserProcessors.FirstHeard` | src/audio/audio_phaser_dsp.h:333-365 | After silence and fully wet, the first frame is heard as k^6 times the clamped input, at the corner of that frame |
| `PhaserProcessors.EditTakesEffect` | src/audio/audio_phaser_dsp.h:271-288 | Over any frames after an edit, every setting follows its line and is on its target from the last frame of the ramp on |
| `PhaserProcessors.FrameStays` | src/audio/audio_phaser_dsp.h:329-394 | A frame keeps every channel within the headroom, the ramp within its bounds and skipped history at rest |
| `PhaserProcessors.AlwaysStable` | src/audio/audio_phaser_dsp.h:37-40 | So does every run of frames and edits |
| `PhaserProcessors.SkippedIsExact` | src/audio/audio_phaser_dsp.h:325-327 | With no live history and silent input, running the cascade would change nothing and output zero |
| `PhaserProcessors.RetiredInaudible` | src/audio/audio_phaser_dsp.h:387-392 | When history is retired, no later sequence of supported coefficients would have made it louder than the residual |
| `PhaserProcessors.SilentFramesContract` | src/audio/audio_phaser_dsp.h:37-39 | Silent frames contract the weighted energy of all channels by rho each, through ramps, while history is live |
| `PhaserProcessors.TailEnds` | src/audio/audio_phaser_dsp.h:136-148 | After as many silent frames as the source's bound says, history is retired, with one channel or two |
| `Lattice.ValueScales` | src/audio/audio_phaser_dsp.h:37-39 | V under a larger weight step is at most the ratio of the first weights times V under a smaller one |
| `PhaserMath.StepFalls` | src/audio/audio_phaser_dsp.h:117-118 | The weight step is smallest at the largest feedback |
| `PhaserProcessors.BoundSuffices` | src/audio/audio_phaser_dsp.h:142-148 | The source's bound is enough for the summed energy of two channels: its margin of 1% makes up for the sum |
| `PhaserProcessors.TailEndsAfterAnyRun` | src/audio/audio_phaser_dsp.h:136-148 | The same after any run of frames and edits from a stable start |
| `PhaserProcessors.PhaserProcessor.RunCascade` | src/audio/audio_phaser_dsp.h:347-363 | The six-stage loops compute the lattice step of every channel and the energy that it leaves |
| `PhaserProcessors.PhaserProcessor.Update` | src/audio/audio_phaser_dsp.h:271-288 | An edit aims every ramp from its current value, and does nothing while inactive, about to be reset, or for another rate |
| `PhaserProcessors.PhaserProcessor.NothingPending` | src/audio/audio_phaser_dsp.h:291-293 | After any run of frames and edits, pending() is false once tail_frames() silent frames were processed |
| `PhaserProcessors.PhaserProcessor.Retire` | src/audio/audio_phaser_dsp.h:213-219 | Retirement clears all history |
| `PhaserProcessors.PhaserProcessor.ProcessFrame` | src/audio/audio_phaser_dsp.h:332-393 | One frame is the modelled step, and its output the modelled mix |
| `PhaserProcessors.PhaserProcessor.Process` | src/audio/audio_phaser_dsp.h:329-394 | A buffer is its frames in order; an inactive processor leaves it alone |
| `Ramps.LineNext` | src/audio/audio_delay_dsp.h:457-472 | A ramp step moves along the line to its target |
| `Ramps.MovedBetween` | src/audio/audio_delay_dsp.h:457-472 | A ramp stays between bounds on its ends, and ends exactly on its target |
| `Ramps.AimedBetween` | src/audio/audio_delay_dsp.h:323-333 | An edit's ramp starts within the bounds of where it is and where it goes |
| `Ramps.LineRamps` | src/audio/audio_delay_dsp.h:323-333 | n frames after an edit a value is n / frames of the way to its new end, which it reaches and keeps |
| `AudioFrames.SilentDry` | src/audio/audio_delay_dsp.h:406-411 | A silent frame is unchanged on entry and sets no input |
| `DelayLines.RingReads` | src/audio/audio_delay_dsp.h:226-231 | Through the count of written frames, a ring read is the recorded history followed by silence, as if the ring had been zero-filled |
| `DelayLines.RingWrites` | src/audio/audio_delay_dsp.h:442-453 | A write at the cursor extends that history by one frame |
| `DelayLines.TapWithin` | src/audio/audio_delay_dsp.h:233-239 | An interpolated read never exceeds a bound on the samples it can reach |
| `DelayLines.WholeTap` | src/audio/audio_delay_dsp.h:233-239 | A read at a whole distance is that sample |
| `DelayLines.FractionalTap` | src/audio/audio_delay_dsp.h:233-239 | Between two whole distances a read lies on the line from one sample to the other |
| `DelayLines.CrossfadeEnds` | src/audio/audio_delay_dsp.h:402-418 | A head crossfade starts on the old head, moves by equal steps and ends on the new one |
| `DelayLines.CrossfadedWithin` | src/audio/audio_delay_dsp.h:415-419 | A crossfade of two reads never exceeds a bound on what either can reach |
| `DelayLines.EditedIn` | src/audio/audio_delay_dsp.h:335-343 | An edit leaves every head, started or queued, within the supported distances |
| `DelayLines.EditArrives` | src/audio/audio_delay_dsp.h:335-343 | Within two crossfades after an edit the heads rest at its time, even if another crossfade was running |
| `DelayLines.EditContinues` | src/audio/audio_delay_dsp.h:217-221 | An edit makes no jump: right after it, and after a queued time has started, the read is what it was before |
| `DelayLines.SettledTracked` | src/audio/audio_delay_dsp.h:476-479 | The quiet counter counts exactly frames whose stored samples are within the residual |
| `DelayLines.RetiredWithinResidual` | src/audio/audio_flanger_dsp.h:397-400 | At retirement every readable sample is within the residual |
| `DelayLines.QuietRetires` | src/audio/audio_flanger_dsp.h:397-400 | Frames that all count as quiet retire live history within a capacity |
| `DelayLines.History.Sample` | src/audio/audio_delay_dsp.h:226-231 | The ring read of the class is the recorded history |
| `DelayLines.History.Read` | src/audio/audio_delay_dsp.h:233-239 | The interpolated read is the tap of that history |
| `DelayLines.History.Write` | src/audio/audio_delay_dsp.h:442-479 | The write loop stores the flushed frame, measures it and counts quiet frames or retires |
| `Flangers.SweepRange` | src/audio/audio_flanger_dsp.h:347 | The sweep stays between zero and the largest depth |
| `Flangers.HeadsReach` | src/audio/audio_flanger_dsp.h:188-193 | Both heads read at most the reach that the bounds were refreshed with |
| `Flangers.UpdateWithin` | src/audio/audio_flanger_dsp.h:188-196 | Bounds refreshed by an edit cover the ramps and heads that it leaves |
| `Flangers.FrameStable` | src/audio/audio_flanger_dsp.h:21-23 | A frame keeps every stored sample within ten times the largest input, and its bounds |
| `Flangers.SettledFrame` | src/audio/audio_flanger_dsp.h:346-375 | At a whole swept distance the flanger is the comb x + g w(n - D), heard in proportion to the mix |
| `Flangers.SweepEnds` | src/audio/audio_flanger_dsp.h:347-350 | The swept distance is the delay itself where the cosine is one, the whole depth further where it is minus one, and grows as the cosine falls |
| `Flangers.PhaseTurns` | src/audio/audio_flanger_dsp.h:12-15 | With settled values the phase turns by the increment a frame, around the circle |
| `Flangers.EditTakesEffect` | src/audio/audio_flanger_dsp.h:253-279 | Over any frames after an edit, every setting follows its line to its target, and the heads rest at its delay within two crossfades |
| `Flangers.SilentWrite` | src/audio/audio_flanger_dsp.h:73-76 | A silent write is at most the gain times what lies one reach back |
| `Flangers.SilentFramesFall` | src/audio/audio_flanger_dsp.h:73-77 | Writes in window j after the input ends are at most g^(j+1) times the level at its end, through ramps and crossfades |
| `Flangers.TailEnds` | src/audio/audio_flanger_dsp.h:188-196 | With enough passes, history is retired a capacity later |
| `Flangers.TailEndsAfterAnyRun` | src/audio/audio_flanger_dsp.h:188-196 | After any run of frames and edits samples are within the headroom, and silence retires history within tail_frames() |
| `Flangers.FlangerProcessor.Update` | src/audio/audio_flanger_dsp.h:253-279 | An edit aims the ramps and starts, queues or replaces one head change, and does nothing while inactive, about to be reset, or for another rate |
| `Flangers.FlangerProcessor.NothingPending` | src/audio/audio_flanger_dsp.h:282-284 | After any run of frames and edits, pending() is false once tail_frames() silent frames were processed |
| `Flangers.FlangerProcessor.ReadTaps` | src/audio/audio_flanger_dsp.h:346-357 | The read loops compute the modelled taps |
| `Flangers.FlangerProcessor.ProcessFrame` | src/audio/audio_flanger_dsp.h:328-401 | One frame is the modelled step, and its output the modelled mix |
| `Flangers.FlangerProcessor.Process` | src/audio/audio_flanger_dsp.h:325-402 | A buffer is its frames in order; an inactive processor leaves it alone |
| `Delays.RoutingMatrices` | src/audio/audio_delay_dsp.h:10-11 | The ends of the routing weight are the two documented pairs of matrices |
| `Delays.RoutingCrossfades` | src/audio/audio_delay_dsp.h:13-14 | Between them every weight gives the blend of the two modes |
| `Delays.Routed` | src/audio/audio_delay_dsp.h:13-15 | The routing never amplifies: an injected sample is at most the input peak plus the gain times the feedback bound |
| `Delays.UpdateWithin` | src/audio/audio_delay_dsp.h:254-262 | Bounds refreshed by an edit cover the ramps and heads that it leaves |
| `Delays.FrameWithin` | src/audio/audio_delay_dsp.h:392-481 | A frame keeps ramps and heads within them |
| `Delays.FrameStable` | src/audio/audio_delay_dsp.h:15-17 | A frame keeps every stored sample and filter within twenty times the largest input since the last clear |
| `Delays.SteadyFrame` | src/audio/audio_delay_dsp.h:413-455 | Unfiltered at a whole distance: the echo returns scaled by the gain, the input joins it, and both are mixed |
| `Delays.EchoTrain` | src/audio/audio_delay_dsp.h:5-8 | After one frame of input the ring holds that frame at every multiple of the distance, scaled by the gain once per repeat, and zeros between |
| `Delays.EchoAt` | src/audio/audio_delay_dsp.h:5-8 | The repeat j of a sample is g^j times it |
| `Delays.EchoBetween` | src/audio/audio_delay_dsp.h:5-8 | Between the repeats there is silence |
| `Delays.EchoHeard` | src/audio/audio_delay_dsp.h:455 | What is heard is the wet share of that train, one distance later |
| `Delays.LowPassFollows` | src/audio/audio_delay_dsp.h:422-423 | The filter moves from its state towards what it is given, stays 1 - a of the way behind, and is there at a = 1 |
| `Delays.DampedFrame` | src/audio/audio_delay_dsp.h:413-451 | What returns under a filter is the gain times the blend of the echo and the filtered echo |
| `Delays.FirstRepeat` | src/audio/audio_delay_dsp.h:413-451 | One distance after a frame of input, the first damped repeat is stored: the gain times the blend of that frame and of a times it, with silence before |
| `Delays.EditTakesEffect` | src/audio/audio_delay_dsp.h:318-346 | Over any frames after an edit, every setting follows its line to its target, and the heads rest at its time within two crossfades |
| `Delays.ModeTakesEffect` | src/audio/audio_delay_dsp.h:321-328 | From the last frame of a ramp on, what is recorded follows the matrix of the mode that was set; ping-pong is for stereo |
| `Delays.KeptWithin` | src/audio/audio_delay_dsp.h:434-451 | What a frame stores stays within the headroom, for every gain, blend, routing and head in bounds |
| `Delays.FilterDecays` | src/audio/audio_delay_dsp.h:96 | The filter state stays under C r^n, given (1 - a) + a q r <= r |
| `Delays.SlowestFilter` | src/audio/audio_delay_dsp.h:99 | The slowest filter governs: the condition for the least coefficient holds for every larger one |
| `Delays.SilentSignals` | src/audio/audio_delay_dsp.h:92-97 | Filter and feedback of a silent frame are within C r^n |
| `Delays.SilentFramesDecay` | src/audio/audio_delay_dsp.h:92-107 | After input ends every write and filter state stays under C r^n, for every gain, coefficient, routing and distance in bounds |
| `Delays.BracketValid` | src/audio/audio_delay_dsp.h:132-133 | Every q between g and 1 with the larger of the two rates satisfies both conditions of the decay |
| `Delays.FilterRateHolds` | src/audio/audio_delay_dsp.h:124 | The filter rate, and every larger one, satisfies the filter condition |
| `Delays.DecayRate` | src/audio/audio_delay_dsp.h:121-133 | The bisection ends with a valid rate, the filter's own unless the bracket never moved from one; it is below one exactly if the bracket moved or there is no filter |
| `Delays.DecaysInTime` | src/audio/audio_delay_dsp.h:133-139 | The tail takes finitely many frames exactly if the rate is below one; otherwise the source's bound is unlimited |
| `Delays.TailEnds` | src/audio/audio_delay_dsp.h:101-107 | Once r^n has brought the headroom below the residual, silence retires history a capacity later |
| `Delays.TailEndsWithoutFeedback` | src/audio/audio_delay_dsp.h:115-119 | Without feedback the ring is silent at once and the filters drain by 1 - a a frame after one pass |
| `Delays.TailEndsAfterAnyRun` | src/audio/audio_delay_dsp.h:254-263 | After any run of frames and edits the headroom holds, and silence retires history within the decay and a capacity, with feedback or without |
| `Delays.DelayProcessor.constructor` | src/audio/audio_delay_dsp.h:365-387 | A reset processor is silent, on its targets and within their bounds |
| `Delays.DelayProcessor.Update` | src/audio/audio_delay_dsp.h:318-346 | An edit aims the ramps and starts, queues or replaces one head change, and does nothing while inactive, about to be reset, or for another rate |
| `Delays.DelayProcessor.NothingPending` | src/audio/audio_delay_dsp.h:349-351 | After any run of frames and edits, pending() is false once as many silent frames were processed as the tail bound allows for |
| `Delays.DelayProcessor.ReadDelayed` | src/audio/audio_delay_dsp.h:413-418 | The read loops compute the modelled delayed signal |
| `Delays.DelayProcessor.RunFilters` | src/audio/audio_delay_dsp.h:421-423 | The filter loop is the modelled low-pass, flushed |
| `Delays.DelayProcessor.ProcessFrame` | src/audio/audio_delay_dsp.h:395-480 | One frame is the modelled step, and its output the modelled mix |
| `Delays.DelayProcessor.Process` | src/audio/audio_delay_dsp.h:392-481 | A buffer is its frames in order; an inactive processor leaves it alone |
| `PeakDeques.FrontIsMax` | src/audio/audio_limiter_dsp.h:119-120 | The front of the deque is the maximum of the window |
| `PeakDeques.NeverOverflows` | src/audio/audio_limiter_dsp.h:98 | The deque never holds more than lookahead + 1 entries |
| `PeakDeques.Tracked` | src/audio/audio_limiter_dsp.h:122-141 | Dropping old entries and smaller or equal peaks, then appending, keeps the deque's meaning for the next window |
| `PeakDeques.PeakDeque.Track` | src/audio/audio_limiter_dsp.h:122-141 | The circular deque returns the maximum of the last lookahead + 1 levels |
| `Limiters.DelayedInWindow` | src/audio/audio_limiter_dsp.h:279-281 | The delayed frame's level is within the window maximum |
| `Limiters.EnvelopeSuffices` | src/audio/audio_limiter_dsp.h:279-281 | Whatever the earlier envelope, the new one meets the ceiling unless it falls below the snap level |
| `Limiters.GuardNeeded` | src/audio/audio_limiter_dsp.h:272-286 | The guard acts exactly when the delayed frame is above the ceiling and the envelope before snapping is below the snap level |
| `Limiters.GuardOnlyBelowSnap` | src/audio/audio_limiter_dsp.h:279-286 | So whenever it acts the required reduction lies strictly between zero and the snap level |
| `Limiters.GuardActs` | src/audio/audio_limiter_dsp.h:283-286 | It does act: two frames after a reset, for a first frame above the ceiling by less than the snap level |
| `Limiters.OutputBelowCeiling` | src/audio/audio_limiter_dsp.h:283-289 | Every output sample of every channel is at or below the ceiling |
| `Limiters.WindowIs` | src/audio/audio_limiter_dsp.h:98-120 | The window's maximum is that of the frames of at most lookahead frames ago, and one of them has it |
| `Limiters.LoudestMeetsCeiling` | src/audio/audio_limiter_dsp.h:272-289 | Where the loudest frame of its window leaves under the required reduction, its level is the ceiling exactly |
| `Limiters.QuietUnchanged` | src/audio/audio_limiter_dsp.h:272-289 | While the window is within the ceiling and no release is left, frames leave unchanged |
| `Limiters.Releases` | src/audio/audio_limiter_dsp.h:273-276 | While nothing asks for more, the decibels of the envelope fall by the release factor, and the output has exactly that attenuation |
| `Limiters.ReportsGain` | src/audio/audio_limiter_dsp.h:276-287 | The reported decibels are those that the frame was attenuated by, guard included |
| `Limiters.EditTakesEffect` | src/audio/audio_limiter_dsp.h:191-204 | Over any frames after an edit, gain and release follow their lines and are on their targets from the last frame of the ramp on |
| `Limiters.OutputIsDelayedInput` | src/audio/audio_limiter_dsp.h:250-289 | Over every run from reset of frames, calls, edits and ceilings, each output frame is the input of exactly lookahead input frames before under its own input gain, times one gain shared by all channels; zero before |
| `Limiters.HistoryIsInput` | src/audio/audio_limiter_dsp.h:256-265 | Over every such run, what is stored of input frame k is that frame under the input gain of its time |
| `Limiters.ProcessIsRun` | src/audio/audio_limiter_dsp.h:244-302 | A call of process() is the run of its frames at one ceiling, with the reduction measured afresh |
| `Limiters.OccupiedMoves` | src/audio/audio_limiter_dsp.h:267 | The occupied counter follows the frames that enter and leave |
| `Limiters.PendingMeans` | src/audio/audio_limiter_dsp.h:212 | The counter is zero exactly if every delayed frame is silent |
| `Limiters.SilentOutput` | src/audio/audio_limiter_dsp.h:206-208 | With nothing occupied the output is zero whatever the release envelope |
| `Limiters.TailIsLookahead` | src/audio/audio_limiter_dsp.h:210 | After lookahead silent frames nothing is occupied |
| `Limiters.LimiterProcessor.Reset` | src/audio/audio_limiter_dsp.h:221-239 | Reset leaves an empty window and a silent delay, cleared only if it may be dirty, and takes the targets if it activates |
| `Limiters.LimiterProcessor.Update` | src/audio/audio_limiter_dsp.h:191-204 | The ceiling applies at once; gain and release ramp, unless the limiter is inactive or about to be reset |
| `Limiters.LimiterProcessor.PendingIs` | src/audio/audio_limiter_dsp.h:212 | pending() exactly if the limiter is active and some frame in the delay is not silent |
| `Limiters.LimiterProcessor.NothingPending` | src/audio/audio_limiter_dsp.h:210-212 | pending() is false after lookahead silent frames |
| `Limiters.LimiterProcessor.ProcessFrame` | src/audio/audio_limiter_dsp.h:250-301 | One frame is the modelled step and output |
| `Limiters.LimiterProcessor.Process` | src/audio/audio_limiter_dsp.h:244-302 | A buffer is its frames in order, with the reduction measured over this call alone; an inactive limiter clears only that |
| `LoopBlocks.Tiles` | include/bs_thread_pool.h:457-507 | Blocks begin at the first index, end after the last, meet without gaps and differ in size by at most one; never more than wanted |
| `LoopBlocks.ExactlyOneBlock` | include/bs_thread_pool.h:457-507 | Every index lies in exactly one block |
| `LoopBlocks.RunBlock` | include/bs_thread_pool.h:1366-1367 | A block's task calls the loop for its indices in order |
| `LoopBlocks.DetachLoop` | include/bs_thread_pool.h:1355-1372 | The tasks of a loop call it for every index exactly once, in order across the blocks |
| `ThreadPools.CreatedInv` | include/bs_thread_pool.h:1896-1902 | A created pool counts every starting worker as running |
| `ThreadPools.StepCounted` | include/bs_thread_pool.h:1996-2020 | tasks_running is the number of workers starting up or holding a task, after every step |
| `ThreadPools.StepNotForgotten` | include/bs_thread_pool.h:1411-1421 | No queued task misses its wakeup: every one has a notification or a woken worker, unless nobody sleeps beyond the notifications |
| `ThreadPools.StepServed` | include/bs_thread_pool.h:1997-2007 | No blocked waiter misses its wakeup: while one is blocked, work remains |
| `ThreadPools.StepAccounted` | include/bs_thread_pool.h:1957-1966 | Tasks before the queue are held by one worker or finished, never both |
| `ThreadPools.StepInv` | include/bs_thread_pool.h:1989-2038 | Every step of workers, submitters and the waiter keeps all of these |
| `ThreadPools.AlwaysInv` | include/bs_thread_pool.h:1989-2038 | So does every run from creation, in any interleaving and with spurious wakeups |
| `ThreadPools.ExactlyOnePlace` | include/bs_thread_pool.h:1989-2038 | Every submitted task is in exactly one of queued, held and finished |
| `ThreadPools.WaitReturnsDone` | include/bs_thread_pool.h:1781-1801 | wait() returns only with nothing queued or held and every submitted task finished |
| `ThreadPools.InternalProgress` | include/bs_thread_pool.h:1989-2038 | Every step of the pool itself lowers a rank, so it cannot run on without new work |
| `ThreadPools.RestIsDone` | include/bs_thread_pool.h:1781-1801 | A pool with no step left has finished every task and released its waiter |
| `PeakRegions.ScanPeaks` | src/audio/audio_pitchshift_dsp.h:346-356 | The scan and its separate edge bins collect exactly the peaks, in order |
| `PeakRegions.FindPeaks` | src/audio/audio_pitchshift_dsp.h:329-357 | Peaks above the floor relative to the top, or none if there is no power |
| `PeakRegions.ComputePowers` | src/audio/audio_pitchshift_dsp.h:331-339 | The power of every bin, summed over the channels |
| `PeakRegions.PeaksExist` | src/audio/audio_pitchshift_dsp.h:342-356 | A spectrum with a positive maximum has a peak |
| `PeakRegions.PeaksApart` | src/audio/audio_pitchshift_dsp.h:346-356 | Peaks are at least three bins apart |
| `PeakRegions.PeaksFit` | src/audio/audio_pitchshift_dsp.h:341-357 | So there are at most half as many as bins, plus one |
| `PeakRegions.FindLowest` | src/audio/audio_pitchshift_dsp.h:371-372 | The boundary is the first lowest bin between two peaks |
| `PeakRegions.RegionsTile` | src/audio/audio_pitchshift_dsp.h:365-416 | Every bin lies in exactly one region, and every region holds its own peak |
| `PeakRegions.MoveInRange` | src/audio/audio_pitchshift_dsp.h:398 | Every bin that a move reads or writes is inside the spectrum |
| `PeakRegions.AdvanceNear` | src/audio/audio_pitchshift_dsp.h:382-393 | The estimated frequency of a peak is within half an overlap's bins of its own bin |
| `PeakRegions.FrequencyMeasured` | src/audio/audio_pitchshift_dsp.h:382-393 | The measured frequency of a stationary partial of less than half an overlap from its peak is its own |
| `PeakRegions.MoveNearest` | src/audio/audio_pitchshift_dsp.h:396-397 | At any ratio but one, a peak lands within half a bin of its own bin plus (b - 1) f, so within half a bin and its distance from f of b f, and the makeup gain is for exactly the rest |
| `PeakRegions.PartialMoves` | src/audio/audio_pitchshift_dsp.h:24-29 | So a stationary partial moves to the bin nearest to where it belongs at the new ratio |
| `PeakRegions.PhaseGoesOn` | src/audio/audio_pitchshift_dsp.h:26-28 | The turn of a peak over a hop and of its rotation together are the ratio times the turn, up to whole turns: the partial leaves with that frequency |
| `PeakRegions.RegionArrives` | src/audio/audio_pitchshift_dsp.h:398-415 | In the moved spectrum, every bin of a region is found rotated where it lands, if no other region lands there |
| `PeakRegions.RotatedIs` | src/audio/audio_pitchshift_dsp.h:401-413 | Whatever arrives is the complex product with the phasor of its region's gain and rotation |
| `PeakRegions.UnityCopies` | src/audio/audio_pitchshift_dsp.h:405-407 | With no rotation at unity ratio, the moved spectrum is exactly the spectrum |
| `PeakRegions.Realigns` | src/audio/audio_pitchshift_dsp.h:377-380 | A hop at unity ratio takes a sixteenth of pi off the largest rotation |
| `PeakRegions.RealignedInSixteen` | src/audio/audio_pitchshift_dsp.h:377-380 | Sixteen live hops at unity ratio bring every rotation to zero |
| `PeakRegions.RealignStepIs` | src/audio/audio_pitchshift_dsp.h:377-380 | The step is exactly a sixteenth of pi towards zero, and no further |
| `PeakRegions.RotationBounded` | src/audio/audio_pitchshift_dsp.h:377-394 | Rotations stay within pi at every ratio |
| `PeakRegions.SilentShift` | src/audio/audio_pitchshift_dsp.h:359-362 | A silent spectrum moves nothing and forgets every rotation |
| `PeakRegions.AddMoved` | src/audio/audio_pitchshift_dsp.h:402-415 | Adding one region's moved bins changes exactly the bins it lands on |
| `PeakRegions.Shift` | src/audio/audio_pitchshift_dsp.h:325-419 | The loops over regions and channels compute the sum of all moves, and each bin's rotation is its region's |
| `PitchShifters.FrameKeeps` | src/audio/audio_pitchshift_dsp.h:618-660 | Every frame keeps the ageing invariant: how much of input, accumulator, emit and dry buffers is already zero for the countdown |
| `PitchShifters.Expired` | src/audio/audio_pitchshift_dsp.h:614-616 | When the countdown is zero, input, accumulator, emit and dry buffers are all exactly zero |
| `PitchShifters.SkippingIsExact` | src/audio/audio_pitchshift_dsp.h:614-616 | So skipping the transforms gives the same state and output as running them |
| `PitchShifters.SilentFramesKeep` | src/audio/audio_pitchshift_dsp.h:614-616 | Running the transforms on every silent frame gives the states that skipping them gives |
| `PitchShifters.TailEnds` | src/audio/audio_pitchshift_dsp.h:51-53 | 2N - 1 frames after the last input every buffer is zero: even with every transform evaluated the output is zero from then on |
| `PitchShifters.CountsDown` | src/audio/audio_pitchshift_dsp.h:634-635 | The countdown falls by one a silent frame |
| `PitchShifters.HopAged` | src/audio/audio_pitchshift_dsp.h:464-485 | A hop moves the zeros of the three buffers on by one hop |
| `PitchShifters.PitchShiftProcessor.FinishHop` | src/audio/audio_pitchshift_dsp.h:464-485 | The copies of a hop emit, shift and clear the buffers as modelled |
| `PitchShifters.PitchShiftProcessor.NothingPending` | src/audio/audio_pitchshift_dsp.h:574-577 | pending() is false after tail_frames() silent frames, and already one frame earlier |
| `PitchShifters.PitchShiftProcessor.Exchange` | src/audio/audio_pitchshift_dsp.h:637-647 | A live frame stores the input in both buffers and mixes the delayed and the emitted sample |
| `PitchShifters.PitchShiftProcessor.ProcessFrame` | src/audio/audio_pitchshift_dsp.h:622-659 | One frame is the modelled step and output |
| `PitchShifters.PitchShiftProcessor.Process` | src/audio/audio_pitchshift_dsp.h:618-660 | A buffer is its frames in order; an inactive processor leaves it alone |
| `PitchUnity.HopDelays` | src/audio/audio_pitchshift_dsp.h:464-485 | A hop emits samples whose overlapping gains are complete, and keeps the others partly summed in place |
| `PitchUnity.FedDelays` | src/audio/audio_pitchshift_dsp.h:637-653 | A frame joins the input window and the dry delay, each at its own place |
| `PitchUnity.RunDelays` | src/audio/audio_pitchshift_dsp.h:41-43 | Over every run at zero semitones the buffers hold exactly the input, the partial overlaps and the delayed samples due |
| `PitchUnity.UnityIsDelay` | src/audio/audio_pitchshift_dsp.h:41-43 | If unrotated windows come back under gains that overlap to one, every output frame is the input frame of exactly N frames before under the trim, whatever the mix |
| `PitchOverlaps.RunHolds` | src/audio/audio_pitchshift_dsp.h:622-659 | Over every run at every ratio the buffers hold the input of the last N frames, twice, and the overlapping contributions of the hops |
| `PitchOverlaps.HopHolds` | src/audio/audio_pitchshift_dsp.h:477-484 | A hop adds its contribution, emits the first part of the sum and moves window and accumulator on |
| `PitchOverlaps.WindowIsInput` | src/audio/audio_pitchshift_dsp.h:640-641 | The windows of a hop are the last N frames of input |
| `PitchOverlaps.OutputMixes` | src/audio/audio_pitchshift_dsp.h:10 | At every ratio the output is, under the trim, the input of N frames before at mix 0, the overlapping contributions at mix 1, and in between on the line from one to the other |
| `PitchShifters.EditTakesEffect` | src/audio/audio_pitchshift_dsp.h:558-569 | Over any frames after an edit the ratio is the new one, and mix and trim follow their lines to their targets |
| `PitchWindows.StereoRepacked` | src/audio/audio_pitchshift_dsp.h:308-318 | Separating two channels from one transform and packing them again changes nothing |
| `PitchWindows.RealSpectrum` | src/audio/audio_pitchshift_dsp.h:290-291 | The spectrum of a real signal is its own conjugate mirror, over any ring with a conjugation |
| `PitchWindows.MonoRepacked` | src/audio/audio_pitchshift_dsp.h:433-447 | So the mirrored half spectrum of one channel is its whole spectrum |
| `PitchWindows.SpectraRepacked` | src/audio/audio_pitchshift_dsp.h:424-448 | Packing the spectra that analysis made gives back the transform, with one channel or two |
| `PitchStereos.SymmetricIsReal` | src/audio/audio_pitchshift_dsp.h:424-448 | The inverse transform of a symmetric spectrum is real |
| `PitchStereos.ChannelsSeparate` | src/audio/audio_pitchshift_dsp.h:424-459 | Whatever the two spectra, the packed inverse transform has the left channel alone in its real part and the right one alone in its imaginary part |
| `PitchWindows.WindowReturns` | src/audio/audio_pitchshift_dsp.h:293-459 | Analysis and synthesis of a window that is left alone give it back under the squared window and the overlap gain |
| `PitchTransforms.Transform` | src/audio/audio_pitchshift_dsp.h:197-226 | fft() in place on complex samples, either way |
| `PitchTransforms.Analyse` | src/audio/audio_pitchshift_dsp.h:293-321 | The loops compute the separated spectra of the transform of the windowed, centred channels |
| `PitchTransforms.Synthesise` | src/audio/audio_pitchshift_dsp.h:424-459 | The loops add the windowed inverse transform of the packed spectra to every accumulator |
| `PitchTransforms.TransformWindows` | src/audio/audio_pitchshift_dsp.h:464-471 | Analysis, shift and synthesis in turn add the contribution of the transform to the accumulators and leave its spectra and rotations for the next hop |
| `PitchTransforms.LiveHop` | src/audio/audio_pitchshift_dsp.h:464-485 | So a live hop_frame() is the hop of the shifter under this transform |
| `PitchTransforms.SetupSound` | src/audio/audio_pitchshift_dsp.h:461-462 | A silent window is analysed, shifted and synthesised to exactly nothing, whatever the ratio and the rotations |
| `PitchTransforms.ShiftedUnity` | src/audio/audio_pitchshift_dsp.h:377-415 | At unity ratio without rotations every spectrum is its own shift, with power or without |
| `PitchTransforms.SetupFaithful` | src/audio/audio_pitchshift_dsp.h:41-43 | At unity ratio the whole transform of a window is the squared window, and rotations stay zero |
| `PitchTransforms.HannCompletes` | src/audio/audio_pitchshift_dsp.h:41-42 | Eight overlapping squares of a Hann window sum to three, so with an overlap gain of a third they are complete |
| `PitchTransforms.ShifterIsDelay` | src/audio/audio_pitchshift_dsp.h:42-43 | So at zero semitones the shifter is exactly a delay of N frames, wet and dry |
| `Completions.FirstFailureAppend` | src/audio/audio_completions.h:38-41 | The first failure of a batch does not change once there is one |
| `Completions.RecordNext` | src/audio/audio_completions.h:34-42 | A completed command leaves the entry with the first error and its command index, and one command fewer |
| `Completions.RoomFor` | src/audio/audio_completions.h:42-45 | The ready ring has room for a slot that is not in it |
| `Completions.ReadyExactly` | src/audio/audio_completions.h:42-45 | A slot whose commands have all completed is ready exactly if its batch had any |
| `Completions.AudioCompletions.Reserve` | src/audio/audio_completions.h:24-32 | Takes a free slot for the batch, or reports that every slot is in use and changes nothing |
| `Completions.AudioCompletions.Complete` | src/audio/audio_completions.h:34-46 | Records one command in its slot alone, and queues the slot with its last one |
| `Completions.AudioCompletions.Take` | src/audio/audio_completions.h:48-57 | Delivers the slot that finished first, with its first error, and frees it; nothing exactly if none is ready |
| `Completions.AudioCompletions.Clear` | src/audio/audio_completions.h:62-68 | Releases the callback of every reserved slot once and empties the table |
| `Completions.TakenLedger` | src/audio/audio_completions.h:48-57 | A taken reservation is delivered once and never again |
| `Completions.ReleasedLedger` | src/audio/audio_completions.h:62-68 | What was delivered stays delivered, and everything else is released |
| `OutputCommit.StepCurrent` | src/audio/audio_effect.cpp:506-511 | A snapshot whose generation is still current still lists its chain's effects and processors, whatever step intervenes |
| `OutputCommit.OthersDo` | src/audio/audio_effect.cpp:628-636 | Only a detached effect leaves its chain, an attached one takes its place between the others, and a new processor or a reset is pending from then on |
| `OutputCommit.StepSound` | src/audio/audio_effect.cpp:628-636 | Every step leaves each effect attached at most once, to an existing chain |
| `OutputCommit.AlwaysCurrent` | src/audio/audio_effect.cpp:548-593 | Over every run of detach, attach, set_processor, reset and commit steps, snapshots whose generation is current still describe their chains, and the prepared chains are those to do, in order |
| `OutputCommit.PublishesCurrent` | src/audio/audio_effect.cpp:590-600 | When a run publishes, what is prepared is exactly the chains it began with, as they are at that moment |
| `OutputCommit.CommitsAll` | src/audio/audio_effect.cpp:548-608 | Then every one of these chains, and every effect attached to it, is committed in the new output's rate, layout and format generation, under the processor that was prepared |
| `OutputCommit.CommitsLatency` | src/audio/audio_effect.cpp:536-537 | And every such effect has the latency of its own configuration, or none without a processor |
| `OutputCommit.CommitsNothingElse` | src/audio/audio_effect.cpp:525-540 | Chains that were not to do, and effects attached to none of them, keep their whole configuration |
| `OutputCommit.PublishesIfUndisturbed` | src/audio/audio_effect.cpp:590-597 | The end of a run publishes exactly if the device starts and nobody attached, detached, replaced or reset anything since the first snapshot; otherwise it fails with the error due and leaves the world alone |
| `OutputCommit.RefusalFails` | src/audio/audio_effect.cpp:513-520 | From a snapshot on in which a processor refuses or has a latency below zero, the commit has failed with the first such error, whatever happens later |
| `OutputCommit.PreparesUnrefused` | src/audio/audio_effect.cpp:505-521 | A snapshot without a refusal goes on preparing, with the chain's effects, their processors and the latencies that they answered |
| `OutputCommit.FailsOnlyRefused` | src/audio/audio_effect.cpp:567-569 | Before its end a commit fails only by such a refusal |
| `OutputCommit.AllOrNothing` | src/audio/audio_effect.cpp:543-546 | A run that has not published has left every committed format as it was, and the world as the steps of others alone would have made it |
| `Meters.IntervalIsCeiling` | src/audio/audio_effect.cpp:302 | The interval is the ceiling of rate / 20 |
| `Meters.CallIsStream` | src/audio/audio_effect.cpp:303-333 | A call of process(), cut into chunks at interval ends, leaves the state and makes the output of its frames one by one |
| `Meters.AnyPartition` | src/audio/audio_effect.cpp:303-333 | Two ways of cutting a stream into calls publish the same snapshots, leave the same accumulators and processor and make the same output |
| `Meters.ChunkIsStream` | src/audio/audio_effect.cpp:304-329 | Metering a whole chunk at once is metering its frames one by one |
| `Meters.StreamRegular` | src/audio/audio_effect.cpp:205-235 | Snapshots are numbered in order, each of exactly one interval, at the multiples of it |
| `Meters.SnapshotCovers` | src/audio/audio_effect.cpp:205-235 | From a reset meter, snapshot k holds the peaks of exactly input and output frames k * interval to (k + 1) * interval, and the reduction and values that the processor had over them |
| `Meters.IntervalRestarts` | src/audio/audio_effect.cpp:205-235 | The next interval begins with the processor of this one, restarted |
| `Meters.ReductionIs` | src/audio/audio_effect.cpp:322-323 | The reduction of a call is the largest of its frames, or zero |
| `Meters.PeakIs` | src/audio/audio_effect.cpp:305-318 | A peak is the loudest sample of its channel, or zero |
| `Meters.Effect.PublishMeter` | src/audio/audio_effect.cpp:205-235 | Publishes the accumulators and restarts them, unless no frame was accumulated |
| `Meters.Effect.NextChunk` | src/audio/audio_effect.cpp:304-332 | One turn of the loop ends at the end of the buffer or of the interval, whichever comes first |
| `Meters.Effect.Process` | src/audio/audio_effect.cpp:283-334 | Cutting the buffer at interval ends leaves the state and the output of the uncut stream |
| `Meters.Effect.ProcessCalled` | src/audio/audio_effect.cpp:283-334 | process() in place is the call whose partition does not matter |
| `ParamValidation.CheckParam` | src/audio/audio_effect_params.h:173-195 | Okay exactly for finite, whole, offered or bounded values as the descriptor asks |
| `ParamValidation.CheckRules` | src/audio/audio_effect_params.h:200-215 | Okay exactly if no active rule is triggered by a sibling while its member exceeds the cap |
| `ParamValidation.RulesMean` | src/audio/audio_effect_params.h:200-215 | Of finite values the rules hold exactly if no member is above a cap while a sibling has a value of its rule |
| `ParamValidation.SkippingIsExact` | src/audio/audio_effect_params.h:231-239 | Against a valid origin, checking only changed values, and rules only after a change, gives the same error as checking everything |
| `ParamValidation.AgreeOnlyIfValid` | src/audio/audio_effect_params.h:217-221 | Every new parameter set gets the error of full validation exactly if the set it is compared with is valid |
| `ParamValidation.AgreesExactlyIfValid` | src/audio/audio_effect_params.h:217-267 | Every edit of a committed state of the schema's shape gets the error of full validation exactly if that state itself passes it |
| `ParamValidation.ValidOriginsAgree` | src/audio/audio_effect_params.h:223-267 | With valid origins every state gets the error of full validation, whatever the counts of the committed groups and whatever entries of another length they hold |
| `ParamValidation.UneditedPasses` | src/audio/audio_effect_params.h:217-221 | A committed state passes against itself, whatever its values |
| `ParamValidation.UnchangedPasses` | src/audio/audio_effect_params.h:217-221 | An unchanged set passes at every rate |
| `ParamValidation.ChangesJudged` | src/audio/audio_effect_params.h:217-221 | An edit of a set passes exactly if every value that it changes is acceptable and, if it changes any, the rules hold |
| `ParamValidation.EditPasses` | src/audio/audio_effect_params.h:217-221 | One acceptable value can be set although another has become unacceptable, where full validation refuses the set |
| `ParamValidation.ValidateEntries` | src/audio/audio_effect_params.h:246-264 | The first entry with an error decides, each compared with the committed entry that it was copied from, if that has its length |
| `ParamValidation.ValidateState` | src/audio/audio_effect_params.h:223-267 | The incremental error against any committed state; where every committed set that can be an origin is valid at the rate, the error of full validation, through moved entries and shape changes |

## Left out

- Floating-point storage and rounding, denormals and NaN filtering: samples are reals, and the flushes at 1e-30 are kept
  as the source's own branches. Of the percentages that tail bounds add for rounding, only the phaser's is needed.
- Trigonometric, exponential and logarithmic evaluation: phaser corners arrive through the square root of the tangent as a
  growing function, decay bounds through any number of frames or passes whose power is small enough.
- Parameter ranges that other files publish: they are preconditions of the edits, in particular a delay of at least one frame
  for the delay processor, whose read does not clamp.
- Storage preparation and publication by `Configuration` classes, unsupported rates, fields and string parsing.
- The decay estimates used for notifications, which are typical values rather than bounds.
- Limiters.LimiterProcessor.ProcessFrame: the float rounding of the ceiling is not modelled.
- DenseTables.Table.constructor: bucket counts stop at 2^23, the largest for which distances always fit their 24 bits (a
  cluster of all but one of 2^24 buckets carries the next probe out of them), and load factors lie strictly between
  0 and 1; copying, moving, allocators, exceptions and iterator types are not modelled.
- DenseTables.Table.CalcShiftsForSize: sizes that need more than 2^23 buckets are excluded by a precondition.
- DenseTables.Table.IncreaseSize: growth past 2^23 buckets, which for the source ends at 2^32 with an error, is excluded.
- DenseTables.Table.PlaceElement: as IncreaseSize.
- DenseTables.Table.TryEmplace: as IncreaseSize.
- DenseTables.Table.Emplace: as IncreaseSize.
- DenseTables.Table.Replace: containers that need more than 2^23 buckets are excluded by a precondition.
- DenseTables.Table.Rehash: counts that need more than 2^23 buckets, which the source clamps, are excluded by a precondition.
- OrderedHashes.OrderedHash.EraseIf: the erasure of a range of ordered_hash is not modelled; its single pass can read a
  bucket again that a backward shift has moved around the end of the array.
- OrderedHashes.OrderedHash.Insert: load factors of one or more, serialisation, and growth past 2^32 buckets, where truncated
  hashes no longer determine the ideal bucket, are not modelled.
- OrderedHashes.OrderedHash.InsertAtPosition: as Insert.
- OrderedHashes.OrderedHash.GrowOnHighLoad: as Insert.
- OrderedHashes.OrderedHash.RehashImpl: bucket counts past 2^32, which the source refuses or cannot index, are excluded.
- OrderedHashes.OrderedHash.Rehash: as RehashImpl.
- OrderedHashes.OrderedHash.Reserve: as RehashImpl.
- OrderedHashes.RoundUpPower: the smearing of bits is modelled as repeated doubling.
- The thread pool's timed waits, several waiters, purge, pause, priorities, futures, stop and destruction. A task counts as
  finished once its worker holds the mutex again.
- PitchFft.TableFft: that each twiddle is a power of the stage's step is a precondition, since it is an identity of sine and
  cosine.
- PitchTransforms.HannCompletes: that a cosine changes sign after half a turn and becomes a sine after a quarter is a premise,
  as is the value of the overlap gain.
- PeakRegions.FrequencyMeasured: that wrap takes off whole turns and atan2 is an angle of its point are premises; that a
  partial turns its bin evenly is what stationary means, and how a window spreads it over bins is not modelled.
- The values of the makeup table, and the partial cancellation between frames that it makes up for.
- The analyser's capture ring and the snapshots it hands to clients.
- OutputCommit.AlwaysCurrent: the steps are transitions on values; latency budgets only warn, and what a processor's own
  configuration contains is not modelled. Resets of a chain are steps that advance the shared generation.
- Meters.Effect.PublishMeter: the flags of a snapshot and the conversion of peaks to dB are not modelled.
- Meters.Effect.Process: bypass, skipped frames, generation changes, idle partial intervals, and outputs without a rate are
  not modelled.
- Meters.Effect.ProcessCalled: as Meters.Effect.Process.
- ParamValidation.ValidateState: string values and labels are not modelled.
- Completions.AudioCompletions.Complete: a batch of no commands is never ready, as in the source; only clear releases it.
- Chorus, crossfeed, compressor, gate, loudness, equaliser, reverb, saturator, stereo and splitter processors, which repeat
  these techniques or are simpler; object locking in include/kotuku/objects.h; devices and their I/O.
