# shachain2pc: verified model

shachain2pc lets two parties, Alice and Bob, derive the BOLT #3 per-commitment secret of an index from two XOR
shares of a seed, without either learning the seed. The hash chain runs as boolean circuits under two-party
authenticated garbling: correlated OTs (SoftSpoken) give authenticated shares, a triple generator multiplies them,
a garbler and an evaluator walk the compiled program over recycled wire slots, and a checked reveal opens the
result. Around it, caches decide which chain nodes are derived from which, a daemon keeps a ledger of the work, and
two framed state machines open and guard each session.

Every layer of the repository has a plain computation it must agree with, and each module here proves that agreement
for all inputs. The layers meet in `EndToEnd.Derive`: for every index, chunk size and pair of shares, both parties end
with the bits of `generate_from_seed(shareA xor shareB, index)`, and no check of an honest run fails;
`EndToEnd.DeriveFromOts` states the same from two pairs of OT sessions up. The caches run on the same wires:
`TreeRuns`, `CacheRuns` and `PrecomputeRuns` hold chain nodes as authenticated wires and run chunks and tiles as
programs on an engine (`Nodes`) that counts programs and hash steps. The C++ caches use EMP's own session, with which
`shachain2pc-emp-compat` is wire-compatible; here both run on the one session model.

The form follows the code. State that the program updates in place is a class or an array whose methods are proved
against a specification function; what the program promises is then proved about that function. AES, SHA-256 and the
keyed hashes are arbitrary function parameters common to both parties. A hash gadget is any well-formed circuit from
512 to 256 wires, and the hash it stands for is its evaluation on the padded block (section 5.1.1 of FIPS 180-4).

| files | what they hold |
|---|---|
| `Blocks`, `Auth`, `Mitccrh`, `Triples`, `TriplePool`, `TripleGeneration` | XOR algebra, authenticated shares, the batched hash, the triple generator of both parties |
| `Programs`, `Slots`, `RunState`, `Garbling`, `GarbledRun`, `Chunks`, `Walks`, `Session`, `Traces`, `MaskErrors`, `Reveal` | programs, slot recycling, garbled evaluation, a whole session, inputs and reveals |
| `GF128`, `SoftGf`, `ClmulGf`, `Cggm`, `Butterfly`, `Transpose`, `SoftChunk`, `SoftSession`, `CotShares` | field arithmetic, punctured trees, butterflies, transpose, SoftSpoken sessions |
| `Options`, `Masks`, `Shachain`, `Circuits`, `CircuitBuilder`, `ChainCircuits`, `TileCircuits`, `DerivationPlans` | the reference chain and the circuits that compute it |
| `Compile`, `SettledCircuits`, `DirectPrograms`, `ChunkPrograms`, `TilePrograms` | circuits compiled to programs, and programs built directly |
| `Prefixes`, `KnownSecrets`, `Precompute`, `RangeCovers`, `StackCache` | which secret derives which, what the caches keep, and what that costs |
| `Ledger`, `ChannelFlows`, `Handshake` | the job ledger, sequenced channels and the session handshake |
| `CircuitRuns`, `EndToEnd`, `Nodes`, `TreeRuns`, `CacheRuns`, `PrecomputeRuns` | the composition: chunks and tiles as garbled programs, whole derivations, and the caches run on authenticated wires |

Where the code falls short of the plain statement one might expect, the exact condition is proved and a concrete
instance shows the failure:

- Alice's masked bits. The gamma pass that fills them is skipped for programs without AND gates
  (`rust/crates/shachain2pc-emp-compat/src/session.rs:410`). `Sessions.RunProgram` proves for every output that her
  bit agrees with Bob's if and only if `KnownToAlice`; `Sessions.NotGateUnknownToAlice` is the one-gate program on
  which it does not. If such wires go into a further program, `MaskErrors.CheckSeesErrors` says when that run's gamma
  check notices: exactly when at some AND gate Alice's errors on its operands do not cancel. The public reveal is
  correct either way; `Reveals.RevealToAlice` opens exactly the bits on which the two agree.
- Receive counters saturate. `ChannelFlows.SaturatedCounterRepeats` is a flow at 2^64 - 1 that accepts the same frame
  twice. Over any run, two accepted frames share a number if and only if it is the highest one
  (`ChannelFlows.RepeatsExactlyWhenSaturated`), and some do if and only if the run accepts more frames than there are
  numbers left (`ChannelFlows.SomeRepeatExactly`).
- Enabling a channel may lower its cap below what is in use: `Ledger.LoweredCapFails` is such a ledger, and
  `Ledger.Daemon.Enable` keeps the ledger sound if and only if used plus reserved units fit the cap that is then in
  force. With a cap of 2^64 - 1 the saturated comparison lets a job through that does not fit:
  `Ledger.HighestCapFails` is the instance; `Ledger.Daemon.Begin` and `BeginIncoming` keep the ledger sound if and
  only if the unsaturated sum fits, which it does under every lower cap.
- The correlation of OTs needs an odd Δ. A chunk's outputs are all correlated if and only if Δ is odd or every bit of
  the receiver's u is clear (`SoftChunk.ExchangeChunk`); `SoftChunk.EvenDeltaFails` is a chunk with an even Δ that is
  not. Every caller in the repository passes a normalised, hence odd Δ; an even one can only come in through
  `set_delta`, after which the two halves are in step if and only if the new Δ is odd (`SoftSession.ChooseDelta`).
- Compiling a circuit renumbers its wires by their last writer. An accepted circuit that reads a wire and has it written
  or rewritten later compiles to a program that is not topological, for example `SettledCircuits.ReadsAhead`;
  `SettledCircuits.TopologicalExactly` proves that the program is topological if and only if every read is settled, and
  `SettledCircuits.SettledPreserves` that it then computes the circuit, repeated writes included.
- The batched hash compares its slot counter with 8 for equality. Calls with different `k` on one state may step over
  it: `Mitccrh.Mitccrh8.HashInner` proves that a call is hashed under its own bucket and renewal goes on if and only if
  no call ran past the end of a bucket, and `Mitccrh.MixedCallsStopRenewal` is a sequence after which the first
  bucket's key stays for good. Every caller uses one `k`, for which `Mitccrh.Mitccrh8.Hash` excludes this.

## Model

| member | source | states |
|---|---|---|
| Auth.NormalizedDeltas | rust/crates/shachain2pc-emp-compat/src/triple_pool.rs:536-545 | for any two random blocks the normalised Δs are both odd and differ in bit 1, set for Alice only |
| Auth.RelatedAdd | rust/crates/shachain2pc-mpc-core/src/reveal.rs:83-100 | adding two pairs of shares keeps the relation checked by `verify_share_relation` in both directions and adds the shared bits |
| Auth.MacIsDual | rust/crates/shachain2pc-mpc-core/src/reveal.rs:83-100 | a MAC is the peer's `key xor r·Δ` plus the shared bit times the checking Δ, the fact every masked product relies on |
| Mitccrh.Mitccrh8.Hash | rust/crates/shachain2pc-mpc-core/src/softspoken.rs:720-800 | for a fixed k dividing 8 a call never straddles a key renewal: every block of the call that starts at key slot d is hashed under the key of bucket d/8, also in the circular form |
| Mitccrh.Mitccrh8.HashInner | rust/crates/shachain2pc-mpc-core/src/softspoken.rs:739-776 | for any k dividing 8, whatever the earlier ones: a call is hashed under the bucket of its first slot as long as no call ran past the end of a bucket, which the next call then does if and only if it does not fit; from there on the bucket never changes |
| Mitccrh.MixedCallsStopRenewal | rust/crates/shachain2pc-mpc-core/src/softspoken.rs:739-776 | after calls of one and of eight slots a call that starts at slot 9 is still hashed under bucket 0 |
| Triples.LeakyAndDifference | rust/crates/shachain2pc-mpc-core/src/triple_pool.rs:256-331 | the two parties' leaky-AND blocks differ by (x·y xor z)·(ΔA xor ΔB), for every hash function |
| Triples.LeakyAndSettles | rust/crates/shachain2pc-mpc-core/src/triple_pool.rs:333-361 | after exchanging bit 1 of those blocks z is the product, still related in both directions, and the blocks for the equality check agree |
| Triples.BucketKeepsProduct | rust/crates/shachain2pc-mpc-core/src/triple_pool.rs:373-422 | one bucketing step of two products, opened with the sum of the y bits, is again a related product with the accumulator's y |
| Triples.OpeningMultiplies | rust/crates/shachain2pc-mpc-core/src/triple_pool.rs:164-214 | the Beaver-style opening turns a product into a related share of the operands' AND |
| TriplePool.BucketPrepareLayer | rust/crates/shachain2pc-mpc-core/src/triple_pool.rs:363-395 | in place, x and z gain the layer's items at the rotated positions, y stays, and the opened bits are the sums of the y bits |
| TriplePool.BucketFinishLayer | rust/crates/shachain2pc-mpc-core/src/triple_pool.rs:397-422 | in place, z gains the rotated x wherever the opened bits say so; nothing else changes |
| TripleGeneration.LeakyAndHalfgate | rust/crates/shachain2pc-emp-compat/src/triple_pool.rs:183-210 | for any related shares of both parties every item is settled exactly as `Triples.LeakyAndSettles` says, so every z becomes the product of x and y; both equality transcripts grow by exactly the items' blocks, hashed from the call's key slot on |
| TripleGeneration.BucketOneLayer | rust/crates/shachain2pc-emp-compat/src/triple_pool.rs:248-284 | for any common rotation, in both parties' arrays, X(k) gains the layer's x and Z(k) the layer's z at the rotated position, plus that x where the opened y bits differ; y stays; the accumulators stay products |
| TripleGeneration.LayeredBucket | rust/crates/shachain2pc-emp-compat/src/triple_pool.rs:212-246 | for any number of layers and any rotations: the accumulators are the old ones with every drawn, settled layer bucketed in at its rotation, the equality transcripts grow by exactly the layers' blocks, hash states stay in step, and 3·l shares per layer are drawn |
| TripleGeneration.LayersGather | rust/crates/shachain2pc-emp-compat/src/triple_pool.rs:212-246 | after all layers an item's x is its first x plus one drawn x per layer, each at that layer's rotated position; its y is the first one |
| TripleGeneration.ComputeInplace | rust/crates/shachain2pc-emp-compat/src/triple_pool.rs:64-133 | for every length, bucket count and rotations, on shares drawn from paired pools: the call fails if and only if a digest other than that of the whole transcript arrives; otherwise every sigma is exactly what opening the accumulated items gives, is related in both directions, and its bit is the AND of the operands |
| GF128.MulIsPolynomialProduct | rust/crates/shachain2pc-mpc-core/src/reveal.rs:126-138 | the shift-and-reduce product is the polynomial product modulo x^128 + x^7 + x^2 + x + 1 |
| GF128.RemainderUnique | rust/crates/shachain2pc-mpc-core/src/reveal.rs:196-209 | a block is the residue of every polynomial that differs from it by a multiple of the modulus |
| GF128.RemainderExists | rust/crates/shachain2pc-mpc-core/src/reveal.rs:196-209 | every polynomial differs from its residue by a multiple of the modulus |
| GF128.Commutative | rust/crates/shachain2pc-mpc-core/src/reveal.rs:113-138 | the field product commutes |
| GF128.Associative | rust/crates/shachain2pc-mpc-core/src/reveal.rs:113-138 | ... and associates |
| GF128.Distributive | rust/crates/shachain2pc-mpc-core/src/reveal.rs:113-138 | ... and distributes over XOR on both sides |
| SoftGf.XorShifted | rust/crates/shachain2pc-mpc-core/src/reveal.rs:168-184 | in place, the four 64-bit words gain the value shifted up by any amount below 128, across word boundaries |
| SoftGf.Reduce | rust/crates/shachain2pc-mpc-core/src/reveal.rs:186-209 | flipping bits down from the top returns the residue of the 256-bit word array |
| SoftGf.GfMulSoft | rust/crates/shachain2pc-mpc-core/src/reveal.rs:126-138 | the portable product is the field product, for all operands |
| SoftGf.GfPackSoft | rust/crates/shachain2pc-mpc-core/src/reveal.rs:231-239 | the portable packing is the sum of `data[i]·x^i` |
| ClmulGf.FoldExact | rust/crates/shachain2pc-mpc-core/src/reveal.rs:140-166 | folding the high half down twice with 0x87 reduces exactly: it adds the high half times x^128 |
| ClmulGf.ClmulIsGfMul | rust/crates/shachain2pc-mpc-core/src/reveal.rs:140-166 | the carry-less-multiply form equals the field product on all inputs |
| ClmulGf.ClmulIsPacked | rust/crates/shachain2pc-mpc-core/src/reveal.rs:241-311 | the byte-lane packing with carry-less multiplies is the same sum as the portable one |
| Cggm.ExpandLevel | rust/crates/shachain2pc-mpc-core/src/softspoken.rs:538-558 | in place, the parents become all left then all right children, entries past them stay, and the returned sum is that of the wanted side |
| Cggm.BuildSender | rust/crates/shachain2pc-mpc-core/src/softspoken.rs:560-584 | for every depth the leaves are the last level of the tree and `k0` holds the sum of every level's left children |
| Cggm.LevelSumsToDelta | rust/crates/shachain2pc-mpc-core/src/softspoken.rs:538-584 | every level of the sender's tree XORs to Δ, with its low bit cleared on a masked last level |
| Cggm.EvalReceiver | rust/crates/shachain2pc-mpc-core/src/softspoken.rs:586-620 | for every depth and path, keys `k0` or `k0 xor Δ` by the complemented path bit rebuild every leaf except one, which is zero |
| Cggm.PositionIsReverse | rust/crates/shachain2pc-mpc-core/src/softspoken.rs:529-536 | the punctured leaf is the bit reversal of the path |
| Cggm.RebuiltLeaves | rust/crates/shachain2pc-mpc-core/src/softspoken.rs:304-318 | evaluating along the bit-reversed index punctures exactly that index |
| Butterfly.SenderButterfly | rust/crates/shachain2pc-mpc-core/src/softspoken.rs:622-665 | for every k at least 2 the in-place folds give, per position, the total u of the expanded leaves and one plane per index bit |
| Butterfly.ReceiverButterfly | rust/crates/shachain2pc-mpc-core/src/softspoken.rs:667-709 | the same planes over leaves whose positions are XORed with α |
| Butterfly.ButterflyCorrelation | rust/crates/shachain2pc-mpc-core/src/softspoken.rs:622-709 | w_b = v_b xor α_b·u for every plane, position and α, whatever the receiver holds at its punctured leaf |
| Transpose.TileTransposed | rust/crates/shachain2pc-mpc-core/src/softspoken.rs:835-872 | four rounds of interleaves transpose a 16x16 tile |
| Transpose.TransposeRows | rust/crates/shachain2pc-mpc-core/src/softspoken.rs:825-934 | bit p of output n is bit n of row p, for every number of rows' bytes |
| SoftChunk.ExchangeChunk | rust/crates/shachain2pc-mpc-core/src/softspoken.rs:394-492 | with trees agreeing off the punctured leaves, the outputs of a chunk of any size are the next items of a stream fixed by the trees, the receiver's bits are those of u, and all pairs are correlated if and only if Δ is odd or no bit of u is set |
| SoftChunk.ItemsCorrelated | rust/crates/shachain2pc-mpc-core/src/softspoken.rs:394-492 | a single output pair is correlated if and only if Δ is odd or its bit of u is clear |
| SoftChunk.EvenDeltaFails | rust/crates/shachain2pc-mpc-core/src/softspoken.rs:394-492 | a chunk under an even Δ whose outputs are not correlated |
| SoftSession.CheckVerify | rust/crates/shachain2pc-mpc-core/src/softspoken.rs:324-392 | for any message: accepted if and only if it has a pair of sums per tree and its digest is that of all check blocks, the missing ones rebuilt from the sums; the known leaves become their first block, the punctured ones stay |
| SoftSession.RebuiltHonest | rust/crates/shachain2pc-mpc-core/src/softspoken.rs:324-392 | on agreeing trees and the honest sums the blocks the receiver hashes are the sender's, so the honest message is accepted |
| SoftSession.GrowTrees | rust/crates/shachain2pc-emp-compat/src/softspoken.rs:158-200 | from the seeds alone: the receiver's forest holds the leaves of the trees grown from them, with checks on the first block of each of these leaves, and the sender's is the same but for zero at the leaf Δ points to |
| SoftSession.ChunkCheck | rust/crates/shachain2pc-mpc-core/src/softspoken.rs:494-517 | what one chunk adds to the accumulators satisfies q xor x·Δ = t, for any coefficients |
| SoftSession.Bootstrap | rust/crates/shachain2pc-emp-compat/src/softspoken.rs:158-200 | setup succeeds if and only if the arriving tree message is acceptable, as the honest one is; then the leaves of both roles are those of `GrowTrees`, agreeing off the punctured leaf |
| SoftSession.Chunk | rust/crates/shachain2pc-emp-compat/src/softspoken.rs:201-224 | a chunk keeps the two roles in step, its outputs are correlated and the next items of the stream, its (session, counter) pairs were never used before; with checks on, each accumulator grows by the sum over the chunk's blocks of coefficient times packed send outputs, packed receive outputs, or u, and otherwise none changes |
| SoftSession.SumsExtend | rust/crates/shachain2pc-mpc-core/src/softspoken.rs:494-517 | adding up chunk by chunk is one sum over the whole session: the invariant `Accumulated` says that each accumulator is the sum over all OTs since the session began, whatever the chunk sizes |
| SoftSession.NextN | rust/crates/shachain2pc-emp-compat/src/softspoken.rs:83-104 | for every length the outputs of both roles are correlated and are the next items of the chunk streams: none skipped, none handed out twice, no chunk produced that was not needed; the accumulators stay the sums over the session |
| SoftSession.End | rust/crates/shachain2pc-emp-compat/src/softspoken.rs:136-157 | for any number and sizes of chunks, with a scratch chunk added in: the final check accepts if and only if what the two arriving blocks are off by cancels, hence the honest ones |
| SoftSession.VerifySendCheck | rust/crates/shachain2pc-mpc-core/src/softspoken.rs:247-257 | whatever pair a receiver sends, the check accepts if and only if its deviations from the honest pair cancel: t xor t0 = (x xor x0)·Δ; with the honest x only the honest t passes |
| SoftSession.Run | rust/crates/shachain2pc-emp-compat/src/softspoken.rs:50-66 | a stand-alone request takes the leftover first and then the next session's items, over the trees at hand or over those grown from the seeds; all are correlated and the check accepts |
| SoftSession.Cot.Drain | rust/crates/shachain2pc-mpc-core/src/softspoken.rs:215-226 | up to `want` leftover outputs, the next ones in order; the rest stays |
| SoftSession.ChooseDelta | rust/crates/shachain2pc-mpc-core/src/softspoken.rs:201-208 | Δ changes if and only if setup has not happened, and the two halves are then in step if and only if the new Δ is odd |
| CotShares.CorrelatedShares | rust/crates/shachain2pc-emp-compat/src/triple_pool.rs:159-181 | OTs correlated in both directions, zipped as MAC and key, are related shares |
| CotShares.GenCotShares | rust/crates/shachain2pc-emp-compat/src/triple_pool.rs:159-181 | the shares minted from two pairs of sessions are related and are the ones the pools hand out next, for any count |
| CotShares.StreamsAreRelated | rust/crates/shachain2pc-emp-compat/src/triple_pool.rs:159-181 | with trees agreeing and odd Δs in both directions the two parties' share streams are related at every session and position |
| CotShares.FlushCotCheck | rust/crates/shachain2pc-emp-compat/src/triple_pool.rs:135-152 | the honest final checks of both directions accept, and pools and OT sessions move on to the next session together, if and only if anything was drawn |
| CotShares.OpenPools | rust/crates/shachain2pc-emp-compat/src/triple_pool.rs:11-32 | two pairs of OT roles in step open paired pools whose streams are what those roles mint from the trees at hand, or from those grown from the seeds |
| Programs.Program.WiresSolve | rust/crates/shachain2pc-emp-compat/src/program.rs:277-300 | evaluating a topological program in order satisfies every gate equation |
| Programs.Program.SolutionUnique | rust/crates/shachain2pc-emp-compat/src/program.rs:277-300 | ... and nothing else does |
| RunStates.RunState.LivenessPass | rust/crates/shachain2pc-emp-compat/src/session.rs:198-220 | persistent wires are exactly inputs, AND outputs and outputs; the last use of a wire is -1 if no gate reads it and otherwise a gate that does with no later one reading it; ANDs are counted |
| Slots.LifeUnique | rust/crates/shachain2pc-emp-compat/src/session.rs:198-220 | a program has only one such record |
| Slots.SlotsConserved | rust/crates/shachain2pc-emp-compat/src/session.rs:222-363 | after any number of gates every slot is on the free list, or held by a wire that is live or that no gate ever reads, and the number of slots is the sum of the three |
| Slots.AllocationSafe | rust/crates/shachain2pc-emp-compat/src/session.rs:336-363 | after any number of gates no slot is free twice, none that is free is held by a live wire, no gate wrote into a live slot, and a persistent wire shares its slot with no other |
| Slots.AllocationStable | rust/crates/shachain2pc-emp-compat/src/session.rs:336-363 | a slot given to a wire stays with it, and the slot count never shrinks |
| Slots.ReadsValue | rust/crates/shachain2pc-emp-compat/src/session.rs:222-291 | a wire read by a gate is found in its slot with its own value |
| Slots.WalkAgain | rust/crates/shachain2pc-emp-compat/src/session.rs:573-611 | what one walk leaves in the slots of persistent wires is there for the next walk over the same slots |
| RunStates.RunState.SlotCapacity | rust/crates/shachain2pc-emp-compat/src/session.rs:293-334 | the dry run predicts the number of slots the pass ends with |
| RunStates.RunState.SlotMaskPass | rust/crates/shachain2pc-emp-compat/src/session.rs:222-291 | the pass places every wire, solves the share equations of all gates with one fresh share per AND drawn in batches, records the AND operands and leaves live shares and input masks in their slots |
| Walks.GarblerPath | rust/crates/shachain2pc-emp-compat/src/session.rs:365-456 | over recycled slots the garbler's labels solve the label equations of all gates, and the rows it sends are those equations' rows in order |
| Walks.EvaluatorPath | rust/crates/shachain2pc-emp-compat/src/session.rs:458-559 | the evaluator's labels, masked bits, sent bits and gamma blocks solve the evaluation equations for the rows received, across chunk boundaries |
| Walks.GammaPass | rust/crates/shachain2pc-emp-compat/src/session.rs:573-611 | Alice's gamma pass follows the bits Bob sent through every gate |
| Garbling.HalfGateAnd | rust/crates/shachain2pc-emp-compat/src/session.rs:419-456 | for all masked inputs, evaluating a garbled half-gate AND gives `label0 xor λ·ΔA` and the masked AND; it rests on bit 1 of ΔA |
| Garbling.GammaExact | rust/crates/shachain2pc-emp-compat/src/session.rs:561-611 | with a nonzero ΔB the two gamma blocks of a gate agree if and only if the bit Bob sent is the masked AND |
| GarbledRun.RunInStep | rust/crates/shachain2pc-emp-compat/src/session.rs:365-528 | for every program the wire invariant `eval = label0 xor λ·ΔA`, λ = value xor mask, holds on every wire of an honest run |
| GarbledRun.GammaCheckExact | rust/crates/shachain2pc-emp-compat/src/session.rs:483-528 | for arbitrary garbled rows the gamma blocks agree at every gate if and only if every bit Bob sent is the true masked value of its wire |
| Sessions.LambdaUnique | rust/crates/shachain2pc-emp-compat/src/session.rs:573-611 | inputs and sent bits fix all masked bits, so Alice's equal Bob's |
| Sessions.GammaCheck | rust/crates/shachain2pc-emp-compat/src/session.rs:402-416 | the gamma check passes if and only if the digest that arrives is that of Bob's blocks, as in every honest run, and Bob's masked bits are then in Alice's slots |
| Sessions.RunProgram | rust/crates/shachain2pc-emp-compat/src/session.rs:142-177 | a run fails if and only if the number of inputs is wrong or a digest of the triple or gamma check is replaced by another; otherwise its outputs are those of a trace of program, keys, pool streams and inputs, and carry the program's plaintext value under the wire and share relations, so they can feed further programs; Alice's masked bit equals Bob's if and only if `KnownToAlice`; the pools are flushed, into a new session if and only if anything was drawn |
| Traces.RunUnique | rust/crates/shachain2pc-emp-compat/src/session.rs:142-177 | that trace is the only one: program, keys, pool positions and inputs fix every share, operand, label, row, masked bit and gamma block, and with them whether the run fails and which wires it hands out |
| Sessions.NotGateUnknownToAlice | rust/crates/shachain2pc-emp-compat/src/session.rs:410-410 | the one-gate program on which Alice's masked bit is wrong |
| Sessions.WithoutAnds | rust/crates/shachain2pc-emp-compat/src/session.rs:458-528 | without ANDs Bob's masked bits are the program run on the input masks |
| MaskErrors.GateSeesErrors | rust/crates/shachain2pc-emp-compat/src/session.rs:561-611 | with wrong masked bits on Alice's side the gamma blocks of a gate agree if and only if her errors, each times the MAC of the other operand, cancel |
| MaskErrors.CheckSeesErrors | rust/crates/shachain2pc-emp-compat/src/session.rs:573-611 | ... and the whole check passes if and only if they cancel at every AND gate |
| MaskErrors.ErrorsTravel | rust/crates/shachain2pc-emp-compat/src/session.rs:573-611 | errors add up at XOR gates, pass INV gates and end at AND gates |
| MaskErrors.UnreadErrorsPass | rust/crates/shachain2pc-emp-compat/src/session.rs:573-611 | a gate that reads no wrong bit never lets the check fail |
| Reveals.RecipientBits | rust/crates/shachain2pc-mpc-core/src/reveal.rs:19-40 | each rejection happens exactly on its condition; otherwise the result is local share, masked bit and peer share added |

| Reveals.RevealPublic | rust/crates/shachain2pc-emp-compat/src/session.rs:837-863 | for any arriving message: rejected if and only if its digest is not that of the MACs of its bits; otherwise both parties read the carried values, also when only Bob's masked bits are right, flipped exactly where the message flips Alice's bits |
| Reveals.RevealToAlice | rust/crates/shachain2pc-emp-compat/src/session.rs:865-895 | Alice reads the carried value of a wire if and only if her masked bit agrees with Bob's; a forged message is rejected unless its digest fits its bits |
| Reveals.FinalizeInputOpen | rust/crates/shachain2pc-mpc-core/src/reveal.rs:42-81 | each rejection on its condition, a peer share of the wrong length included; otherwise masked bits are both shares plus own and peer inputs at their indices |
| Reveals.ProcessInputs | rust/crates/shachain2pc-emp-compat/src/session.rs:735-835 | for any owners and any groups of bits both parties end, group by group, with wires that carry the owner's bits; wire i of a group has the shares and the label Alice's generator gives at the group's offset plus i; a wrong number of groups is refused, a forged opening unless its digest fits; shares and label generator advance by one per wire |
| Reveals.SliceCarries | rust/crates/shachain2pc-emp-compat/src/wires.rs:18-40 | a slice within bounds of carried wires carries the slice of their values; any other is refused on both sides |
| Reveals.PublicWiresCarry | rust/crates/shachain2pc-emp-compat/src/session.rs:708-733 | public wires carry their bits |
| Shachain.GenerateFromSeed | rust/crates/shachain2pc-circuit/src/lib.rs:564-575 | the countdown over bit positions is the chain over the set bits from the highest down |
| Shachain.SecretFromParent | rust/crates/shachain2pc-circuit/src/lib.rs:564-575 | a secret is one flip and hash below that of `index & (index - 1)` |
| Masks.CountdownFindsBits | rust/crates/shachain2pc-party/src/helpers.rs:331-339 | scanning positions downwards and clearing the lowest bit repeatedly list the same bits |
| Circuits.EvalBristol | rust/crates/shachain2pc-circuit/src/lib.rs:220-238 | the in-place wire array evaluates gate by gate, and a wrong input width is refused |
| Circuits.RunSolves | rust/crates/shachain2pc-circuit/src/lib.rs:220-238 | on a topologically ordered, write-once circuit the final wires satisfy every gate and keep the inputs |
| Circuits.EvalIsSolution | rust/crates/shachain2pc-circuit/src/lib.rs:220-238 | the outputs are those of every assignment that satisfies the gates: evaluation is the circuit's meaning |
| CircuitBuilder.Builder.ApplyGadget | rust/crates/shachain2pc-circuit/src/lib.rs:664-695 | embeds the gadget's gates with fresh wires, or refuses a wrong width and changes nothing |
| CircuitBuilder.EmbedSound | rust/crates/shachain2pc-circuit/src/lib.rs:664-695 | an embedded gadget keeps the circuit ordered and write-once, for any known input wires, repeated ones included |
| CircuitBuilder.EmbeddedComputes | rust/crates/shachain2pc-circuit/src/lib.rs:664-695 | in every satisfying assignment the embedded outputs are the gadget evaluated on the values of the given wires |
| ChainCircuits.PaddingBits | rust/crates/shachain2pc-circuit/src/lib.rs:585-596 | the second half of the block is SHA-256's padding of a 256-bit message |
| ChainCircuits.MsbFirstFlip | rust/crates/shachain2pc-circuit/src/lib.rs:598-604 | flipping a bit of a value inverts exactly the wire at its flip index |
| ChainCircuits.BuildChunkCircuit | rust/crates/shachain2pc-circuit/src/lib.rs:274-330 | builds the chunk's circuit, refusing a wrong gadget shape and a bit out of range |
| ChainCircuits.ChunkComputes | rust/crates/shachain2pc-circuit/src/lib.rs:274-330 | for every gadget and bits, first chunk or not, the circuit computes the chain of flips and hashes |
| ChainCircuits.BuildDerivationCircuit | rust/crates/shachain2pc-circuit/src/lib.rs:449-491 | the whole-chain circuit is the first chunk over the index's set bits; each refusal on its condition |
| TileCircuits.BuildTileCircuit | rust/crates/shachain2pc-circuit/src/lib.rs:332-389 | builds the tile's circuit, each refusal on its condition |
| TileCircuits.TileArmComputes | rust/crates/shachain2pc-circuit/src/lib.rs:332-389 | for every offset, height and arm s the tile's s-th output is the chain over the bits of s shifted by the offset |
| CircuitRuns.ChunkSize | rust/crates/shachain2pc-circuit/src/lib.rs:274-330 | the exact wire count of every chunk circuit |
| CircuitRuns.SmallGadgetFits | rust/crates/shachain2pc-emp-compat/src/program.rs:74-147 | with a gadget of up to 2^23 wires every chunk of an index and every tile of up to 16 leaves passes the compiler's wire limit |
| DerivationPlans.SplitChainBits | rust/crates/shachain2pc-circuit/src/lib.rs:244-272 | groups of exactly `size` bits but for the last concatenate to the set bits; each refusal on its condition |
| DerivationPlans.GroupCount | rust/crates/shachain2pc-circuit/src/lib.rs:244-272 | all groups but the last are full |
| DerivationPlans.ChunksCompute | rust/crates/shachain2pc-circuit/src/lib.rs:244-330 | chunk circuits run one after the other compute the chain over all groups |
| DerivationPlans.SplitComputesSecret | rust/crates/shachain2pc-circuit/src/lib.rs:244-330 | for every index and chunk size that is the BOLT #3 secret of the combined seed |
| DerivationPlans.DerivationComputesSecret | rust/crates/shachain2pc-circuit/src/lib.rs:449-491 | so is the output of the whole-chain circuit |
| Compile.FromCircuit | rust/crates/shachain2pc-emp-compat/src/program.rs:74-147 | compiles through the ordered fast path or the general one, or rejects, exactly as `Accepted` says |
| Compile.WellFormedResolves | rust/crates/shachain2pc-emp-compat/src/program.rs:74-147 | every well-formed circuit that fits is accepted and its program is topological |
| Compile.RenumberingPreserves | rust/crates/shachain2pc-emp-compat/src/program.rs:74-147 | the program computes the circuit's function |
| Compile.FastPathAgrees | rust/crates/shachain2pc-emp-compat/src/program.rs:149-175 | on circuits in order the fast path accepts exactly the well-formed ones and yields the general path's program |
| Compile.CompilationPreserves | rust/crates/shachain2pc-emp-compat/src/program.rs:74-175 | whichever path is taken, compilation preserves meaning |
| SettledCircuits.TopologicalExactly | rust/crates/shachain2pc-emp-compat/src/program.rs:74-147 | for every accepted circuit, well formed or not, the program is topological if and only if no gate reads a wire that is written or rewritten later |
| SettledCircuits.SettledPreserves | rust/crates/shachain2pc-emp-compat/src/program.rs:74-147 | ... and then it computes the circuit |
| SettledCircuits.ReadsAhead | rust/crates/shachain2pc-emp-compat/src/program.rs:74-147 | an accepted circuit whose program is not topological |
| DirectPrograms.EmbedMirrors | rust/crates/shachain2pc-emp-compat/src/program.rs:333-393 | embedding a gadget directly mirrors, gate for gate, embedding it in a circuit and renumbering |
| ChunkPrograms.ChunkFromSha | rust/crates/shachain2pc-emp-compat/src/program.rs:177-223 | the direct builder yields the drafted chunk program or rejects |
| ChunkPrograms.ChunkFromShaIsCompiled | rust/crates/shachain2pc-emp-compat/src/program.rs:177-223 | for every gadget and bits that program is the compiled chunk circuit |
| TilePrograms.TileFromSha | rust/crates/shachain2pc-emp-compat/src/program.rs:225-275 | the direct builder yields the drafted tile program or rejects |
| TilePrograms.TileFromShaIsCompiled | rust/crates/shachain2pc-emp-compat/src/program.rs:225-275 | for every gadget, offset and height that program is the compiled tile circuit |
| Prefixes.DerivableExactly | rust/crates/shachain2pc-party/src/helpers.rs:341-353 | the bit test for "b derives from a" holds exactly when b lies in the block of indices below a |
| Prefixes.SecretFromPrefix | rust/crates/shachain2pc-daemon/src/helpers.rs:380-398 | hashing down the missing bits from a prefix's secret gives the index's secret |
| KnownSecrets.DerivedSecret | rust/crates/shachain2pc-daemon/src/helpers.rs:380-398 | deriving from a correct secret succeeds exactly for the indices below it and gives the oracle's value |
| KnownSecrets.DeriveFromKnown | rust/crates/shachain2pc-daemon/src/helpers.rs:380-398 | the bit tests and the loop over missing bits compute that derivation |
| KnownSecrets.StoreKnownSecret | rust/crates/shachain2pc-daemon/src/state.rs:906-949 | one pass in any order leaves the store that `Stored` describes, of which the next two rows speak |
| KnownSecrets.StoreKeeps | rust/crates/shachain2pc-daemon/src/state.rs:906-949 | storing a correct secret keeps the store correct and an antichain, and the derivable indices are exactly the old ones and those below the new one |
| KnownSecrets.StoreSound | rust/crates/shachain2pc-daemon/src/state.rs:906-949 | after any sequence of stores an index is derivable if and only if one of the stored indices derives it |
| KnownSecrets.Answer | rust/crates/shachain2pc-daemon/src/state.rs:1515-1535 | a lookup answers with the oracle's secret exactly for derivable indices |
| KnownSecrets.CountdownStores | rust/crates/shachain2pc-daemon/src/state.rs:906-949 | after storing 2^48 - 1 down to I the store holds exactly popcount(2^48 - I) secrets (BOLT #3, Efficient Per-commitment Secret Storage) |
| Precompute.MaxDerivableExactly | rust/crates/shachain2pc-party/src/helpers.rs:355-366 | the bound used for pruning is itself derivable and no derivable index exceeds it |
| Precompute.RetainedExactly | rust/crates/shachain2pc-party/src/helpers.rs:368-370 | pruning keeps a mask if and only if it is the target or derives some index above it |
| Precompute.NextPlanExactly | rust/crates/shachain2pc-party/src/jobs.rs:147-204 | after a target exactly these masks are cached: of the prefixes walked and of the old masks those that pruning keeps, a walked one replacing an old one under its key |
| PrecomputeRuns.Setup | rust/crates/shachain2pc-party/src/jobs.rs:115-133 | a new session holds the authenticated shares of both parties and an empty cache |
| PrecomputeRuns.PrecomputeSession.BestParent | rust/crates/shachain2pc-party/src/jobs.rs:219-226 | the chosen parent is the best cached prefix, whose wires hold the secret of its mask, or the seed's shares if there is none |
| PrecomputeRuns.PrecomputeSession.PlannedCheckedUnits | rust/crates/shachain2pc-party/src/jobs.rs:143-145 | the planned units are the number of bits between the parent and the target |
| PrecomputeRuns.PrecomputeSession.PrecomputeTarget | rust/crates/shachain2pc-party/src/jobs.rs:147-204 | the resulting wires reveal the target's secret, target 0 included; they are the end of a path of one-hash programs from the best parent, one for each bit between it and the target and no others; and every cached node holds its mask's secret under its trailing-zeros key |
| PrecomputeRuns.PrecomputeAll | rust/crates/shachain2pc-party/src/jobs.rs:147-204 | over any run of targets all resulting wires reveal the targets' secrets, and cached masks and programs are functions of the targets alone |
| PrecomputeRuns.SamePrograms | rust/crates/shachain2pc-party/src/jobs.rs:147-226 | two sessions with equal cached masks, whatever their shares and keys, run the same programs for the same targets and end with equal masks |
| Precompute.SweepCostsOneEach | rust/crates/shachain2pc-party/src/jobs.rs:212-226 | sweeping 1..n from an empty cache runs exactly one edge per target, because `n & (n-1)` is always still cached |
| TreeRuns.DerivationTree | cpp/run/derive.h:619-762 | trunk and branches run as programs: both parties learn the secret of every requested index, and an empty set, an index over 48 bits and a set without a shared trunk are refused, exactly then; the programs are the trunk's chunks and one per index, the hash steps the bits of the trunk and of every branch |
| RangeCovers.PlanTileLevels | rust/crates/shachain2pc-circuit/src/lib.rs:391-425 | the levels tile the depth without gap or overlap, all of full height but the first |
| TreeRuns.TileCover | cpp/run/derive.h:873-989 | the recursive tile cover of an aligned subtree leaves both parties with a node for every s that holds the chain over s; each node is hashed once, in `TilesFor` tiles |
| CacheRuns.PrefixStack.Align | cpp/run/derive.h:1131-1158 | aligning the stack leaves the node of the target's prefix on top, made by single-hash programs from one node to the next, and runs exactly one of them per bit past the common prefix |
| CacheRuns.Descend | cpp/run/derive.h:1160-1217 | every index of the range gets a node that holds its value; with or without full tiles there is exactly one hash per distinct nonzero prefix, and every full tile in the range saves fourteen programs |
| CacheRuns.DerivationCache | cpp/run/derive.h:991-1217 | for every range and fanout: each refusal on its condition, both parties learn every secret, exactly one hash per distinct nonzero low-bit prefix whatever the fanout, and the exact number of programs for each fanout |
| StackCache.SeenGrows | cpp/tools/verify_circuit.cpp:116-159 | going down by one index adds exactly the prefixes past the common one |
| StackCache.TileCost | cpp/run/derive.h:1160-1217 | a tile and its alignment cost exactly the hashes of its sixteen indices one at a time |
| Ledger.Daemon.Begin | rust/crates/shachain2pc-daemon/src/state.rs:1051-1151 | a job starts if and only if channel, target, workers of both sides and cap allow it, each refusal names the first check that fails, nothing changes then, and the ledger stays sound if and only if a started job fits unsaturated |
| Ledger.Daemon.BeginIncoming | rust/crates/shachain2pc-daemon/src/state.rs:1229-1312 | the same for a peer's target, which also needs an equal statistical parameter and an equal cap |
| Ledger.Daemon.Store | rust/crates/shachain2pc-daemon/src/state.rs:1374-1422 | fails only on a missing or disabled channel; for a running job it succeeds, does not saturate and keeps the ledger sound |
| Ledger.Daemon.Finish | rust/crates/shachain2pc-daemon/src/state.rs:1454-1472 | the job's reservation goes, a failure is counted, all else stays |
| Ledger.Daemon.RecordFailure | rust/crates/shachain2pc-daemon/src/state.rs:1153-1173 | a failed attempt is counted without touching used or reserved units |
| Ledger.Daemon.Enable | rust/crates/shachain2pc-daemon/src/services.rs:69-125 | enabling sets flag, cap and statistical parameter or creates the channel; the ledger stays sound if and only if used and reserved units fit the cap in force |
| Ledger.LoweredCapFails | rust/crates/shachain2pc-daemon/src/services.rs:69-125 | a ledger on which enabling with a lower cap leaves more used than the cap |
| Ledger.HighestCapFails | rust/crates/shachain2pc-daemon/src/state.rs:1051-1151 | a channel with cap 2^64 - 1 on which a job starts that exceeds it by one |
| Ledger.Daemon.Disable | rust/crates/shachain2pc-daemon/src/services.rs:127-173 | refused while a job runs; otherwise the channel is disabled and its frontier dropped |
| Ledger.Run | rust/crates/shachain2pc-daemon/src/state.rs:1051-1472 | over any interleaving of these operations, cap changes that cover what is in use included, the ledger stays sound and the books end as the events add up to, refused operations changing nothing |
| Ledger.SoundMeans | rust/crates/shachain2pc-daemon/src/state.rs:1051-1472 | one job per channel, jobs within workers, none on disabled channels, used plus reserved within the cap and within attempts |
| ChannelFlows.SentInOrder | rust/crates/shachain2pc-mpc-core/src/channel_flow.rs:52-106 | frames sent by a flow carry its identity and consecutive numbers |
| ChannelFlows.AcceptsPrefix | rust/crates/shachain2pc-mpc-core/src/channel_flow.rs:108-142 | from any offers drawn from a peer's frames, dropped, repeated or reordered, the accepted ones are a gap-free prefix |
| ChannelFlows.AcceptsInOrder | rust/crates/shachain2pc-mpc-core/src/channel_flow.rs:108-142 | frames offered in order are all accepted |
| ChannelFlows.AcceptsLongestFit | rust/crates/shachain2pc-mpc-core/src/channel_flow.rs:108-142 | from any state and any offers the accepted frames are the longest prefix of the offers in which each one fits by job, sender, channel and number, and the flow is aborted if and only if something was refused |
| ChannelFlows.AbortIsFinal | rust/crates/shachain2pc-mpc-core/src/channel_flow.rs:43-51 | an aborted flow never accepts again |
| ChannelFlows.SaturatedCounterRepeats | rust/crates/shachain2pc-mpc-core/src/channel_flow.rs:108-142 | at counter 2^64 - 1 the same frame is accepted twice |
| ChannelFlows.RepeatsExactlyWhenSaturated | rust/crates/shachain2pc-mpc-core/src/channel_flow.rs:108-142 | over any offers two accepted frames have the same number if and only if it is 2^64 - 1 |
| ChannelFlows.SomeRepeatExactly | rust/crates/shachain2pc-mpc-core/src/channel_flow.rs:108-142 | a number is accepted twice if and only if more frames are accepted than there are numbers from the counter on |
| Handshakes.FinishedMeansEqual | rust/crates/shachain2pc-mpc-runner/src/lib.rs:161-200 | in every run over a network that drops, repeats and reorders frames, once one party finishes both have the same job identifier, ssp, circuit digest and job binding |
| Handshakes.InOrderProgress | rust/crates/shachain2pc-mpc-runner/src/lib.rs:161-200 | with in-order delivery and equal parameters some party can always step, each step brings both one closer, and none aborts |
| Handshakes.HandshakeCompletes | rust/crates/shachain2pc-mpc-runner/src/lib.rs:161-200 | under every fair schedule of rounds both parties finish |
| Handshakes.AckAcceptedExactly | rust/crates/shachain2pc-mpc-core/src/channel_flow.rs:203-226 | an acknowledgement is accepted if and only if it is the very frame the peer would send next for this job and these parameters, its binding the digest of job, peer role and parameters |
| Handshakes.StartAcceptedExactly | rust/crates/shachain2pc-mpc-core/src/channel_flow.rs:186-201 | a start is accepted if and only if it is the peer's next frame with equal parameters, and is answered by the acknowledgement the peer accepts |
| Handshakes.ForeignAckRefused | rust/crates/shachain2pc-mpc-core/src/channel_flow.rs:203-226 | with a digest that never collides an acknowledgement made for another job, role or parameters is refused |
| CircuitRuns.RunChunk | rust/crates/shachain2pc-party/src/standalone_modes.rs:495-544 | one chunk on both sides carries the circuit's plaintext output and, after at least one hash step, can feed the next chunk; its wires are those of a run of the chunk's program on these inputs, keys and pool positions |
| CircuitRuns.TileOutputs | cpp/run/derive.h:846-862 | the s-th 256 output bits of a tile circuit are the s-th arm |
| CircuitRuns.RunTile | cpp/run/derive.h:873-905 | one tile on both sides, cut into arms: arm by arm the wires carry the chain over the arm's bits and can feed further programs; they are cut from what a run of the tile's program yields |
| EndToEnd.SeedInputs | rust/crates/shachain2pc-party/src/helpers.rs:15-46 | after the two input calls the wires carry both shares of the seed, Bob's first; all 512 have the pools' next shares and Alice's next labels in order |
| EndToEnd.RunPlan | rust/crates/shachain2pc-party/src/standalone_modes.rs:515-536 | whatever the chunk size, one program runs per chunk, each on the wires of the one before and under its own keys; the last chunk's wires carry the index's secret, and can feed further programs unless the index is 0 |
| EndToEnd.SmallPlanFits | rust/crates/shachain2pc-circuit/src/lib.rs:244-272 | for every index and every chunk size the plan of a gadget of up to 2^23 wires fits the wire limit |
| EndToEnd.Derive | rust/crates/shachain2pc-party/src/standalone_modes.rs:495-544 | for every index, chunk size, shares and randomness of each run both parties reveal the BOLT #3 secret of the combined seed, and no check fails |
| EndToEnd.DeriveFromOts | rust/crates/shachain2pc-party/src/standalone_modes.rs:495-544 | the same when the pools are opened from two pairs of OT roles in step |

## Left out

- Interiors of AES, SHA-256, HKDF, P-256 and the base OT: function parameters; a base OT hands over the chosen block.
- Malicious peers, hiding and statistical parameters: runs are honest but for the one message or digest of each check that may arrive replaced (tree check, final OT check, triple and gamma digests, openings), for which acceptance is exact.
- Transcript digests (rotations, check coefficients, hash keys) are common parameters of both parties.
- `get_bucket_size` uses floating point: triple generation is proved for every bucket count from 1 up.
- TripleGeneration.ComputeInplace: a pool hands out the items of a fixed stream; that the OT sessions mint exactly these, request by request and session by session, is `CotShares.GenCotShares` and `CotShares.FlushCotCheck`, not a call inside `Draw`.
- SoftSession.Chunk: the tree depth is the program's constant 4; trees and butterflies are proved for every depth.
- SoftSession.Run: one class stands for the sending and the receiving half, which hold the same fields.
- Machine widths are unbounded integers, except the saturating counters, frame numbers, the 2^30 wire limit and the 64-bit field words.
- Gate packing into 32 bits, parsing Bristol text, digests of circuits, protobuf, hex and EMP bit packing.
- Buffers a party replaces as a whole (share arms, slots, gates) are sequence fields; trees, butterflies and field words are arrays.
- SettledCircuits.ReadsAhead: what a session does with a program that is not topological is not modelled.
- EndToEnd.Derive: the gadget is assumed to contain an AND gate, as every SHA-256 gadget does, and the plan's chunks to fit the wire limit, as `SmallPlanFits` shows of gadgets of up to 2^23 wires.
- PrecomputeRuns.PrecomputeAll: one cache stands for both parties' equal ones; that equal masks lead to equal choices is `SamePrograms`.
- CacheRuns.Descend: a full tile is cut into arms when it is run, not when it is revealed.
- Ledger.Run: workers are not lowered while jobs run, and caps are not set to 2^64 - 1 or below what is in use; an aborted task that leaves its job behind is outside; each operation is one atomic step without persistence.
- Ledger.Daemon.BeginIncoming: an incoming job's identifier includes its channel, as the daemon builds it.
- ChannelFlows.AcceptsPrefix: fewer than 2^64 frames, as the saturation lemmas show is needed.
- Sockets, tasks, gRPC, TLS, files, timing, command lines, tamper hooks and zeroing of memory.
