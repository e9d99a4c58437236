# Verified model of vllm.cpp's hard cores

A Dafny model of seven parts of vllm.cpp and proofs about them. `dafny verify dfyconfig.toml` checks the
whole project.

1. **Gated DeltaNet prefill** (`triton_kernels/`). Six kernels are methods over shared buffers: the strictly
   lower matrix A, its triangular inverse, w and u, the state carried across chunks, the outputs, and the
   one-token decode. `Prefill.Run` launches the five prefill kernels over a batch of packed sequences, the
   programs of each launch in any order and each kernel with its own tiles, and leaves every output, snapshot,
   new value and final state equal to the token-by-token recurrence. `DecodeLaunch` runs the decode kernel over
   a state pool for any series of tokens. `Resume` cuts a prefill at any token and goes on with a second
   prefill, or with any number of decode launches: the results are those of one unbroken prefill. `HeadLayout`
   and `DecodeInputs` say what the inputs of a head are, in memory and in the gates' own terms, and `DeltaRule`
   what one step of the recurrence does.
2. **Op provider registry** (`src/vt/op_provider.cpp`). A class whose cached selections, memoised "none"
   answers and lock-free exit always agree with a fresh scan; and exactly when the winners do not depend on the
   order of registration.
3. **Fused recipes** (`src/vt/ops.cpp`, `include/vt/fused_recipe.h`, `include/vt/recipes.h`). The composite
   walker that lets a residual add wait and folds it into a later norm, proved to keep the recipe's
   step-by-step meaning exactly when a checkable condition holds; and the dispatch between bespoke kernel,
   interpreter and composite. `GoldenForms` gives each recipe's documented calls.
4. **C API request lifecycle** (`src/capi/vllm_c.cpp`). The delivery thread and any number of clients as an
   interleaving state machine; the blocking entry points as methods over an abstract engine.
5. **SHA-256** (`examples/dump_container/sha256.h`) against FIPS 180-4, the constants as roots of primes.
6. **UTF-8 and Unicode range tables** (`tools/gen_unicode_data.py`) against RFC 3629.
7. **Tensor addressing and the step arena** (`src/vt/tensor.cpp`, `src/vt/arena.cpp`).

## How the kernels are modelled

- Arithmetic is over `real`. `exp` is any function with exp(a + b) = exp(a) exp(b) and positive values, `sqrt` any
  with a positive root for every positive number, `log` any function at all, or, where
  the gate's meaning is stated, the inverse of an increasing `exp`.
- Register tiles are values, global buffers are `array3` and `array4`, and a block store writes through them.
  Reads past the end of a sequence or a row give zero, as boundary-checked loads do. `Layout` relates the
  indices to the flat pointer arithmetic of the kernels.
- The compile-time flags are the ones the files pin: USE_G, USE_INITIAL_STATE, STORE_FINAL_STATE,
  SAVE_NEW_VALUE and IS_VARLEN on, USE_GK and USE_EXP2 off. The scale is a parameter. The block of the
  triangular inverse is any size m (the source uses 16), the chunk 4m. Each kernel has its own tile widths, as
  cmake/TritonAOTKernels.cmake pins them.
- Preconditions taken from the design: g is the sum of the log decays within each chunk
  (triton_kernels/chunk_delta_h.py:34), K is at most 256 (four tiles of 64), and the six upper blocks of every
  inverse tile are zero beforehand, since solve_tril never writes them and wy_fast reads them.
- The final-state buffer may be the initial-state buffer. Decode launches update the state pool in place; the
  rows of one launch with a state have different slots.

## Where the code and its documentation differ

- include/vllm.h:212-213 says a cancelled request's thread exits after the terminal abort output is consumed,
  and lines 177-178 say a call with finished set is made on abort. The code stops after whatever it fetches next
  and delivers nothing of it (`RequestLifecycle.AfterCancellation`; `RequestLifecycle.CancelledRun` is the run,
  for a finished and an unfinished output alike). `RequestLifecycle.TerminalDeltaIff` says exactly when the
  terminal call is made.
- include/vllm.h:177-178 promises one terminal call. That holds for this engine, whose outputs have one
  completion (src/vllm/v1/engine/output_processor.cpp:188-194): `RequestLifecycle.FinishesOnce`. The delivery loop
  by itself does not ensure it: it would pass the flag again for each further completion of a final output
  (`RequestLifecycle.FinishedOnceIff`).
- src/capi/vllm_c.cpp:441-449: a cancel whose abort throws leaves the request in the engine, and the thread still
  ends with status OK (`RequestLifecycle.AbandonedRun`).
- include/vt/fused_recipe.h:138-141 says a backend without the bespoke kernel inherits the composite. The
  convenience overloads (src/vt/ops.cpp:1018-1062) bind no scratch tensor, so there the composite always fails
  (`FusedDispatch.NoScratchNoFallback`); so does a null residual or bf16 output
  (`FusedDispatch.OptionalOnlyWhenFast`).
- The walker does not check the second output of a rope step (src/vt/ops.cpp:846): an unbound key slot is taken
  as "no keys", so `FusedDispatch.CatalogueRuns` does not require that slot.
- src/vt/tensor.cpp:9-11 says a negative dimension always fails. The least int64 behind a zero dimension passes
  (`TensorAddressing.FitsNegative`).
- src/vt/tensor.cpp:10-11 says hand-built tensors with garbage shapes throw instead of overflowing. That is so for
  Numel, but IsContiguous, Slice and Offset multiply and add unchecked (lines 53, 76, 86); the model gives the
  overflow its own outcome and exact condition, and tensors made by Contiguous never meet it.
- src/vt/op_provider.cpp:238-256: a fifth provider, or a different second one of a name, is dropped. The reported
  selection order is independent of registration order exactly when neither occurs
  (`ProviderRegistration.OrderFreeIff`), the winners exactly when neither happens to a provider that some device can
  use (`ProviderRegistration.WinnersFreeIff`).

## Model

| member | source | states |
|---|---|---|
| Prefill.Run | triton_kernels/chunk_o.py:107-152 | kkt, inverse, w/u, state and output launches in any program order: every output, snapshot, new value and final state is the recurrence's, for any batch, lengths, block size and tile widths, which each kernel has its own |
| Prefill.RowRefines | triton_kernels/chunk_delta_h.py:134-318 | one value row of one head: trace and outputs of the chunked run are those of the token-by-token run |
| Prefill.RowTrace | triton_kernels/chunk_delta_h.py:134-207 | the snapshot of chunk c is the recurrence state after c chunks of tokens, and v_new at a token is the recurrence's update value |
| Prefill.RowOutputs | triton_kernels/chunk_o.py:124-152 | o at a token is the recurrence's output there |
| Prefill.LaunchOut | triton_kernels/chunk_o.py:77-152 | programs over value tiles, chunks and heads store disjoint tiles and keep each other's results |
| Prefill.RunOut | triton_kernels/chunk_o.py:97-152 | one output program reads exactly the snapshot and values of its chunk and changes nothing outside its tile |
| HeadLayout.SharingIsSpreading | triton_kernels/chunk_o.py:98-99 | sharing key heads by consecutive groups: a batch that lists each key head once for every value head of its group, and shares none, has the same heads |
| HeadLayout.SharedAddresses | triton_kernels/chunk_delta_h.py:100-106 | queries and keys of member r of group g are read at the kernels' pointer, which is the rows of key head g |
| HeadLayout.OwnAddresses | triton_kernels/chunk_scaled_dot_kkt.py:65-85 | values, beta, log decay and its sums are read from their own tensors at token bos + t and the head itself |
| HeadLayout.GroupOf | triton_kernels/wy_fast.py:100 | the kernels' division of the head by H / Hg finds its group |
| DeltaRule.StepMoves | triton_kernels/fused_recurrent_packed_decode.py:154-157 | a step moves the state's answer for the key the part beta n of the way to the value, n the squared length of the key, and only fades the answers at right angles to it |
| DeltaRule.OutputIsAnswer | triton_kernels/fused_recurrent_packed_decode.py:144-158 | the output is the updated state's answer for the query, scaled |
| Resume.SplitPrefill | triton_kernels/chunk_delta_h.py:113-131 | a prefill cut at any token and resumed from the stored state, with other chunk lengths and the sequence at another place in each batch, gives the outputs and final state of one run |
| Resume.DecodeContinues | triton_kernels/fused_recurrent_packed_decode.py:154-163 | decoding any number of tokens from a stored state gives the outputs and the end row of the unsplit run |
| Resume.StepsAgree | triton_kernels/fused_recurrent_packed_decode.py:154-163 | after k decode steps the row is the unsplit run's row k tokens later |
| Resume.RunThenDecode | triton_kernels/fused_recurrent_packed_decode.py:104-163 | the five prefill launches and then any series of decode launches on the states they leave: all outputs and final states are the recurrence's on the unbroken sequences, each a sequence of the batch with the decoded tokens after it |
| Resume.SplitDecode | triton_kernels/fused_recurrent_packed_decode.py:104-163 | the same for one row of the buffers: a prefilled row copied to any slot of a pool and decoded there continues its run |
| Resume.ResumedIsUnbroken | triton_kernels/fused_recurrent_packed_decode.py:104-163 | and equals, output by output and in its final state, what one prefill of the whole sequence in any batch would store |
| Resume.JoinedExtends | triton_kernels/fused_recurrent_packed_decode.py:127-152 | the unbroken sequence exists for every prefill and every series of decoded tokens of its sizes |
| Resume.ContinueRun | triton_kernels/chunk_delta_h.py:113-131 | the recurrence itself may be cut anywhere and continued from any state that agrees on the K channels |
| Refinement.NewAtIsUpdate | triton_kernels/chunk_delta_h.py:174-207 | u minus w read out against the state at chunk start is beta (v - decay S k), the value the sequential step adds |
| Refinement.StateIsRecurrence | triton_kernels/chunk_delta_h.py:134-299 | the carried state before chunk c is the recurrence state after the tokens of c chunks |
| Refinement.OutputIsRecurrence | triton_kernels/chunk_o.py:129-151 | snapshot readout plus the masked intra-chunk product is the recurrence's output |
| ChunkAlgebra.ClosedForm | triton_kernels/chunk_delta_h.py:209-230 | a decayed and fed quantity after i tokens is its start faded by exp of the summed gates plus each feed faded since it entered |
| ChunkAlgebra.ProjClosed | triton_kernels/chunk_delta_h.py:209-299 | the same for any projection of a state row |
| ChunkTheorem.SystemRow | triton_kernels/wy_fast.py:76-118 | a chunk's update values solve the system (I + A) x = beta (v - exp(g) S k) |
| ChunkTheorem.SystemPadding | triton_kernels/chunk_scaled_dot_kkt.py:90-91 | the rows of the system past a partial chunk's end are zero on both sides |
| ChunkTheorem.NewRowIsUpdate | triton_kernels/wy_fast.py:93-118 | any inverse of the leading rows turns scaled values and keys into exactly the recurrence's update values |
| ChunkTheorem.NextStateEntry | triton_kernels/chunk_delta_h.py:218-299 | a state entry after a chunk is the entry before, faded, plus the keys times the faded update values |
| ChunkTheorem.OutputEntry | triton_kernels/chunk_o.py:124-151 | an output is the faded snapshot readout plus the causally masked, decayed query-key products with the update values |
| ChunkScaledDotKkt.Program | triton_kernels/chunk_scaled_dot_kkt.py:62-95 | A is beta k k scaled by the decay between the tokens, strictly below the diagonal and inside the sequence, zero elsewhere; nothing else is written |
| ChunkScaledDotKkt.MaskedIsChunkA | triton_kernels/chunk_scaled_dot_kkt.py:84-91 | the accumulated, decayed and masked tile is that matrix |
| SolveTril.FirstRows | triton_kernels/solve_tril.py:81-90 | starting the substitution at local row 2 is sound: rows 0 and 1 need none |
| SolveTril.DiagonalBlock | triton_kernels/solve_tril.py:76-106 | the masked, substituted block plus the identity inverts the unit lower diagonal block, also when the sequence ends inside it |
| SolveTril.ComputeBlocks | triton_kernels/solve_tril.py:76-167 | the ten computed blocks satisfy the block equations of the inverse |
| SolveTril.StoreBlocks | triton_kernels/solve_tril.py:199-248 | exactly the ten lower blocks are stored, inside the sequence |
| SolveTril.LeadingRows | triton_kernels/solve_tril.py:82-167 | for a chunk of L rows the leading L by L part is the two-sided inverse of the leading part |
| SolveTril.Program | triton_kernels/solve_tril.py:58-248 | one program leaves in Ai the two-sided inverse of I + A on the chunk's rows and keeps its upper blocks zero and everything else unchanged |
| TriangularInverse.SubstitutionInverts | triton_kernels/solve_tril.py:87-106 | rows that satisfy the substitution step form a right inverse |
| TriangularInverse.LeftFromRight | triton_kernels/solve_tril.py:82-167 | a right inverse of a unit lower matrix is its left inverse |
| TriangularInverse.AssembledEntry | triton_kernels/solve_tril.py:133-167 | each entry of I + A times the assembled blocks is the identity's |
| TriangularInverse.AssembledInverts | triton_kernels/solve_tril.py:133-167 | the ten block formulas assemble to the two-sided inverse of every strictly lower A |
| WyFast.Program | triton_kernels/wy_fast.py:65-118 | u and w are the untiled products of the inverse tile with beta v and beta exp(g) k, for any tile widths |
| ChunkDeltaH.Program | triton_kernels/chunk_delta_h.py:89-318 | snapshots, v_new and final state of one value tile of one head, equal to untiled matrix recurrences, with nothing else written |
| ChunkDeltaH.NextTile | triton_kernels/chunk_delta_h.py:218-299 | each of the four decayed and updated 64-wide tiles is the tile of the untiled next state |
| ChunkDeltaH.ReadState | triton_kernels/chunk_delta_h.py:175-197 | up to four guarded tile products accumulate the whole w S product, for every K up to 256 |
| ChunkO.Program | triton_kernels/chunk_o.py:97-152 | the stored tile is the untiled output for any BK and BV and a last chunk of any length |
| PackedDecode.Program | triton_kernels/fused_recurrent_packed_decode.py:104-163 | one program reads its token from the packed row, normalizes q and k, evaluates gate and beta and takes one recurrence step on its tile of the slot's state; a negative slot stores zeros and changes no state; nothing else is written |
| PackedDecode.Evaluate | triton_kernels/fused_recurrent_packed_decode.py:132-152 | the masked loads, sums over all lanes, softplus and sigmoid give the token the packed row means |
| DecodeInputs.TokenGates | triton_kernels/fused_recurrent_packed_decode.py:145-152 | the decay lies in (0, 1] and undoes to 1 + exp(a + dt_bias), past the threshold to a + dt_bias; the strength lies in (0, 1) with odds exp(b) |
| DecodeInputs.DecayBounds | triton_kernels/fused_recurrent_packed_decode.py:149-151 | the decay is at most 1 exactly when softplus is not negative |
| DecodeInputs.SoftplusNotNegative | triton_kernels/fused_recurrent_packed_decode.py:149-150 | which it is for every input when the threshold is not |
| DecodeInputs.TokenVectors | triton_kernels/fused_recurrent_packed_decode.py:135-143 | query and key are normalized exactly when the launch says so, the value never |
| DecodeInputs.NormalizedLength | triton_kernels/fused_recurrent_packed_decode.py:140-142 | a normalized vector keeps its direction and has squared length s / (s + 1e-6) |
| DecodeInputs.Unpacks | triton_kernels/fused_recurrent_packed_decode.py:132-137 | a row put together from query heads, key heads and value heads unpacks to its group's query and key and its own value |
| DecodeLaunch.LaunchDecode | triton_kernels/fused_recurrent_packed_decode.py:108-163 | any order of the programs gives every scheduled row its output and its slot the next state, in place in the pool; other slots stay |
| DecodeLaunch.DecodeTokens | triton_kernels/fused_recurrent_packed_decode.py:108-163 | a series of launches, rows joining, leaving and changing places: each slot goes through the recurrence of the tokens it is given |
| DecodeLaunch.TurnsExact | triton_kernels/fused_recurrent_packed_decode.py:118-123 | the tokens of a slot are exactly the rows that name it |
| Tiles.ReadNext | triton_kernels/chunk_o.py:107-127 | one more K tile extends the accumulated product by that tile's channels |
| Tiles.ReadSkip | triton_kernels/chunk_delta_h.py:180-197 | tiles past K contribute nothing, so skipping or zero-padding them gives the same product |
| Buffers.StoreBlock | triton_kernels/chunk_o.py:144-152 | a boundary-checked block store changes exactly the covered places |
| Buffers.StoreState | triton_kernels/chunk_delta_h.py:143-173 | the same for a state tile of one slot and head |
| Layout.ChunkListed | triton_kernels/chunk_o.py:80-91 | chunk c of sequence n is entry chunk_offsets[n] + c of the flattened chunk list |
| Layout.OnlyChunksListed | triton_kernels/chunk_o.py:80-91 | every entry of the list is such a chunk, at that position |
| Layout.OneChunk | triton_kernels/chunk_delta_h.py:75-105 | a token lies in at most one chunk of one sequence |
| Layout.SomeChunk | triton_kernels/chunk_delta_h.py:75-105 | and in at least one |
| Layout.BlockPointer | triton_kernels/chunk_o.py:98-101 | the kernels' base, stride and offset arithmetic is the address of the token, head and column |
| Layout.FlatInjective | triton_kernels/chunk_o.py:98-101 | distinct token, head and column have distinct addresses |
| Layout.SnapshotAddress | triton_kernels/chunk_o.py:102 | chunk_o's snapshot address is the one chunk_delta_h stored that chunk and head at |
| Launches.LaunchKkt | triton_kernels/chunk_scaled_dot_kkt.py:48-95 | any order of programs fills every scheduled chunk and head |
| Launches.LaunchTril | triton_kernels/solve_tril.py:40-248 | any order of programs inverts every scheduled chunk |
| Launches.LaunchWy | triton_kernels/wy_fast.py:51-118 | any order of programs writes w and u of every scheduled chunk |
| Launches.TileKept | triton_kernels/chunk_scaled_dot_kkt.py:92-95 | a program of another chunk or head leaves a tile as it was |
| StateLaunch.LaunchState | triton_kernels/chunk_delta_h.py:73-131 | any order of programs over value tiles, sequences and heads, also when ht is h0 |
| StateLaunch.SlotsDisjoint | triton_kernels/chunk_delta_h.py:82-98 | the snapshot slots of different sequences do not overlap |
| StateLaunch.RowLocal | triton_kernels/chunk_delta_h.py:174-299 | a value row of the state depends on no other value row, so tiles may run in any order |
| ProviderOrder.BetterTotal | src/vt/op_provider.cpp:151-154 | of two providers with different names exactly one is better |
| ProviderOrder.BetterPrecedes | src/vt/op_provider.cpp:151-154 | better is: higher priority, or the same priority and a name that is a proper prefix or smaller at the first different character |
| ProviderOrder.ChoiceIsTop | src/vt/op_provider.cpp:164-173 | the selected provider has the highest priority of the supported ones and the first name among equals |
| ProviderOrder.ChoiceIsNext | src/vt/op_provider.cpp:164-173 | below a floor it is the first supported one strictly after it |
| ProviderOrder.RankedOrder | src/vt/op_provider.cpp:318-335 | the reported order goes by descending priority and then by name |
| ProviderOrder.ChoiceUnique | src/vt/op_provider.cpp:164-173 | the best supported provider is unique, so the winner depends only on which providers are registered |
| ProviderOrder.Choice | src/vt/op_provider.cpp:164-173 | the scan's result is eligible and better than every other eligible provider, or there is none |
| ProviderOrder.Ranked | src/vt/op_provider.cpp:318-335 | the selection order is a strictly descending permutation of the registered providers |
| ProviderOrder.RankedOrderFree | src/vt/op_provider.cpp:318-335 | and the same for every registration order |
| ProviderOrder.FallbackChain | src/vt/op_provider.cpp:279-299 | the supported providers in strictly descending order, each once |
| ProviderOrder.ChainVisitsAll | src/vt/op_provider.cpp:269-299 | starting at the winner and falling back from each result visits exactly that chain, then fails |
| ProviderRegistration.Register | src/vt/op_provider.cpp:238-256 | a null kernel, a fifth provider and a repeated name change nothing, anything else goes in last; at most four, names distinct |
| ProviderRegistration.CompatibleKeeps | src/vt/op_provider.cpp:238-256 | with at most four names, one provider each, every registration survives once |
| ProviderRegistration.OrderFreeIff | src/vt/op_provider.cpp:238-256 | every order of the same registrations gives the same selection order exactly when at most four names are registered and none twice differently |
| ProviderRegistration.WinnersFreeIff | src/vt/op_provider.cpp:164-173 | every order gives the same winner for every device and disabled list exactly when no provider that some device can use shares its name with another or stands among more than four names |
| ProviderRegistration.SafeKeeps | src/vt/op_provider.cpp:238-256 | such a provider is registered whatever the order |
| ProviderRegistration.TurnedAwayIn | src/vt/op_provider.cpp:238-256 | any other is turned away in some order |
| ProviderRegistration.OrderMatters | src/vt/op_provider.cpp:238-256 | otherwise some order changes the table |
| ProviderRegistration.InRanked | src/vt/op_provider.cpp:318-335 | the reported order lists exactly the registered providers |
| OpProvider.OpTable.constructor | src/vt/op_provider.cpp:62-102 | a fresh table is coherent |
| OpProvider.OpTable.GetOp | src/vt/op_provider.cpp:269-277 | the supported provider of highest priority, first by name among equals, from the cache or not, or an error when none is supported; counts selections and failures; touches no other slot |
| OpProvider.OpTable.Resolve | src/vt/op_provider.cpp:188-203 | a miss publishes the winner or memoises that there is none, never both |
| OpProvider.OpTable.OpRegistered | src/vt/op_provider.cpp:301-314 | true exactly when a fresh scan finds a provider, cached either way; an invalid op or device is an error |
| OpProvider.OpTable.GetOpFallback | src/vt/op_provider.cpp:279-299 | the first supported provider strictly below the named one in priority and name; unknown names and exhausted chains are errors; caches untouched |
| OpProvider.OpTable.SetDeviceProviderCaps | src/vt/op_provider.cpp:216-227 | new capabilities re-open every cached answer and change no other device's record |
| OpProvider.OpTable.RegisterOpProvider | src/vt/op_provider.cpp:238-256 | an accepted registration drops its slot's caches only; an ignored one changes nothing |
| OpProvider.OpTable.DisableOpProvider | src/vt/op_provider.cpp:358-380 | the disabled names afterwards, and every cache dropped |
| OpProvider.OpTable.OpProviderDisabled | src/vt/op_provider.cpp:382-392 | membership in the disable list; the lock-free exit answers only when nothing is disabled |
| OpProvider.OpTable.EnsureEnvParsed | src/vt/op_provider.cpp:116-130 | reading the environment late changes no answer |
| OpProvider.OpTable.AddNames | src/vt/op_provider.cpp:119-128 | the parsing loop adds the comma-separated names in order |
| OpProvider.ParseJoined | src/vt/op_provider.cpp:119-128 | up to eight different names of 1 to 63 characters, joined with commas, are read back as written |
| OpProvider.OpTable.AddDisabled | src/vt/op_provider.cpp:104-114 | empty, over-long, repeated and ninth names are ignored |
| OpProvider.OpTable.Choose | src/vt/op_provider.cpp:164-173 | the scan computes the best supported provider below the floor |
| OpProvider.OpTable.IsSupported | src/vt/op_provider.cpp:156-160 | kernel present, name not disabled, predicate satisfied |
| OpProvider.OpTable.InvalidateAll | src/vt/op_provider.cpp:205-211 | exactly the two cache fields of every slot are cleared |
| OpProvider.OpTable.OpProviderNameAt | src/vt/op_provider.cpp:318-335 | the i-th name by descending priority and then by name; an invalid op or device is an error |
| FusedChain.CompositeImpl | src/vt/ops.cpp:792-886 | succeeds exactly when all checks pass and no add is left waiting; a foldable recipe leaves every buffer as its steps one by one would; a failure leaves the calls before the failing step |
| GoldenForms.AttnGateForm | include/vt/recipes.h:231-268 | the gated attention preamble is one call with each role's own slot and (1 + w) norms |
| GoldenForms.AttnForm | include/vt/recipes.h:300-350 | the plain one is the norm of q, the norm of k, both in place with plain weights, then the rotation of their views by positions and cache |
| GoldenForms.AddNormForm | include/vt/recipes.h:32-54 | residual add and norm are one norm call with the residual |
| GoldenForms.AddNormStdForm | include/vt/recipes.h:281-300 | the same with plain weights |
| GoldenForms.NormQuantForm | include/vt/recipes.h:61-92 | norm with residual, then fp8 of the scratch row |
| GoldenForms.GatedNormQuantForm | include/vt/recipes.h:94-118 | gated norm, then fp8 |
| GoldenForms.SiluMulFp4Form | include/vt/recipes.h:124-160 | silu times up, then fp4 with its scales |
| GoldenForms.SiluMulFp8Form | include/vt/recipes.h:172-200 | silu times up, then fp8 |
| GoldenForms.SigmoidGateFp4Form | include/vt/recipes.h:205-229 | sigmoid gate, then fp4 with its scales |
| GoldenForms.CatalogueTouches | include/vt/recipes.h:38-350 | each step's call writes exactly the buffers its declaration lists as outputs and reads exactly its inputs |
| FusedChain.FoldingKeepsMeaning | src/vt/ops.cpp:792-886 | delaying residual adds keeps the memory of the step-by-step run, aliasing counted, for every backend whose ops are local and whose norm keeps its residual contract |
| FusedChain.FoldInvariant | src/vt/ops.cpp:794-819 | after each step the step-by-step memory is the walk's with the waiting add applied |
| FusedRecipe.AddCommutes | src/vt/ops.cpp:800-807 | an op that neither touches the residual nor writes x may be swapped with the waiting add |
| FoldingExact.FoldableIsExact | src/vt/ops.cpp:792-886 | the condition is exact: it holds if and only if the walker agrees with the steps on every such backend and memory |
| FoldingExact.ViolationShows | src/vt/ops.cpp:800-819 | any first violation, on any recipe, shows on a recording backend |
| FoldingExact.DroppedAdd | src/vt/ops.cpp:800-807 | a second add before the norm loses the first for good |
| FoldingExact.RecorderIsABackend | src/vt/ops.cpp:779-791 | the recording backend meets the assumed contracts |
| FusedDispatch.FusedChainEntry | src/vt/ops.cpp:951-983 | bespoke kernel, interpreter or composite, in that order, with their errors; on the catalogue all three leave what the steps mean |
| FusedDispatch.FastMeaning | src/vt/ops.cpp:894-939 | operands are unpacked so that a bespoke kernel equals the recipe's steps on all buffers but a skipped scratch |
| FusedDispatch.SplitIsWalk | src/vt/ops.cpp:894-939 | the split form of each bespoke call is what the walker issues |
| FusedDispatch.InterpreterMeaning | src/vt/ops.cpp:968-981 | the interpreter's canonical operands give the recipe's meaning |
| FusedDispatch.CatalogueRuns | include/vt/recipes.h:38-350 | every catalogue recipe runs exactly when its slots are bound, and is foldable exactly when weight and residual are different buffers |
| FusedDispatch.CatalogueShape | include/vt/recipes.h:38-350 | the catalogue is well formed and exactly the two add-norm recipes are Tier-1-able (include/vt/fused_recipe.h:170-184) |
| FusedDispatch.NoScratchNoFallback | src/vt/ops.cpp:1018-1062 | without a scratch tensor the bespoke kernel succeeds and the composite cannot |
| FusedDispatch.OptionalOnlyWhenFast | src/vt/ops.cpp:897-906 | null residual or bf16 output: accepted by the bespoke kernel, refused by the composite |
| RequestLifecycle.StepKeepsInv | src/capi/vllm_c.cpp:153-192 | every step of the thread or a client keeps the invariant |
| RequestLifecycle.ReachableInv | src/capi/vllm_c.cpp:153-192 | it holds in every reachable state |
| RequestLifecycle.DeliversInOrder | src/capi/vllm_c.cpp:156-171 | delivered deltas are a prefix of the engine's outputs, all of them on an uncancelled success |
| RequestLifecycle.RefusalIsFinal | src/capi/vllm_c.cpp:163-171 | once the callback returned false it is never called again |
| RequestLifecycle.FinishedIsLast | src/capi/vllm_c.cpp:160-171 | a finished delta belongs to the last fetched output, and is last when that has one completion |
| RequestLifecycle.FinishesOnce | src/capi/vllm_c.cpp:160-171 | when the last output has at most one completion, finished is delivered at most once, however many outputs there were |
| RequestLifecycle.FinishedOnceIff | src/capi/vllm_c.cpp:160-171 | for any series of outputs: no run on it delivers finished twice, exactly when it does not end in a finished output of several completions |
| RequestLifecycle.AfterCancellation | src/capi/vllm_c.cpp:157-171 | after a cancel is recorded at most one more output is fetched, and nothing of it is delivered |
| RequestLifecycle.TerminalDeltaIff | src/capi/vllm_c.cpp:157-173 | of the runs that end without an error, those deliver the terminal delta whose final output has a completion and whose thread had not seen the cancellation when it checked |
| RequestLifecycle.CancelledRun | src/capi/vllm_c.cpp:157-173 | a cancelled request's thread can end on any output, finished or not, with nothing delivered |
| RequestLifecycle.CancelIsIdempotent | src/capi/vllm_c.cpp:441-449 | however many clients cancel or free, at most one of them aborts the request |
| RequestLifecycle.OutcomeIsFinal | src/capi/vllm_c.cpp:482-494 | status and error text never change once done is visible |
| RequestLifecycle.ErrorOnlyWhenDone | src/capi/vllm_c.cpp:487-494 | no error text can be read before the request is done, and then only of a failed one |
| RequestLifecycle.CaughtIsReported | src/capi/vllm_c.cpp:174-191 | an exception in the thread ends as a runtime error with its text, or as an unknown error with the fixed text, whatever the clients do |
| RequestLifecycle.LoopEndIsOk | src/capi/vllm_c.cpp:173 | a thread that reached the end of its loop ends with success and no error text |
| RequestLifecycle.WaitsAgree | src/capi/vllm_c.cpp:456-480 | every wait returns the final status |
| RequestLifecycle.DeletionIsSafe | src/capi/vllm_c.cpp:496-513 | free deletes only after the thread has exited and with nobody inside, and the engine is rid of the request unless an abort threw |
| RequestLifecycle.NothingLeftBehind | src/capi/vllm_c.cpp:162-191 | an exited thread's request is finished or has been aborted, but for an abort a client still has to make or one that threw |
| RequestLifecycle.AbandonedRun | src/capi/vllm_c.cpp:435-454 | when the abort of a cancel throws, the request can stay in the engine for good while its thread reports OK |
| RequestEntry.EngineHandle.FreshId | src/capi/vllm_c.cpp:286-287 | request ids are never reused within 2^64 requests |
| RequestEntry.EngineHandle.Complete | src/capi/vllm_c.cpp:264-325 | on every way out the request is finished or aborted and no other is touched; the status of every case, a runtime error exactly for a std::exception, and on success the text, the canonical finish reason, the prompt's and the completion's token counts |
| RequestEntry.CanonicalFinishReason | src/capi/vllm_c.cpp:103-110 | a known reason is kept, any other becomes "unknown" |
| RequestEntry.ToInt32 | src/capi/vllm_c.cpp:314-315 | token counts wrap around to 32 bits |
| RequestEntry.EngineHandle.CompleteStream | src/capi/vllm_c.cpp:327-389 | the deltas of the outputs the engine gave, in order, none after a refusal, all on a natural finish; the status of whatever was thrown and by whom; the request is finished or aborted on every way out |
| RequestEntry.EngineHandle.Submit | src/capi/vllm_c.cpp:391-433 | success hands out a fresh, live request; failure leaves none behind and reports what was thrown |
| RequestEntry.EngineHandle.Drive | src/capi/vllm_c.cpp:353-371 | the streaming loop takes the engine's outputs one by one and ends on a refusal, an exception, or with the finished output and every delta delivered |
| RequestEntry.DeliverOutput | src/capi/vllm_c.cpp:356-369 | the callbacks of one output stop at the first refusal or exception |
| Sha256.Hasher.Update | examples/dump_container/sha256.h:26-40 | absorbs the bytes: whole blocks are hashed, the rest buffered, the length counted modulo 2^64 |
| Sha256.Hasher.Compress | examples/dump_container/sha256.h:73-128 | the loops compute the compression function of section 6.2.2 of FIPS 180-4 |
| Sha256.Hasher.MessageSchedule | examples/dump_container/sha256.h:89-100 | the array is the message schedule |
| Sha256.Hasher.PadZeros | examples/dump_container/sha256.h:46-49 | the zero loop ends with the least padding of section 5.1.1, its measure the distance to 56 modulo 64 |
| Sha256.Hasher.HexDigest | examples/dump_container/sha256.h:44-66 | the hexadecimal SHA-256 of everything absorbed, for messages shorter than 2^64 bits |
| Sha256.Hasher.Digits | examples/dump_container/sha256.h:56-65 | the 64 digits are the state's bytes, most significant first |
| Sha256.DigestOfChunks | examples/dump_container/sha256.h:26-66 | any way of cutting a message gives the digest of the whole message |
| Sha256Constants.RoundConstants | examples/dump_container/sha256.h:74-88 | each round constant is the first 32 bits of the fraction of the cube root of its prime (section 4.2.2 of FIPS 180-4) |
| Sha256Constants.InitialWords | examples/dump_container/sha256.h:18-20 | each initial word is that of the square root (section 5.3.3) |
| Sha256Constants.FirstPrimes | examples/dump_container/sha256.h:74-88 | the primes used are the first 64: each is the next prime after the one before |
| Sha256Constants.ChChooses | examples/dump_container/sha256.h:106 | where x has a bit Ch takes y's bit, elsewhere z's |
| Sha256Constants.MajAgrees | examples/dump_container/sha256.h:109 | where two of three agree Maj takes what they have |
| Sha256Constants.WordOrder | examples/dump_container/sha256.h:90-95 | the first byte of a word is its most significant |
| Sha256Constants.BytesOrder | examples/dump_container/sha256.h:58-60 | and written out first |
| Sha256Constants.HexDigits | examples/dump_container/sha256.h:56-65 | a digit stands for its value, 0 to 9 and then a to f |
| Sha256KnownAnswer.HashOfAbc | examples/dump_container/sha256.h:73-128 | the hash value of the message abc, worked out round by round, is the published one |
| Sha256.NextRound | examples/dump_container/sha256.h:104-119 | one loop body is one round of the standard |
| Sha256.LengthBytes | examples/dump_container/sha256.h:50-54 | the shifted and truncated bytes are the big-endian length field |
| Sha256Spec.ZeroBytes | examples/dump_container/sha256.h:46-49 | the least number of zero bytes that completes the padding |
| Sha256Spec.WordOfBytes | examples/dump_container/sha256.h:58-60 | writing a word out and reading it back is the identity |
| Utf8.DecodeUtf8 | tools/gen_unicode_data.py:181-226 | decodes exactly one step of the reference decoder, for every byte string and position |
| Utf8.EncodeUtf8 | tools/gen_unicode_data.py:228-245 | appends the encoding, of U+FFFD for a surrogate or a value past U+10FFFF |
| Utf8.StepIsExact | tools/gen_unicode_data.py:181-226 | a step returns a scalar value exactly when its encoding is next; otherwise nothing decodes there and one byte becomes U+FFFD |
| Utf8.Step | tools/gen_unicode_data.py:181-226 | a step consumes the encoding of its result, or one byte as U+FFFD |
| Utf8.EncodeIsChar | tools/gen_unicode_data.py:228-245 | encodings are characters of the grammar in section 4 of RFC 3629 |
| Utf8.CharIsEncoding | tools/gen_unicode_data.py:192-225 | and every such character is the encoding of its value |
| Utf8.Accepts | tools/gen_unicode_data.py:212-223 | the overlong, range and surrogate checks accept exactly the grammar's characters |
| Utf8.RoundTrip | tools/gen_unicode_data.py:181-245 | decoding encoded scalar values returns them |
| Utf8.WellFormedIff | tools/gen_unicode_data.py:181-245 | encoding the decoded bytes returns them exactly for well-formed byte strings |
| RangeTables.BuildCategoryRanges | tools/gen_unicode_data.py:55-64 | the one-pass builder yields the sorted, disjoint, maximal table of any category function |
| RangeTables.BuildWhitespaceRanges | tools/gen_unicode_data.py:67-75 | the same for the merging whitespace builder |
| RangeTables.LookupIsCategory | tools/gen_unicode_data.py:158-168 | lookup in the table is the function inside the range and kOther above it |
| RangeTables.LookupIsSpace | tools/gen_unicode_data.py:170-179 | lookup in the whitespace table is the predicate |
| RangeTables.TableUnique | tools/gen_unicode_data.py:55-75 | there is only one such table |
| TensorAddressing.Contiguous | src/vt/tensor.cpp:17-38 | fails exactly on bad rank, a non-positive dimension or int64 overflow; otherwise row-major strides |
| TensorAddressing.Numel | src/vt/tensor.cpp:40-47 | the product, refused exactly when a positive shape's leaves int64; negative dimensions refused but for one |
| TensorAddressing.FitsNegative | src/vt/tensor.cpp:9-14 | a negative dimension passes exactly when it is the least int64 behind a zero |
| TensorAddressing.IsContiguous | src/vt/tensor.cpp:49-56 | true exactly for row-major strides, unless the size it multiplies up leaves int64 before a stride is found wrong |
| TensorAddressing.View | src/vt/tensor.cpp:63-68 | succeeds exactly for a contiguous tensor and a valid shape of the same size; overflows exactly when IsContiguous does |
| TensorAddressing.Offset | src/vt/tensor.cpp:80-89 | the dot product with the strides; refused exactly for an index out of range, unless a product or sum before it leaves int64 |
| TensorAddressing.ScanFits | src/vt/tensor.cpp:49-56 | the scan of a tensor whose size fits int64 never overflows |
| TensorAddressing.ChainFits | src/vt/tensor.cpp:70-89 | no chain of slices of a contiguous tensor overflows, nor any offset into the result |
| TensorAddressing.OffsetInRange | src/vt/tensor.cpp:80-89 | an in-range index has an offset in [0, Numel) that determines it |
| TensorAddressing.OffsetOnto | src/vt/tensor.cpp:80-89 | every offset in [0, Numel) is an in-range index's |
| TensorAddressing.OffsetKeepsOrder | src/vt/tensor.cpp:80-89 | offsets order indices lexicographically |
| TensorAddressing.ViewKeepsPosition | src/vt/tensor.cpp:63-68 | a view keeps every element's row-major position |
| TensorAddressing.SliceInParent | src/vt/tensor.cpp:70-78 | a slice's element is its parent's shifted element, in range |
| TensorAddressing.SliceCovers | src/vt/tensor.cpp:70-78 | and every parent element in the cut range is a slice's, once |
| TensorAddressing.SliceFails | src/vt/tensor.cpp:70-73 | a slice is refused exactly for a bad dimension or range |
| TensorAddressing.ChainInRoot | src/vt/tensor.cpp:70-78 | any chain of slices addresses inside its root |
| TensorAddressing.ChainDisjoint | src/vt/tensor.cpp:70-78 | distinct elements of a chain occupy disjoint bytes |
| StepArena.Arena.Alloc | src/vt/arena.cpp:20-32 | fails exactly on a bad shape, a size that would wrap, or a full slab; otherwise the tensor lies right after the last, 64-byte aligned, and all live ones stay disjoint |
| StepArena.Arena.Reset | src/vt/arena.cpp:34 | rewinds to empty and keeps the high-water mark |
| StepArena.AlignUp | src/vt/arena.cpp:10 | the least multiple of 64 not below the size |
| StepArena.LiveDisjoint | src/vt/arena.cpp:20-34 | elements of any slices of two tensors allocated since the last Reset are disjoint bytes of the slab |

## Left out

- Rounding, bf16, fp8 and fp4 storage, and Triton and CUDA scheduling: the chunk theorem is about real arithmetic; a launch runs its programs one after another, in any order.
- The flags the kernels pin off (USE_GK, USE_EXP2, the non-varlen branch); the gate and normalization kernels that run before a prefill, whose results are inputs there.
- PackedDecode.Program: the scale is a parameter (the source pins K to the power -1/2), and bf16 rounding of beta and of the stored values is left out.
- Resume.RunThenDecode: the states stay in the prefill's final-state buffer, which becomes the pool; the host code that copies them to other slots is covered by Resume.SplitDecode, which takes any copy.
- Tiles held in registers are values, and inputs that no kernel writes (q, k, v, g, beta) are values too; aliasing between them and the outputs is therefore not modelled.
- ResidualContract: what the standalone norm does when the weight lies in the residual's buffer is left open; tensors sharing a buffer are taken to cover it whole.
- FusedDispatch.FastMeaning: the bespoke kernels and the interpreter enter through their documented contracts; their loops are not modelled, nor the argument checks of the standalone ops.
- Memory order and data races in the registry: each public call is one atomic step. Statistics getters and resets, RegisterOp, announcements and the null-name check of the fallback are not modelled.
- RequestLifecycle.StepKeepsInv: the callers' obligations of include/vllm.h (no call on a handle once free has begun, free overlapping no other call) are enabling conditions of the client steps.
- RequestEntry.EngineHandle.CompleteStream: the engine's answers are a finite script, so an engine that never finishes a request is not modelled; here abort always succeeds. Sampling parameters, version strings and string ownership are not modelled.
- SanitizeUtf8, the scheduler, the KV cache and AsyncLLM are not part of this model; the outputs' texts are taken as sanitized.
- Utf8.DecodeUtf8: bytes are integers below 256 and shifts and masks are written as the divisions, remainders and ranges they select; the position is returned instead of updated in place.
- RangeTables.BuildWhitespaceRanges: whitespace ranges carry a category 1 so that both builders share one notion of table; std::upper_bound is its specification.
- Sha256.Hasher.Update: the pointer and length pair is a sequence, and the copy into the buffer is one parallel assignment.
- TensorAddressing.Slice: addresses are unbounded integers; the conversion of a byte offset to size_t is not modelled.
- The device allocation behind the arena and the alignment of its base address; Bytes, dtype conversions and geometry tables.
- CLI, server, benchmark and file-cache code, oracle scripts, and the other argument-validating wrappers of ops.cpp: they would only add easy members.
