# A verified model of the paged KV cache and its distributed store

This project models four connected parts of an LLM inference engine and proves what they promise.

* **The paged, ref-counted, prefix-sharing KV cache and the prefill session on top of it.** Blocks are
  handed out from a free list and counted; a table maps positions to pool slots; a chained-hash registry
  keeps full blocks alive between requests; prefixes are exported to and imported from other nodes. It
  must answer exactly as a cold run over the whole prompt would.
* **The DistKV protocol.** One Master, any number of workers and concurrent clients, two-phase puts,
  epochs and generations, delayed and duplicated messages, and a co-located reader that skips the Master.
* **The streaming attention kernel.** Online softmax over blocks against dense causal attention.
* **The bundle codec.** The binary frame that carries a prefix between nodes.

## How it is laid out

Each stateful part is written twice and the two are tied together. The *specification* is a set of
functions on values (`Allocator`, `CacheState`, `Session`, `Codec`, `Master`, `Worker`); the theorems are
about these. The *classes* (`Paged`, `PagedCache`, `Serving`, `FrameCodec`, and the classes in `Master`,
`Worker`, `ObjectStore`) update fields and arrays in place with the loops of the source, and each method
is proved to leave exactly the state its function says.

| file | what it holds |
|---|---|
| Network | the transformer as opaque causal maps, and what a cold run computes |
| PoolWrite | the slot-coalescing write loop, as the code has it and as it is meant, against token-by-token scatter |
| Allocator, CacheState, Session | allocator, registry, cache operations, forward pass, prefill and decoding as functions |
| Contents, Transparency, ImportProofs, PrefillProofs, Runs | what the pool holds, and that every step of every run keeps it |
| Reuse, Served, Hashing | longest match, monotone reuse, agreement with a cold run, what a served prompt leaves registered, and what the chained hash asks of its hash |
| Outcomes | when a request succeeds, aborts, or suffers from the store, and what its session reports and publishes, told from its inputs |
| ImportReach | which slots an import writes, and which bundles keep to their own blocks |
| Bundle, Codec, FrameCodec, WireFormat, CrossNode, Publish | tensors and frames, the codec, the frame byte by byte, export, the cross-node round trip, publishing |
| WriteExact | exactly when the write loop as written leaves a forward call's tokens live |
| Divergence | runs and bundles on which the code goes wrong |
| Attention, DenseLaws | the kernel against dense attention, and what dense attention is |
| Paged, PagedCache, Serving | the mutable cache, model and session |
| PagedLayer | a layer that runs the kernel over the gathered blocks |
| Totals, Master, Worker, DistKv, Liveness, RouteLife, Capacity, ReadBack, ObjectStore | the distributed store |
| EndToEnd, Fleet, Sharing | one engine over the store, and a fleet of engines that publish and reuse each other's prefixes |

## What the theorems assume

* Hashing is a parameter. Where a result needs it, "no two paths in play agree on chained hash and last
  chunk" is a hypothesis about a finite set of token paths, never a global injectivity claim; it follows when the
  hash function tells apart the pairs it is applied to on them (`Hashing.StepsApartIsEnough`).
* For a single engine, a remote object is honest or is rejected. `Publish.ServedPublishesHonest` shows that
  what a served request publishes is honest for every engine of the same fleet, and `Fleet.FleetTransparent`
  needs no such hypothesis: it starts every engine and the store empty.
* Engines that share a model id share the network, and all use one header format.
* Results about contents hold for the intended write loop outright, and for the loop as written for every
  batch on which no run goes astray (`WritesRight`). `WriteExact.AsWrittenLiveExactly` shows that this is no
  loss: on any other batch some network finds the new tokens not where they belong. Batches of one token and
  batches on a fresh cache always qualify, so the hypotheses are met at least by every first request
  (`Reuse.ColdIsTransparent`).
* Put ids are never reused, and the Master does not restart.
* The exponential function is positive and turns sums into products.
* The JSON header is a pair of maps; the codec results assume that this header survives the pair and is
  shorter than 2^32 bytes.

## What came out about the code

* `PagedKvPool::write` tests `i + n == start_slot + n` (src/models/common/paged.rs:196), which is
  `i == start_slot`. `PoolWrite.AsWrittenExact` gives the exact batches for which it is right,
  `WriteExact.AsWrittenLiveExactly` the exact forward calls, and `Divergence.LoopAsWrittenCorrupts` a family
  of two-request runs after which position 0 holds the keys and values of token 32.
* The comment at src/kv_cache/manager.rs:143-150 says that correctness never depends on the remote cache and
  that its failures fall back. An object that is taken can fail a request that succeeds without the store, in
  exactly two cases (`Outcomes.StoreCostsExactly`): it covers the whole prompt and leaves no suffix
  (`Outcomes.WholePromptAborts`, met on a new cache by `Outcomes.WholePromptIsReachable`), or the import gives
  up the blocks shared with the registry and the free ones alone do not hold the prompt. The second needs
  nothing but an honest frame another engine published (`Divergence.HonestFrameCostsRequest`). The store never
  makes a request succeed that fails without it.
* `write_block` takes the block size from the tensor (src/models/common/paged.rs:235), so in a hand-built
  bundle tensors that are longer or shorter than a block are written across other blocks.
  `ImportReach.WriteBlockInPlaceExactly` and `ImportReach.ImportSparesExactly` say exactly when a write and an
  import stay where they belong; `Divergence.HalfSizedImportOverwrites` is an accepted import that overwrites a
  registered block. Decoded bundles always stay.
* The comment on invariant I6 (src/distkv/master.rs:12) says reservations never exceed a worker's capacity.
  They can: a refused `put_start` and an overwrite of an old-epoch placement let go of what they should
  not (`Capacity.RefusalOverbooks`, `Capacity.OldEpochReleaseOverbooks`, both runs from the empty system).
  `Capacity.OverbooksExactly` is the exact condition for one step, for new keys and overwrites alike: every
  `put_start` of a key leaves a worker's reservations within capacity if and only if, once the key's previous
  reservation is let go, what is still used is what the other keys have reserved. An exact account is not
  enough: `OldEpochReleaseOverbooks` goes from 60 to 160 bytes on a worker of 100 in a single overwrite.
  `Capacity.StartedExactly` says when a `put_start` keeps accounts exact, and `Capacity.CapacityIsAccounted`
  what holds on every run.
* A co-located reader can go on reading an older committed generation after an overwrite elsewhere
  (`ReadBack.StaleIndexIsReachable`), as test/tla-plus/DistKVCore.tla:341-352 says it may;
  `ReadBack.ReadsNewestExactly` says which readers get the newest.

## Model

| member | source | states |
|---|---|---|
| Network.Causal | src/models/common/model.rs:43-59 | the activations, keys and values of a position depend on the tokens up to it only |
| PoolWrite.WriteIsScatter | src/models/common/paged.rs:186-204 | the run-coalescing loop leaves the pool as writing token i to slots[i] one at a time would, for the intended test always and for the test as written when no run goes astray |
| PoolWrite.WriteAt | src/models/common/paged.rs:186-204 | a batch over distinct slots puts each token in its slot and leaves every other slot alone |
| PoolWrite.AsWrittenExact | src/models/common/paged.rs:192-202 | over any kind of cell of which there are two, the loop as written is right for every pool and batch if and only if a slot equal to its batch index is followed by such slots only |
| PoolWrite.AstrayRunIsWrong | src/models/common/paged.rs:192-202 | otherwise some token lands in the slot numbered like its batch index |
| PoolWrite.StrayTokenIsLost | src/models/common/paged.rs:192-202 | once a run has gone astray, a later token whose slot is not its index never reaches that slot |
| WriteExact.AsWrittenLiveExactly | src/models/common/model.rs:43-59 | when its allocation goes through, a forward call with the loop as written leaves past and new tokens live for every network of the cache's shape if and only if no run of its batch goes astray, or cells have no elements |
| Allocator.Fresh | src/models/common/paged.rs:13-19 | a new allocator has every block free once and no references |
| Allocator.TakeBalanced | src/models/common/paged.rs:21-25 | allocation fails exactly when no block is unreferenced, and hands out a block nobody holds |
| Allocator.DecrefBalanced | src/models/common/paged.rs:32-44 | dropping a held reference never underflows and frees the block exactly at zero |
| Allocator.RegisterBalanced | src/models/common/cache.rs:152-156 | the registry's own reference keeps counts equal to table plus registry occurrences |
| Allocator.DropAll | src/models/common/cache.rs:100-106 | releasing a list of references one by one keeps the counts and the free list exact |
| Allocator.DropEntries | src/models/common/cache.rs:354-358 | draining the registry in any order keeps them exact |
| CacheState.SoleOwner | src/models/common/paged.rs:7-53 | a block with one reference that is in the table is there once and in no registry entry |
| CacheState.Reset | src/models/common/cache.rs:100-106 | an empty sequence, registry and pool untouched, counts exact, no block lost |
| CacheState.ClearKeepsInv | src/models/common/cache.rs:351-358 | clearing the registry leaves the live sequence its blocks |
| CacheState.AllocateKv | src/models/common/cache.rs:429-447 | succeeds if and only if the new length is within the window and free blocks cover it; failure keeps length and every invariant |
| CacheState.HashOfPrefix | src/models/common/prefix.rs:8-16 | the chained hash of a path does not look past it |
| CacheState.Match | src/models/common/cache.rs:112-140 | the table holds registered blocks for the first blocks of the prompt, stops at the cap or the first miss, and advances by what it took |
| CacheState.Register | src/models/common/cache.rs:145-159 | entries are only added, and the sequence keeps sole ownership of what it may still write |
| Served.RegisterExactly | src/models/common/cache.rs:145-159 | the registry afterwards is what was there and an entry under the hash of every full block of the prompt and no other, for that block's tokens and the block that holds them |
| CacheState.Import | src/models/common/cache.rs:238-349 | success imports a checked prefix of the prompt; a rejected bundle changes nothing; later failure leaves an empty sequence and the same registry |
| Session.WriteCurrent | src/models/common/cache.rs:71-77 | writing a batch touches its layer only |
| Session.Forward | src/models/common/model.rs:43-59 | a forward call at or below the live length succeeds exactly when allocation does, and extends the sequence by its tokens |
| Session.PrefillSuffix | src/models/common/model.rs:68-85 | success needs a nonempty suffix and returns logits for it |
| Session.ImportRemote | src/kv_cache/manager.rs:207-217 | decoding, model check and import: success leaves the imported prefix live, failure a usable cache |
| Session.Acquire | src/kv_cache/manager.rs:155-192 | whatever the remote answers, reuse equals the live length, and reaches the whole prompt only through an import |
| Session.Prefill | src/kv_cache/manager.rs:151-202 | success leaves exactly the prompt live, with logits for every token that was not reused; registered entries are never dropped |
| Session.Generate | src/engine.rs:219-263 | each generated token extends the sequence by one |
| Contents.WriteLands | src/models/common/cache.rs:69-77 | a batch write lands in its own positions; earlier positions and every registered block keep their contents |
| Contents.LayerExact | src/models/common/model.rs:55-57 | one layer over the cache is one layer of a cold run |
| Contents.LayersExact | src/models/common/model.rs:43-59 | so is the whole layer loop, and registered blocks stay as they were |
| Transparency.ForwardExact | src/models/common/model.rs:43-59 | a forward call at the live length leaves past and new tokens live and returns a cold run's logits |
| Transparency.RegisterSound | src/models/common/cache.rs:142-159 | registering a live prompt adds entries whose blocks hold what they are registered for |
| Transparency.HitHolds | src/models/common/prefix.rs:32-38 | absent collisions, a registry hit holds the keys and values of the prompt's own block |
| Transparency.TakeLocalExact | src/models/common/cache.rs:108-140 | whatever was live before, a local match is live and exact |
| ImportProofs.LandFromAt | src/models/common/cache.rs:304-321 | for tensors of the cache's block size, as every decoded bundle's are: every block the import got through is in the pool as the bundle has it, and no block held before has changed |
| ImportProofs.ImportSparesRegistered | src/models/common/cache.rs:230-349 | for such tensors, success or failure, an import never touches a registered block |
| ImportReach.WriteBlockInPlaceExactly | src/models/common/paged.rs:211-240 | for any tensors, a block write leaves all other blocks alone whatever cells the pool holds if and only if it is refused, or its tensor is empty, as long as a block, or at most as long and written as block 0, or cells have no elements |
| ImportReach.ImportSparesExactly | src/models/common/cache.rs:230-349 | for any bundle, an import leaves registered blocks alone whatever cells the pool holds if and only if none of the writes it gets to, told from the free list and the tensor shapes, reaches one, or cells have no elements |
| ImportReach.SizedReachesNothing | src/models/common/cache.rs:288-321 | tensors of the cache's block size are written into free blocks only, so they reach no registered one |
| ImportReach.ImportAllOrNothing | src/models/common/cache.rs:235-330 | for any bundle: a failed import leaves the registry as it was, and registered contents too unless a write reached one; past the checks it leaves the counts and free blocks of a reset; running out of blocks is found before anything is allocated |
| ImportProofs.ImportExact | src/models/common/cache.rs:238-349 | importing an honest bundle leaves the cold run's contents live and the registry sound |
| PrefillProofs.AcquireExact | src/kv_cache/manager.rs:143-192 | cold, local, remote or fallen back, the acquired prefix is exact |
| PrefillProofs.PrefillTransparent | src/kv_cache/manager.rs:143-202 | every prefill keeps registered contents; one that succeeds leaves the whole prompt live with the cold run's keys, values and logits |
| Runs.GenerateExact | src/engine.rs:219-263 | every decoded token is answered with the logits of a cold run over everything before it |
| Runs.DecodeIsItsCalls | src/engine.rs:219-263 | the decode loop is a chain of forward calls, one a token at consecutive positions, each on the cache the one before leaves; all are made if it succeeds |
| Runs.RequestIsItsCalls | src/kv_cache/manager.rs:151-202 | a request makes the suffix prefill's call first, succeeds in prefill if and only if that call does, and then makes the decode loop's |
| Runs.PositionsAligned | src/engine.rs:219-263 | at every forward call of a request the RoPE position equals the live length the call finds |
| Runs.RunOf | src/models/common/cache.rs:14-20 | reference conservation, pool shape and tail ownership hold after every run of requests, failed ones included, whatever the remote sends and however the write loop goes |
| Runs.RunTransparent | src/kv_cache/manager.rs:143-202 | after any run of requests from an empty cache, the next one that succeeds is answered as a cold run would be |
| Reuse.CapFormulasAgree | src/kv_cache/key.rs:29-34 | the key builder's and the cache's formulas agree for every block size and length: the largest multiple strictly below a nonempty prompt |
| Reuse.MatchIsLongest | src/models/common/cache.rs:108-140 | a match is the longest registered chain within the cap |
| Reuse.RegistryPersists | src/models/common/cache.rs:71-159 | until the registry is cleared, every entry keeps its block and the block its contents, whatever later requests do and whatever the remote sends |
| Reuse.ReuseNeverShrinks | src/models/common/cache.rs:466-475 | so over every run without a clear a prompt never matches less |
| Served.PrefillRegisters | src/kv_cache/manager.rs:195-201 | a prefill that succeeds has every full block of its prompt registered |
| Served.ServedIsReused | src/models/common/cache.rs:108-159 | over every run from an empty cache, until a clear, a prompt that starts with a served one reuses all of its full blocks, or as many as leave it a suffix, absent collisions |
| Served.ClearedReusesNothing | src/models/common/cache.rs:351-358 | after a clear nothing is reused |
| Served.NothingLeaks | src/models/common/cache.rs:14-20 | over every run, a clear and a reset give every block back, each once |
| Hashing.StepsApartIsEnough | src/models/common/prefix.rs:8-16 | two paths share a chained hash only where the hash function itself collides, or gives the seed, on a block and parent of theirs |
| Outcomes.PrefillSucceedsExactly | src/kv_cache/manager.rs:151-202 | a prefill succeeds if and only if the prompt is nonempty, fits the window, is not covered by an object the engine takes, and the blocks matched and free cover it, all told from what it is called with |
| Outcomes.RequestSucceedsExactly | src/engine.rs:169-277 | a request is served to its last token if and only if moreover the window and the blocks matched and free hold prompt and replies |
| Outcomes.AllocateOutcome | src/models/common/cache.rs:429-447 | allocation moves blocks from the free list to the table and loses none; for want of blocks it takes them all |
| Outcomes.AcquireReports | src/kv_cache/manager.rs:155-192 | reuse, imported tokens, hit and error a session reports, each told from the inputs |
| Outcomes.PrefillReports | src/kv_cache/manager.rs:195-201 | a prefill that succeeds reports the taken object's tokens or else the local match, and computes logits for all others |
| Outcomes.ServedPublishesExactly | src/kv_cache/manager.rs:251-289 | a served session has a frame to put if and only if there is a store, the prompt has two blocks, and neither local match nor taken object held its reusable prefix |
| Outcomes.StoreCostsExactly | src/kv_cache/manager.rs:143-202 | a prefill succeeds with the store if and only if it succeeds without it and the store's object is not one the engine takes that covers the whole prompt or that the free blocks alone leave no room beside |
| Outcomes.WholePromptAborts | src/kv_cache/manager.rs:163-194 | a nonempty prompt fails for want of a suffix if and only if the engine takes an object that covers the whole prompt; a hit and no error are recorded |
| Outcomes.WholePromptIsReachable | src/kv_cache/manager.rs:163-194 | for every block-aligned prompt of two blocks or more there is such an object on a new cache |
| Divergence.HonestFrameCostsRequest | src/kv_cache/manager.rs:143-202 | after a request of one block, a prompt as long as the window that starts with it succeeds without the store, and fails when the store answers with the honest frame an engine of the same configuration published for it |
| Reuse.AgreesWithCold | src/models/common/model.rs:87-98 | a successful prefill and a cold run in an empty cache hold the same keys and values and end in the same logits |
| Reuse.ColdIsTransparent | src/models/common/model.rs:87-98 | any first request on an empty cache meets the hypotheses of transparency, even with the write loop as written |
| Bundle.RowOfTensorOf | src/models/common/cache.rs:203-209 | copying pool slots into a contiguous tensor and reading a slot back gives the slot |
| Codec.LeRoundTrip | src/kv_cache/bundle.rs:218-238 | little-endian words survive encoding and decoding |
| Codec.DecodedIsPortable | src/kv_cache/bundle.rs:145-214 | an accepted frame's payload is the re-encoding of its decoded tensors, and its metadata fits them |
| Codec.CodecInverse | src/kv_cache/bundle.rs:108-214 | decode(encode(b)) = b if and only if token ids, block indices and tensor shapes agree with the metadata |
| Codec.EncodesExactly | src/kv_cache/bundle.rs:108-143 | a bundle is encoded if and only if its blocks are as many as its metadata say, of their layer count and dtype |
| WireFormat.PrefixBytes | src/kv_cache/bundle.rs:1-23 | the ten bytes before the header, and the header, are what the documented format has |
| WireFormat.FrameAt | src/kv_cache/bundle.rs:1-23 | every byte of every element of every tensor is where the documented format has it: block by block, layer by layer, keys before values, row-major, little-endian |
| Codec.SizeCheckExactly | src/kv_cache/bundle.rs:180-193 | the payload size check in wrapping 64-bit arithmetic decides as over whole numbers for every payload if and only if the size is below 2^64 |
| CrossNode.ExportIsHonest | src/models/common/cache.rs:166-228 | what is exported from a sequence that starts with the prompt, whatever was decoded after it, is the cold run's keys and values |
| CrossNode.ImportSucceedsExactly | src/models/common/cache.rs:238-349 | a frame's bundle is imported if and only if the checks accept it and enough blocks are free |
| CrossNode.CrossNodeRoundTrip | src/models/common/cache.rs:166-349 | export, encode, decode and import put the exporter's contents into the importer, every layer and position |
| CrossNode.ImportedIsReused | src/models/common/cache.rs:332-346 | after a reset, a longer prompt that starts with the imported tokens reuses at least those |
| Publish.RunPoolOk | src/models/common/paged.rs:128-135 | from an empty cache pool cells keep their shape and width over every run, whatever the remote sends |
| Publish.FinishPublishesExactly | src/kv_cache/manager.rs:251-289 | after a request that left the prompt live, there is a frame to put if and only if the store is enabled, the prompt has two blocks, and less than the reusable prefix was reused |
| Publish.PublishedIsHonest | src/kv_cache/manager.rs:251-289 | a frame published from a sequence that starts with the prompt, whatever was decoded after it, is an honest remote object for every engine of the same fleet |
| Publish.ServedPublishesHonest | src/engine.rs:219-277 | so is the frame published after any served request, whatever it reused, imported and decoded |
| Divergence.LoopAsWrittenCorrupts | src/models/common/paged.rs:196 | on a cache of three blocks, a short first request turns the free list round and the next prompt's batch leaves token 32 in position 0, so the sequence is not live unless the two tokens have the same keys and values |
| Divergence.HalfSizedImportOverwrites | src/models/common/paged.rs:211-240 | after a request of one block, importing a bundle with tensors of half a block succeeds and overwrites half of the registered block |
| Attention.RepeatKvAt | src/backend/cpu.rs:3-13 | query head h reads KV head h / n_rep |
| Attention.SoftmaxSumsToOne | src/backend/cpu.rs:39-41 | the dense softmax is a distribution |
| Attention.FoldSummarizes | src/backend/cpu.rs:96-106 | folding a block keeps running maximum, sum and accumulator those of everything seen |
| Attention.MaxIsFinite | src/backend/cpu.rs:71-104 | from the first block on every row's maximum is finite, so minus infinity is never subtracted from itself |
| Attention.SummaryIsDense | src/backend/cpu.rs:109-111 | the final divisor is positive and the quotient is dense attention |
| Attention.DenseSeesPrefix | src/backend/cpu.rs:53-56 | under the mask positions past a query's own contribute nothing |
| DenseLaws.VisibleExactly | src/backend/cpu.rs:53-56 | the weight of a position is positive if it is not past the query's own and zero otherwise, read off dense attention over one-hot values |
| DenseLaws.WeightRatio | src/backend/cpu.rs:22-56 | of two visible positions the weights are to each other as the exponentials of their scaled scores |
| DenseLaws.DenseIsMixture | src/backend/cpu.rs:22-56 | every row is the mixture of the value rows with these weights, which add up to one |
| DenseLaws.DotReads | src/backend/cpu.rs:22-56 | the dot product reads components off unit vectors, which with DotAdds and DotScales fixes it |
| Attention.PagedAttention | src/backend/cpu.rs:57-112 | for nonempty blocks of one shape and no more queries than keys, every row is dense causal attention over the concatenated blocks, however they are cut |
| Paged.BlockAllocator.Allocate | src/models/common/paged.rs:21-25 | in place, exactly Allocator.Take |
| Paged.BlockAllocator.Decref | src/models/common/paged.rs:32-44 | in place, exactly Allocator.Decref |
| Paged.PagedKvPool.RunLength | src/models/common/paged.rs:194-198 | the inner loop finds the run the specification says |
| Paged.PagedKvPool.Write | src/models/common/paged.rs:186-204 | the nested loops leave exactly PoolWrite.WriteFrom in the layer and nothing else changed |
| Paged.PagedKvPool.WriteBlock | src/models/common/paged.rs:211-240 | keys then values, with the same refusals, including keys written when the values are refused |
| Paged.PagedKvPool.BlockView | src/models/common/paged.rs:266-279 | a view is the run of slots it names |
| PagedCache.PrefixRegistry.DrainBlockIds | src/models/common/prefix.rs:54-56 | empties the map and returns each entry's block, in some order |
| PagedCache.KvCache.constructor | src/models/common/cache.rs:21-41 | a new cache satisfies the invariant |
| PagedCache.KvCache.AllocateKv | src/models/common/cache.rs:429-447 | the allocation loop leaves exactly CacheState.AllocateKv |
| PagedCache.KvCache.WriteCurrent | src/models/common/cache.rs:71-77 | exactly Session.WriteCurrent |
| PagedCache.KvCache.GatherBlocks | src/models/common/cache.rs:83-96 | nonempty views of at most a block that together are the live keys and values |
| PagedLayer.GatheredOperands | src/models/common/cache.rs:83-96 | such views have the shapes the kernel asks for, and joined head by head they are the gathered cells |
| PagedLayer.KernelRow | src/backend/cpu.rs:53-56 | attention of a query over all live cells is attention over those up to its own position |
| PagedLayer.NetOfComputes | src/models/common/attention.rs:66-117 | projections of the cache's shape, queries and a rest make a network of this form |
| PagedLayer.Forward | src/models/common/attention.rs:66-117 | a layer that writes, gathers and streams the kernel leaves and answers exactly what the layer loop asks for: grouped-query causal attention over the live cells |
| PagedCache.KvCache.ResetSequence | src/models/common/cache.rs:100-106 | exactly CacheState.Reset |
| PagedCache.KvCache.MatchPrefix | src/models/common/cache.rs:112-140 | exactly CacheState.Match, returning the tokens taken |
| PagedCache.KvCache.RegisterPrefix | src/models/common/cache.rs:145-159 | exactly CacheState.RegisterFrom |
| PagedCache.KvCache.ClearPrefixCache | src/models/common/cache.rs:354-358 | exactly CacheState.Clear for the order the map drains in |
| PagedCache.KvCache.ImportBlocks | src/models/common/cache.rs:303-321 | the import loop with its early exits leaves exactly CacheState.LandFrom |
| PagedCache.KvCache.ImportPrefixBundle | src/models/common/cache.rs:238-349 | exactly CacheState.Import, rollback included |
| PagedCache.KvCache.ExportPrefixBundle | src/models/common/cache.rs:166-228 | exactly CrossNode.Export |
| Serving.Forward | src/models/common/model.rs:43-59 | allocate once, then layer by layer write, gather and stream the kernel: exactly Session.Forward for grouped-query attention |
| Serving.PrefillSuffix | src/models/common/model.rs:68-85 | exactly Session.PrefillSuffix |
| Serving.KvSession.AcquirePrefix | src/kv_cache/manager.rs:155-192 | cache and hit, import and error fields are exactly Session.Acquire |
| Serving.KvSession.Prefill | src/kv_cache/manager.rs:151-202 | exactly Session.Prefill, the session's fields included; reused tokens and logits add up to the prompt |
| Serving.KvSession.Finish | src/kv_cache/manager.rs:251-289 | exactly Publish.Finished: the guards, the publish policy, export and encoding |
| Serving.Decode | src/engine.rs:219-263 | the decode loop is exactly Session.Generate |
| Serving.Generate | src/engine.rs:169-277 | session, prefill, decode loop and finish, with the kernel in every layer, leave exactly what a request of a run leaves and publish exactly what an engine of the fleet exports |
| FrameCodec.Encode | src/kv_cache/bundle.rs:108-143 | the nested loops build exactly Codec.Encode, with the same errors |
| FrameCodec.DecodeBlocks | src/kv_cache/bundle.rs:191-212 | the offset stays in range and ends exactly at the end of the payload |
| FrameCodec.Decode | src/kv_cache/bundle.rs:145-214 | exactly Codec.Decode |
| Master.MasterState.RegisterWorker | src/distkv/master.rs:79-106 | a new epoch, nothing used, alive |
| Master.MasterState.ReceiveHeartbeat | src/distkv/master.rs:108-123 | accepted for the current epoch only |
| Master.MasterState.MostFree | src/distkv/master.rs:157-163 | the worker with the most free space of those alive with room, or none has room |
| Master.MasterState.PutStart | src/distkv/master.rs:131-200 | the old reservation is let go even on refusal; a usable preferred worker is taken, else one with most room; the generation grows by one |
| Master.MasterState.PutCommit | src/distkv/master.rs:202-217 | commits only the open generation with its own put id |
| Master.MasterState.LookUpRoute | src/distkv/master.rs:219-254 | exactly Master.GetRoute, which Liveness.HeardIsUsed characterizes |
| Worker.Put | src/distkv/worker.rs:39-61 | a write goes in exactly when it fits, and the store's books equal what it holds, never above capacity |
| Worker.Delete | src/distkv/worker.rs:67-72 | an eviction removes one generation and gives back its bytes |
| Worker.WorkerStore.PutBytes | src/distkv/worker.rs:39-61 | exactly Worker.Put; the subtraction never underflows |
| Worker.WorkerStore.DeleteGeneration | src/distkv/worker.rs:67-72 | exactly Worker.Delete |
| Worker.LocalKvHandle.TryGetCommitted | src/kv_cache/local.rs:32-47 | serves only the generation marked committed |
| DistKv.StepKeepsInv | src/distkv/master.rs:6-12 | every step of every participant keeps: records are the newest puts, stores hold only what those puts wrote, indexes and routes name committed generations |
| DistKv.EveryReadIsExactOrMiss | src/kv_cache/distkv_store.rs:40-76 | over every interleaving, a local-first read or a fetch along any route ever issued is a miss or the bytes of an accepted commit on that key |
| DistKv.CommitsOnceWhileNewest | src/distkv/master.rs:202-217 | a commit is accepted if and only if its put is the key's newest and was not committed before |
| DistKv.PutStartOpensFresh | src/distkv/master.rs:175-191 | every successful put_start opens a generation never issued before, above all others of its key |
| DistKv.RoutesNeverGoBack | src/distkv/master.rs:219-254 | successive routes for a key never go down in generation, and each names the newest then |
| DistKv.OrphanIsNeverRouted | src/distkv/master.rs:237-244 | once its worker has registered again, an object is never routed to until a new put |
| DistKv.RegisterOrphans | src/distkv/master.rs:76-106 | re-registration invalidates every placement on the worker |
| DistKv.SilentIsNotUsed | src/distkv/master.rs:125-129 | a worker declared dead or silent past the timeout gets no route and no placement until heard of again |
| Liveness.HeardIsUsed | src/distkv/master.rs:125-200 | over every run, if the last accepted sign of life of a worker came at t and it was not declared dead since, then its committed objects are routed to if and only if now <= t + 10,000 ms, and a put that prefers it is placed there if and only if moreover it fits; one placed elsewhere goes where there is no less room |
| Liveness.DeclaredIsNotUsed | src/distkv/master.rs:125-129 | a worker declared dead gets no route and no placement until heard of again |
| DistKv.GenerationsCountPuts | src/distkv/master.rs:175-191 | over every run a key's generations are one, two and so on up to the one on record |
| RouteLife.RouteServesLater | src/distkv/client.rs:145-152 | over every run, a route that was handed out can be followed, and indexed by the engine next to it, at any later time while the bytes are there |
| RouteLife.LossIsMissed | src/distkv/worker.rs:63-72 | what is evicted or lost is missed by every reader until it is written again |
| Capacity.StartedWithin | src/distkv/master.rs:131-200 | put_start keeps used bytes within capacity and within current-epoch reservations |
| Capacity.StartedExactly | src/distkv/master.rs:134-145 | from exact accounts put_start leaves exact accounts if and only if neither want of room nor an overwrite of an old-epoch placement lets go of anything still counted |
| Capacity.OverbooksExactly | src/distkv/master.rs:12 | on a live worker, every put_start of a key, new or not, leaves the reservations within capacity if and only if what is still used once its previous reservation is let go equals what the other keys have reserved |
| Capacity.CapacityIsAccounted | src/distkv/master.rs:79-200 | over every run used is at most capacity and at most the reservations; equal on runs without re-registration or refused overwrites |
| Capacity.RefusalOverbooks | src/distkv/master.rs:134-145 | a reachable run with 120 bytes reserved on a worker of 100 |
| Capacity.OldEpochReleaseOverbooks | src/distkv/master.rs:134-145 | a run from the empty system to exact accounts with 60 of 100 bytes reserved, from which one overwrite of an old-epoch placement leaves 160 reserved |
| ReadBack.RoutedRead | src/distkv/client.rs:145-152 | a committed generation the Master points at and the worker stores is what route and fetch return |
| ReadBack.ReadsNewestExactly | src/kv_cache/distkv_store.rs:40-76 | of a committed generation the Master points at, stored on a live worker, a reader gets the bytes if and only if it has no committed copy of its own or one with these bytes |
| ReadBack.ReadBackAfterPut | src/kv_cache/distkv_store.rs:78-107 | over every interleaving, after a successful put and until a newer put_start, an eviction, a loss of memory or a re-registration, a reader without a handle gets exactly its bytes while the worker is alive, and a co-located one if and only if its own committed copy, if any, has them |
| ReadBack.ReadBackPinned | src/kv_cache/distkv_store.rs:99-105 | a put pinned to the engine's own worker is read back without the Master |
| ReadBack.StaleIndexIsReachable | src/kv_cache/distkv_store.rs:44-48 | a reachable run on which a co-located reader gets an older committed generation while others get the newest |
| ObjectStore.DistKvObjectStore.GetObject | src/kv_cache/distkv_store.rs:40-76 | local first, then the route, in process when it leads home; the answer, what is marked in the index, and a hit answers the same again |
| ObjectStore.DistKvObjectStore.AnswerIsRead | src/kv_cache/distkv_store.rs:40-76 | that answer is the protocol's local-first read of the same state, an unreachable worker aside |
| ObjectStore.DistKvObjectStore.PutObject | src/kv_cache/distkv_store.rs:78-107 | from the state before: refused if and only if no worker has room; else it succeeds if and only if the worker chosen is reachable and its store takes the bytes, and the commit is never refused; the state it leaves; and what later reads answer |
| ObjectStore.Registration.Tick | src/distkv/registration.rs:64-81 | after each turn worker and Master agree on the epoch; only a refused heartbeat registers again |
| EndToEnd.SharedPrefillTransparent | src/kv_cache/manager.rs:143-202 | whatever the shared store answers after any run of the protocol in which engines publish live prefixes, prefill is transparent |
| Fleet.FleetTransparent | src/engine.rs:169-277 | over every run of any number of engines and the store, all starting empty, every engine stays ready and every request that succeeds is answered, prompt and decoded tokens, with cold logits |
| Fleet.EnginesRun | src/engine.rs:169-277 | every engine of the fleet runs as it would alone, on the requests it gets and what the store answers them |
| Fleet.StoreRuns | src/distkv/master.rs:6-12 | the store of the fleet runs as the protocol alone |
| Sharing.SecondEngineReuses | src/kv_cache/manager.rs:143-289 | a run of the fleet, for every prompt of two blocks or more, on which a second engine reuses all of the reusable prefix that the first computed, published and put |

## Left out

- Model weights, projections, RMSNorm, MLP, RoPE tables: the network is a set of opaque maps.
- Serving.Forward: the mutable model runs the kernel, so it is for networks whose `mix` is grouped-query attention, as the code's are; the theorems about Session are for any `mix`.
- Floating point: attention is over the reals; element dtypes enter as bit patterns and byte widths only.
- The block size of the cache is the constant 16 of src/models/common/cache.rs:10; `Reuse.CapFormulasAgree` is for every block size.
- Machine integers: counts and sizes are unbounded; saturating subtractions are written out.
- FrameCodec.Decode: the payload size check is over whole numbers; a header whose size reaches 2^64 is outside, as Codec.SizeCheckExactly says.
- Tensor rank: tensors have three axes here, so the rank check and the squeezes of `write_block` are gone; a batch of one is assumed throughout.
- Dtypes a bundle cannot carry: `from_candle` returning nothing is not reached, because the configured dtype is one of the three.
- ImportProofs.LandFromAt: for tensors of the cache's block size; for others it is false, and ImportReach has the exact condition.
- ImportProofs.ImportSparesRegistered: for such tensors; ImportReach.ImportSparesExactly is for every bundle.
- EndToEnd.SharedPrefillTransparent: that publishers are live is a hypothesis there; Fleet.FleetTransparent derives it.
- Session.Generate: the tokens are given; the sampler, stop sequences and end-of-sequence checks only decide how many there are.
- Serving.KvSession.Finish: the network put the engine makes of the frame afterwards is a step of the protocol in Fleet, not of the session.
- Paged.PagedKvPool.Write: the inner loop is a method of its own, RunLength.
- Master.MasterState.PutStart: the put id is an input, and fields that only ever hold one value once set (reserved, the optional worker and put id) are plain fields.
- ObjectStore.DistKvObjectStore.PutObject: put and get run without interference there; interleavings are in DistKv and ReadBack.
- ObjectStore.Registration.Tick: the endless loop, the sleeps and the retry while the Master is unreachable are left to the caller.
- Read leases and lease expiry: no code checks them.
- Master restart: generations would begin again at one.
- Object states Failed and Removed, the fault simulator, HTTP routing, percent-encoding of keys, the prefix object key's own hash, the causal mask cache: unreached, input and output, or easy.
