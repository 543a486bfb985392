# Relayed layers, cut artifacts and their evidence

The repository runs one language model across several engines: each segment owns a run of
layers and its own cache, and hidden rows are relayed from one segment to the next. This
project models the parts of it that carry logic and proves what they promise.

* **Relay decoding** (`CausalLayers`, `DecodeBatch`, `NativeContexts`, `GreedyReference`,
  `SegmentRunners`, `MiddleChains`, `BatchLayout`, `RelayDriver`, `RelayRun`, `RawPrefill`, `RawRelay`,
  `L2LProbe`). A layer is an arbitrary causal function: the row it puts out at a cell depends on the rows and
  positions up to that cell, and on nothing else. An engine is a stack of layers with one cache
  per layer; it masks by sequence and position exactly as a batched native decode does. The
  driver loops, the middle chain, the runners with their positions and the all-native probe are
  classes and loops over such engines. Their tokens are the greedy tokens of one model that
  holds all the layers, and a run fails exactly when some segment's context is too small for it.
* **Sessions** (`RelaySession`, `SessionMeaning`, `RelayClients`, `ServedProbe`, `EdgeBench`). The
  connection loop of a served head, middle or tail and its accept loop, and what replies mean: the
  segment's layers from scratch over just what that session brought, at the places it named or one
  after the other, however it was framed. The client at the other end, and the all-native probe with
  every segment behind such a session. The bench feeds one segment the same way.
* **Cutting layers** (`CutLayers`, `CutProperties`, `RelayOfCuts`). Which cuts are accepted, what
  they write, how they compose and partition, and end to end: a relay over artifacts cut at any
  accepted points generates the source's tokens.
* **Evidence** (`ProductGate`, `ProductRun`, `EvidenceFiles`, `RunReading`, `BundleCombine`, `BundleOpened`,
  `BundleGate`, `SampleRun`, `SampleBundle`, `BundleLosses`, `SampleGate`). The gate over one captured run, and the combination
  of two bundles: exactly when the validator that accepted both accepts it again.
* **Asset sync** (`AssetSync`). Prepare, upload and commit against a remote host, interrupted
  anywhere.
* **Import audit** (`ImportVisitor`, `ImportClosure`). The visitor with its depth counters, the
  worklist and the verdict.
* **Fenced worker** (`FencedWorker`). The control loop that fences frames by generation, attempt
  and sequence.
* **Arithmetic over the reals** (`HiddenQuant`, `LinearFit`, `CutPlanVerdict`). Block quantisation,
  the fitted line and the planner's verdict.

`Results` and `Arithmetic` hold what the others share. Check everything with
`dafny verify dfyconfig.toml`.

## What the code does not do

Five properties are false of the code as it stands; for each there is a concrete case or a whole
failing family, and a statement of exactly when the property holds.

* The worker assigns a new generation before it looks up the attempt, so a `set_generation`
  without an attempt is refused after half its effect. The next frames are then accepted under
  the new generation in the same unbroken sequence (`FencedWorker.FenceCanFail`). A refused
  command leaves the state alone exactly when it is not of that kind
  (`FencedWorker.RefusedLeavesState`), and one command breaks the fence exactly when it is and
  frames have been accepted (`FencedWorker.FenceStep`). A refused frame never changes anything.
* A list of recurrent layers is only as long as the ordinary layers, but the cutter slices every
  list up to the block count. A tail cut with such a list is accepted exactly when the source has
  no MTP blocks (`CutProperties.TailWithRecurrentList`, which gives the family;
  `CutProperties.TailIsRefused` and `CutProperties.TailIsAccepted` are one source with and without
  them).
* Two accepted bundles may be refused once combined. The gate follows the raw capture each
  topology node cites and the screen the UI attachment cites. A validator that refuses what it
  cannot read, as the gate does, accepts the combination exactly when each of those files is
  supplied: named by an attachment of an input, by its run, or by an attachment that the combiner
  opened, or present in the output directory under that digest
  (`BundleCombine.PassesIffAllSupplied`, for the gate `BundleGate.GateAcceptsAgainIff`). The native
  summary of an accepted run cites the same raw captures as the topology, so it is enough that the
  UI attachment and one of those two are opened (`BundleGate.EnoughOpenedPasses`); when the captures
  are cited by the summaries only and the screen by the UI attachment only, it is needed too
  (`BundleGate.GatePassesIffEnoughOpened`). The combiner opens only files named `.json`, and skips a
  file that was found as a nested reference when its turn as an attachment comes
  (`BundleOpened.KeyOpenedIff`). So, whatever else the files of two such bundles hold, their
  combination is refused when the UI attachment of one has another name, when both its summaries
  have, or when another of its attachments refers to the UI attachment, and in no other case
  (`BundleLosses.PairPassesIff`; `SampleGate.SampleCombination` for a gate that accepts them).
* The significance test asks only the interior cut with the least median. A wide spread there
  hides another interior cut that does clear both ends (`CutPlanVerdict.TestCanMiss`). Between
  whatever outermost rows, nothing is hidden exactly when no interior row's median plus half its
  spread is below that of the row with the least median (`CutPlanVerdict.NeverMissesIff`).
* The driver accepts any batch for the raw-binding path, whose engine is told of no sequences and
  places all rows on one. With one sequence a run gives the greedy tokens. With several it succeeds
  exactly for at most one token, when the engine takes all the prompts one behind the other, and the
  token of sequence b is then read behind b copies of the prompt (`RawRelay.RunRaw`): that of
  the first is the greedy one (`RawPrefill.FirstIsGreedy`), the others' may be others
  (`RawPrefill.SecondCanDiffer`). The refusal of a second step is not in the repository's code: it is the engine's, which takes no position that does not ascend
  (`DecodeBatch.Fits`).

## Modelling choices

* Rows, logits and times are reals. A native decode refuses an empty batch, more rows than
  `n_batch`, a sequence or position beyond the context and a position that does not ascend within
  its sequence; it then leaves its caches as they were. These limits are the model of the engine.
* A middle chain without segments (the `Direct` constructor) is the two-segment path.
* Digests are arbitrary functions. Where a conclusion needs that two contents with one digest are
  equal, the lemma says so in its `requires`; collecting and copying say everything else without.
* Composite identifiers such as `<task>:step:<n>` are pairs.
* `File.Replace` either happens or does not. Attempts to sync one target follow one another.
* Whether an engine survives a reset, whether a frame's body decodes and how a bundle is written
  down are inputs of the model.
* The raw observations of a node are an arbitrary function of what they read. So is the validation
  of one run inside a bundle, up to the theorems about the gate.

## Model

| member | source | states |
|---|---|---|
| `CausalLayers.StackPrefix` | scripts/relay_experiment.py:860-877 | later rows never change what a causal stack put out for earlier ones, which is what a cache relies on |
| `CausalLayers.StackConcat` | scripts/relay_experiment.py:590-598 | running one run of layers on the output of another is running both |
| `DecodeBatch.VisiblePrefix` | scripts/relay_mid_service.py:204-233 | with ascending positions, a row of a batch sees exactly the rows of its own sequence up to itself, although all were stored first |
| `DecodeBatch.LayerIsEmit` | scripts/relay_mid_service.py:204-233 | one layer over a stored batch equals that layer over the rows one at a time |
| `DecodeBatch.DecodeIsEmit` | scripts/relay_mid_service.py:204-233 | a batched decode through all layers equals the from-scratch outputs of the longer histories, and leaves the caches of those histories |
| `DecodeBatch.EmitConcat` | scripts/relay_experiment.py:590-598 | feeding two segments one after the other, rows and caches, is feeding one segment that holds both |
| `DecodeBatch.EmitSplit` | scripts/edge_bench.py:308-323 | a batch cut in two gives the same rows, the second part on the history the first left |
| `NativeContexts.AcceptsThrough` | scripts/relay_experiment.py:529-571 | a later segment accepts a step exactly when its limits accept the step as it entered the pipeline |
| `NativeContexts.NativeContext.Decode` | scripts/relay_mid_service.py:91-116 | an accepted batch advances the caches and returns all layers' rows; a refused one changes nothing |
| `NativeContexts.NativeContext.Reset` | scripts/relay_mid_service.py:166-190 | after a reset the engine has been fed nothing |
| `GreedyReference.ArgMax` | scripts/relay_experiment.py:1058-1060 | the first index of the largest logit |
| `SegmentRunners.MiddleRunner.RequestHidden` | scripts/relay_mid_service.py:91-98 | rows are placed at the runner's own position, which advances by their number on success only |
| `SegmentRunners.MiddleRunner.RequestHiddenSeq` | scripts/relay_mid_service.py:100-114 | explicit sequences and positions are used as given and the runner's own position stays |
| `SegmentRunners.HeadRunner.RequestHiddenFromTokens` | scripts/relay_mid_service.py:276-282 | tokens are embedded and placed at the runner's own position |
| `SegmentRunners.TailRunner.RequestToken` | scripts/relay_mid_service.py:192-202 | the token of the last row of all layers |
| `SegmentRunners.TailRunner.RequestTokenSeq` | scripts/relay_mid_service.py:204-233 | one token per row, from one batched call |
| `SegmentRunners.ShimTailRunner.RequestToken` | scripts/relay_mid_service.py:335-354 | the same contract as the batched tail's |
| `SegmentRunners.ShimTailRunner.RequestTokenSeq` | scripts/relay_mid_service.py:356-385 | the loop over single rows returns the batched tail's token list, for every mix of sequences; it succeeds when each row is accepted in turn |
| `SegmentRunners.AcceptsOne` | scripts/relay_mid_service.py:356-385 | the row-by-row calls are accepted wherever the batch's positions fit |
| `MiddleChains.MiddleChain.Hop` | scripts/relay_experiment.py:529-571 | one segment of the chain turns what those before it emit into what it adds, and stays in step with the caller's position |
| `MiddleChains.MiddleChain.Forward` | scripts/relay_experiment.py:574-598 | the chain is one segment with all its layers: when it accepts, what it returns, what every segment has then been fed, and that remote counts advance with the caller's |
| `BatchLayout.FlatIsBlocks` | scripts/relay_experiment.py:1130-1137 | flattening with its sequence ids and positions is one block of rows per sequence |
| `BatchLayout.StepBatch` | scripts/relay_experiment.py:1050-1060 | a batched step moves every sequence on by its own tokens, and row b*n_tok+n_tok-1 is what all layers make of sequence b's longer context |
| `RelayDriver.TorchHead.ForwardLayers` | scripts/relay_experiment.py:1001-1020 | the upstream forward over its own cache gives the rows of the longer contexts |
| `RelayDriver.DownstreamEngine.Forward` | scripts/relay_experiment.py:1128-1141 | the flattened downstream batch succeeds exactly when it fits and returns the logits of every row |
| `RelayDriver.RunIsSteps` | scripts/relay_experiment.py:1003-1063 | a run fits the context exactly when each of its steps does |
| `RelayDriver.GreedyStep` | scripts/relay_experiment.py:860-877 | one step of an engine with all layers yields the next greedy token and the context for the next step |
| `RelayDriver.BaselineTokens` | scripts/relay_experiment.py:832-888 | the whole-model baseline emits the greedy tokens and fails exactly when its context is too small |
| `RelayRun.PlacedAgain` | scripts/relay_experiment.py:1028-1040 | the sequence ids and positions sent to the middle segments put every row back where it came from, at prefill and at decode |
| `RelayRun.OneSequence` | scripts/relay_experiment.py:1098-1110 | with one sequence, explicit sequence ids and positions place the rows as the raw binding does, at pos and up |
| `RelayRun.ReadTokens` | scripts/relay_experiment.py:1057-1060 | reading the last row of each sequence's block yields the next greedy token for each of them |
| `RelayRun.LoopBody` | scripts/relay_experiment.py:1003-1063 | the driver's two position counters: the middle's own moves on only when there is a middle, and then the two agree after every step |
| `RelayRun.Step` | scripts/relay_experiment.py:1003-1063 | one driver step keeps head, chain and tail on one context and yields one greedy token per sequence, or fails exactly when a segment is full |
| `RelayRun.RunRelay` | scripts/relay_experiment.py:916-1063 | for any cut of the layers, any number of local or remote middles and any batch: every sequence gets the whole model's greedy tokens, and the run fails exactly when some context is too small |
| `RawRelay.RawDownstream.Forward` | scripts/relay_experiment.py:1098-1123 | the raw binding places all rows on sequence 0 from pos up, and returns the logits of every row or nothing |
| `RawPrefill.HeadPrefill` | scripts/relay_experiment.py:1130-1137 | the head makes the same rows of every sequence's prompt, one block after the other |
| `RawPrefill.PrefillTokens` | scripts/relay_experiment.py:916-1125 | the rows read after the prefill are those of the engine behind ever more copies of the prompt |
| `RawPrefill.FirstIsGreedy` | scripts/relay_experiment.py:916-1125 | the first sequence's token is the whole model's greedy one |
| `RawPrefill.SecondCanDiffer` | scripts/relay_experiment.py:916-1125 | a model for which the second sequence's token is not the greedy one |
| `RawRelay.RunRaw` | scripts/relay_experiment.py:916-1125 | exactly when a run succeeds; one sequence gets the greedy tokens, several get one token each, each read behind the prompts of the sequences before, and never a second |
| `L2LProbe.CoverageIsExact` | scripts/relay_l2l_net_probe.py:250-320 | "verified" holds exactly when the declared non-empty segments hold every layer once and none outside |
| `L2LProbe.VerifiedIsWhole` | scripts/relay_l2l_net_probe.py:250-320 | verified artifacts put together are the whole model |
| `L2LProbe.ProbeStep` | scripts/relay_l2l_net_probe.py:447-481 | one step of head, optional middle and tail of either kind yields the next greedy token and keeps all runners on one context |
| `L2LProbe.Probe` | scripts/relay_l2l_net_probe.py:447-481 | the chain emits the greedy tokens for every generation length, and the driver's position is every counting runner's own |
| `L2LProbe.Compare` | scripts/relay_l2l_net_probe.py:447-545 | when coverage is verified and the artifacts hold what they declare, a run that completes on both sides passes |
| `RelaySession.ServeConnection` | src/relay_transport.py:1018-1355 | a connection to a head, middle or tail answers frame by frame as the session function says and ends with its first close, error, refusal or failing reset |
| `RelaySession.RunClosed` | src/relay_transport.py:1211-1231 | nothing after the end of a session is looked at |
| `RelaySession.AcceptLoop` | scripts/relay_mid_service.py:635-683 | for every kind of runner, each connection's outcome depends on its own frames only; once a reset has failed before a connection, that and every later connection is refused |
| `SessionMeaning.FeedRows` | scripts/edge_bench.py:308-323 | feeding more rows leaves the cache of all rows and puts out the later part of the from-scratch rows of all of them |
| `SessionMeaning.AnySession` | src/relay_transport.py:1018-1355 | after any frames, whatever the runner: the cache is that of everything the answered frames brought, at the places they named or counted, and each reply renders its frame's piece of the from-scratch rows |
| `SessionMeaning.RowsSent` | scripts/relay_mid_service.py:91-114 | head and middle send back, in order, the from-scratch rows of all they were brought, with and without explicit positions |
| `SessionMeaning.TokensSent` | scripts/relay_mid_service.py:204-233 | a tail given explicit positions sends back the token of every such row |
| `SessionMeaning.PlainSession` | scripts/relay_mid_service.py:91-98 | without explicit positions: the position is the number of rows consumed, the cache is theirs, and the rows sent back are their from-scratch rows |
| `SessionMeaning.NextTokenSent` | scripts/relay_mid_service.py:192-202 | a tail answers a plain frame with the token that follows all rows taken so far |
| `SessionMeaning.RepliesStay` | src/relay_transport.py:1201-1355 | later frames only add replies |
| `SessionMeaning.ChunkInvariance` | scripts/relay_mid_service.py:91-114 | the same places for the same rows, however framed and whatever the limits, leave the same cache and send back the same rows, or the same tokens row by row |
| `SessionMeaning.PlainChunkInvariance` | scripts/relay_mid_service.py:91-98 | without explicit positions the same rows in the same order do, and leave the same position |
| `SessionMeaning.NextTokenInvariance` | scripts/relay_mid_service.py:192-202 | and a tail sends back the same last token |
| `RelayClients.RelayClient.Exchange` | src/relay_transport.py:583-618 | one request: accepted exactly when the served session answers the frame, and then the client stays in step with it; anything else ends the connection |
| `RelayClients.RelayClient.RequestHidden` | src/relay_transport.py:810-846 | over the session the service is the runner: same rows, same cache, within the limits of engine, client and service |
| `RelayClients.RelayClient.RequestHiddenSeq` | src/relay_transport.py:848-881 | the same for rows that name their sequences and positions |
| `RelayClients.RelayClient.RequestHiddenFromTokens` | src/relay_transport.py:778-808 | the same for token ids |
| `RelayClients.RelayClient.RequestToken` | src/relay_transport.py:680-722 | the same for the token of the last row, from either tail |
| `RelayClients.RelayClient.Close` | src/relay_transport.py:894-933 | an open session ends with a close frame in sequence, and what was replied stays |
| `RelayClients.Serve` | src/relay_transport.py:1179-1346 | a runner served the frames a client sent replies what the client was told |
| `ServedProbe.AskAll` | scripts/relay_l2l_net_probe.py:447-481 | one step over two or three sessions yields the next greedy token and keeps all services on one context |
| `ServedProbe.ProbeServed` | scripts/relay_l2l_net_probe.py:432-497 | with every segment behind a session the probe generates the greedy tokens, fails exactly when a context or a frame limit is too small, and closes every session |
| `EdgeBench.BenchSample` | scripts/edge_bench.py:308-345 | for head, middle and tail: the decode outputs of a sample are the from-scratch rows of its last inputs, or their tokens, whatever the chunk size |
| `CutLayers.PlanTensors` | scripts/cut_layers.py:500-528 | the kept and the dropped tensors, renumbered |
| `CutLayers.PerLayerOverrides` | scripts/cut_layers.py:416-459 | the sliced per-layer arrays, or a problem exactly when a list has not the expected length or would be cut short |
| `CutLayers.ValidateLayerTypes` | scripts/cut_layers.py:161-212 | accepted exactly when the declared types follow the interval rule, one for each ordinary layer |
| `CutLayers.ValidateRequiredTensors` | scripts/cut_layers.py:236-296 | accepted exactly when every tensor that the re-derived type of a kept layer requires is there |
| `CutProperties.AcceptedCutKeepsTypes` | scripts/cut_layers.py:116-212 | every kept ordinary layer's type, re-derived from its new number, is its type in the source |
| `CutProperties.TypesSurviveIffMultiple` | scripts/cut_layers.py:116-158 | over a run of at least one interval, all types survive exactly when the run starts at a multiple |
| `CutProperties.RequiredUnderNewName` | scripts/cut_layers.py:236-296 | each required block tensor exists in the artifact under its new name |
| `CutProperties.RequiredGlobalsKept` | scripts/cut_layers.py:236-296 | the required tensors outside the blocks are kept |
| `CutProperties.MtpAllOrNone` | scripts/cut_layers.py:671-695 | all MTP blocks survive with their count or none do with a count of zero, so declared blocks less that count are the kept ordinary layers |
| `CutProperties.ManifestAgrees` | src/gguf_metadata_contract.py:184-199 | the metadata the writer computes is the projection the manifest is checked against |
| `CutProperties.TailWithRecurrentList` | scripts/cut_layers.py:416-459 | the exact condition under which a tail cut accepts a list of recurrent layers |
| `CutProperties.TailIsRefused` | scripts/cut_layers.py:416-459 | a source of four ordinary layers with any MTP blocks and any accepted tensors, whose tail cut is refused for its list of recurrent layers alone |
| `CutProperties.TailIsAccepted` | scripts/cut_layers.py:416-459 | the same source and cut without the MTP blocks are accepted |
| `CutProperties.KeptIsNumbered` | scripts/cut_layers.py:313-331 | an artifact's blocks are numbered exactly 0 up to its declared count |
| `CutProperties.GlobalsKept` | scripts/cut_layers.py:500-528 | tensors outside the blocks are kept by every cut, in order |
| `CutProperties.Partition` | scripts/cut_layers.py:500-528 | head, middle and tail keep every block tensor exactly once between them, under its source number once the offset is added |
| `CutProperties.CutsCompose` | scripts/cut_layers.py:116-158 | any two accepted cuts in a row equal one accepted cut, in tensors, names, sliced arrays and MTP count |
| `RelayOfCuts.LoadedIsSlice` | scripts/cut_layers.py:500-528 | an accepted cut loads exactly the source's ordinary layers of its range |
| `RelayOfCuts.SegmentsAreWhole` | scripts/cut_layers.py:500-528 | head, any middles and tail cut at accepted points load the source's layers in order |
| `RelayOfCuts.RunOverCuts` | scripts/relay_experiment.py:916-1063 | a relay whose head, middles and tail have loaded artifacts cut at any accepted points gives every sequence the source model's greedy tokens, and fails exactly when some context is too small |
| `ProductGate.CheckPlan` | scripts/product_relay_gate.py:161-181 | accepted exactly when the assignments tile the decoder in order, each partial, on distinct nodes with the master first |
| `ProductGate.EveryLayerOnce` | scripts/product_relay_gate.py:161-181 | an accepted plan gives every layer exactly one owner, and no node all of them |
| `ProductGate.CheckStages` | scripts/product_relay_gate.py:201-214 | the stages that ran are the planned ones, in order |
| `ProductGate.CheckHandoffs` | scripts/product_relay_gate.py:227-251 | accepted exactly when every event is the one due at its place and time |
| `ProductGate.OneHandoffEach` | scripts/product_relay_gate.py:227-251 | exactly one handoff for every remote node and round, by round and then by plan order, and only the last node's is a token |
| `ProductGate.EveryHandoffScheduled` | scripts/product_relay_gate.py:221-251 | no event of the task in the log falls outside that schedule |
| `ProductGate.TimesNeverFall` | scripts/product_relay_gate.py:235-251 | completion times never fall and never leave the window |
| `ProductGate.CheckObservers` | scripts/product_relay_gate.py:257-282 | accepted exactly when each observation is complete, derivable and has the peers its node should have |
| `ProductGate.AllObserved` | scripts/product_relay_gate.py:257-267 | the observers are exactly the planned nodes, from their count and distinctness |
| `ProductGate.ExactlyTheStar` | scripts/product_relay_gate.py:263-273 | the observed connections are exactly those between the master and each worker, both ways |
| `ProductGate.CheckLoads` | scripts/product_relay_gate.py:287-308 | accepted exactly when each load summary agrees with the plan and with its node's capture |
| `ProductGate.SummariesShareCapture` | scripts/product_relay_gate.py:303-308 | every planned node has one summary of each kind, both citing one raw capture that yields what they claim |
| `ProductRun.ValidateRun` | scripts/product_relay_gate.py:151-323 | accepts exactly when every check holds, and reports the planned nodes and the number of rounds |
| `ProductRun.EveryLayerLoadedOnce` | scripts/product_relay_gate.py:151-323 | in an accepted run exactly one of the native loads takes in each layer |
| `ProductRun.EveryRoundWhole` | scripts/product_relay_gate.py:221-251 | in an accepted run every round, visible steps plus one for an end token, is whole |
| `ProductRun.OnlyTheStar` | scripts/product_relay_gate.py:253-282 | in an accepted run no worker is connected to another |
| `EvidenceFiles.CollectFiles` | scripts/run_product_relay_gate.py:114-130 | the worklist's result as the stack discipline defines it |
| `EvidenceFiles.CollectsAll` | scripts/run_product_relay_gate.py:98-130 | for any references: collecting succeeds exactly when all roots hold and the opened ones are sound, and then finds exactly the roots and the children of the opened ones, unchanged |
| `EvidenceFiles.NamedIs` | scripts/run_product_relay_gate.py:114-130 | what is named from some root on is that root's or a later one's name, or a child of one that is opened |
| `EvidenceFiles.CopyFiles` | scripts/run_product_relay_gate.py:133-152 | copies all or nothing, exactly when nothing is reserved or in conflict, and never overwrites |
| `RunReading.SameViewIff` | scripts/run_product_relay_gate.py:114-152 | wherever its collected files are, a run that was read in full is read the same exactly when every raw capture and screen it follows can be read |
| `RunReading.JudgedThereIff` | scripts/product_relay_gate.py:86-102 | a validator that refuses what it cannot read accepts an accepted run there exactly when all it follows can be read, and then with the same result |
| `RunReading.ReadsTheSameIff` | scripts/run_product_relay_gate.py:114-130 | the collected files alone let a run be read as before exactly when each reference it follows is named by a root or by an opened one |
| `RunReading.CapturesNested` | scripts/run_product_relay_gate.py:98-111 | every raw capture a summary cites is among the references the combiner finds in it |
| `RunReading.PortableTravels` | scripts/run_product_relay_gate.py:114-152 | all that a run follows travels with it when the UI attachment and one summary that cites the captures are opened |
| `BundleCombine.ReadWindows` | scripts/product_relay_gate.py:346-358 | the windows by mode, accepted exactly when each is known, inside the header and named once |
| `BundleCombine.ValidateBundle` | scripts/product_relay_gate.py:326-368 | passes exactly when header and windows are sound and every run passes in its own window |
| `BundleCombine.TakeInput` | scripts/run_product_relay_gate.py:464-483 | exactly when a single-mode input may be taken, and what it adds |
| `BundleCombine.Combine` | scripts/run_product_relay_gate.py:457-495 | succeeds exactly when the combiner's checks pass and the output file does not exist yet, and leaves the merged bundle beside the copied files; a validator that refuses what it cannot read passes it exactly when all that is followed is supplied, and then with the inputs' results |
| `BundleCombine.JudgedAgainIff` | scripts/run_product_relay_gate.py:480-493 | each run keeps its window, and is accepted in the combined bundle exactly when all it follows can be read in the output directory, with the result it had |
| `BundleCombine.PassesIffAllTravel` | scripts/run_product_relay_gate.py:457-495 | the combination passes exactly when that is so of both runs, and the results are the inputs' in the order of the modes |
| `BundleCombine.ReadableIff` | scripts/run_product_relay_gate.py:114-152 | a reference can be read in the output directory exactly when one of the inputs collects its file, or it was there before, or it is the bundle itself |
| `BundleCombine.PassesIffAllSupplied` | scripts/run_product_relay_gate.py:457-495 | so the combination passes exactly when every reference followed is supplied by the inputs or the output directory |
| `BundleCombine.PortablePasses` | scripts/run_product_relay_gate.py:457-495 | portable inputs are accepted again, with their results |
| `BundleOpened.KeyOpenedIff` | scripts/run_product_relay_gate.py:114-130 | an attachment is opened exactly when it is named .json and no opened root taken before it refers to it |
| `BundleOpened.PassesIffEnoughOpened` | scripts/run_product_relay_gate.py:457-495 | for any validator that refuses what it cannot read: when captures and screen are cited only by the summaries and the UI attachment, the combination passes exactly when for each run the UI attachment and one summary are opened |
| `BundleGate.GateAcceptsAgainIff` | scripts/product_relay_gate.py:151-323 | the same exact condition for the gate over the evidence in the files, however that is decoded |
| `BundleGate.GateSharesCaptures` | scripts/product_relay_gate.py:303-307 | in a run the gate accepts, the topology cites some raw captures and the native summary cites every one of them |
| `BundleGate.EnoughOpenedPasses` | scripts/run_product_relay_gate.py:120-129 | accepted bundles are accepted again when the UI attachment of each run and one of its two summaries are opened |
| `BundleGate.GatePassesIffEnoughOpened` | scripts/run_product_relay_gate.py:457-495 | the same exact condition for the gate, however the evidence is decoded from what the files cite |
| `SampleRun.SampleAccepted` | scripts/product_relay_gate.py:151-323 | a run over three nodes passes every check of the gate in either mode, whatever raw captures its two summaries share |
| `BundleLosses.PairPassesIff` | scripts/run_product_relay_gate.py:114-130 | for any two bundles of this shape that a validator accepts which refuses what it cannot read, whatever else their files hold: they are combined, and the combination passes exactly when in both runs the UI attachment and one summary are named .json and no other attachment refers to the UI attachment |
| `SampleGate.SampleCombination` | scripts/run_product_relay_gate.py:114-130 | an instance of the conditions above: a gate that accepts all the sample bundles accepts exactly those combinations |
| `AssetSync.RemoteHost.Prepare` | scripts/llama_pc_rpc.py:467-477 | a stale staged file is moved into the backup directory under a fresh name |
| `AssetSync.RemoteHost.Commit` | scripts/llama_pc_rpc.py:478-508 | refuses a missing or wrong staged file untouched, sets a redundant one aside, and otherwise replaces the target, keeping what it displaces |
| `AssetSync.SyncRemoteModel` | scripts/llama_pc_rpc.py:558-612 | the whole effect and report of one call, interrupted at any step |
| `AssetSync.NothingIsLost` | scripts/llama_pc_rpc.py:467-508 | over any attempts the host holds every content as often as before, plus once for each transfer that left it there |
| `AssetSync.RunAccounts` | scripts/llama_pc_rpc.py:467-508 | every earlier target or staged content is in its place, in the backup directory, or the target; backups stay as they are |
| `AssetSync.TargetStep` | scripts/llama_pc_rpc.py:558-612 | one attempt leaves the target alone or makes it its own source, which needs the digest of this very plan; a success report means the target is the source |
| `AssetSync.TargetIsAlwaysWhole` | scripts/llama_pc_rpc.py:478-612 | over any attempts the target is what it was or the whole source of a confirmed attempt |
| `AssetSync.RetryReaches` | scripts/llama_pc_rpc.py:558-612 | from whatever was left behind, an uninterrupted confirmed attempt with a whole transfer reaches the source, and repeating it changes nothing |
| `ImportVisitor.Collector.Visit` | scripts/edge_import_audit.py:72-134 | the visit adds exactly the occurrences that the definition by context gives, by kind and in order, and restores both counters |
| `ImportVisitor.KindIsWhereItStands` | scripts/edge_import_audit.py:87-134 | an import is inner exactly when a function stands above it, else guarded exactly when its path enters the body of a try that catches a failing import, else top |
| `ImportVisitor.BucketHas` | scripts/edge_import_audit.py:87-93 | the three buckets lose and invent nothing |
| `ImportClosure.Expand` | scripts/edge_import_audit.py:160-167 | the hits of one module and the names it queues |
| `ImportClosure.Walk` | scripts/edge_import_audit.py:147-168 | ends with exactly the reachable modules, each visited once, and their forbidden imports in order of visit |
| `ImportClosure.MustWithinMay` | scripts/edge_import_audit.py:171-174 | what must load may load |
| `ImportClosure.HitsAlongAre` | scripts/edge_import_audit.py:161-167 | the hits are the offences of the visited modules, no more and no less |
| `ImportClosure.Audit` | scripts/edge_import_audit.py:171-207 | the four lists say of every forbidden import of every module that may load where it stands, and nothing else |
| `ImportClosure.Failed` | scripts/edge_import_audit.py:261-269 | the exit status: under strict, zero exactly when no module that may load has a forbidden import; otherwise exactly when none loads one unconditionally |
| `FencedWorker.Worker.Handle` | scripts/ha_crosshost_physical_smoke.py:88-122 | one command's new state and response, field by field |
| `FencedWorker.Worker.Serve` | scripts/ha_crosshost_physical_smoke.py:84-122 | commands are answered in order until stop or the end |
| `FencedWorker.EveryChannelContiguous` | scripts/ha_crosshost_physical_smoke.py:94-118 | for every command sequence the numbers accepted on a channel since the last completed set_generation are 0, 1, ..., last, once each |
| `FencedWorker.RefusedLeavesState` | scripts/ha_crosshost_physical_smoke.py:93-122 | exactly which refused command changes the state; a refused frame never does |
| `FencedWorker.FenceStep` | scripts/ha_crosshost_physical_smoke.py:93-118 | one command keeps all accepted frames on the current generation and attempt, exactly unless it half-applies over some |
| `FencedWorker.AlwaysFencedIff` | scripts/ha_crosshost_physical_smoke.py:93-118 | a run is fenced after every command exactly when no command half-applies over accepted frames |
| `FencedWorker.EveryRunFenced` | scripts/ha_crosshost_physical_smoke.py:93-118 | every run whose set_generation commands name their attempt stays fenced |
| `FencedWorker.FenceCanFail` | scripts/ha_crosshost_physical_smoke.py:93-118 | a concrete run in which frames of two generations are accepted in one sequence |
| `HiddenQuant.ErrorBound` | scripts/relay_experiment.py:755-784 | every entry moves by at most half a quantisation step of its block's largest magnitude |
| `HiddenQuant.ModeErrors` | scripts/relay_experiment.py:755-784 | that is the largest magnitude over 254 for eight bits and over 14 for four |
| `HiddenQuant.PaddingIgnored` | scripts/relay_experiment.py:756-766 | a block's scale comes from the row's own entries, whatever the padding |
| `HiddenQuant.PeaksKept` | scripts/relay_experiment.py:765-784 | every block keeps its largest magnitude |
| `HiddenQuant.NoClip` | scripts/relay_experiment.py:767-783 | the clip never takes effect |
| `HiddenQuant.Idempotent` | scripts/relay_experiment.py:755-784 | a second round trip changes nothing |
| `LinearFit.LeastSquares` | scripts/relay_cut_model_analysis.py:94-107 | the fitted line has the least squared error of all lines and is the only one that has |
| `LinearFit.R2IsProportion` | scripts/relay_cut_model_analysis.py:104-107 | r2 lies between zero and one, and is one exactly when the points are not all level and lie on the line |
| `LinearFit.NoFitIff` | scripts/relay_cut_model_analysis.py:95-101 | there is no fit exactly for fewer than two points or points all at one cut |
| `CutPlanVerdict.SignificantIsClear` | scripts/relay_cut_model_analysis.py:231-243 | significance implies an interior cut clear of both ends |
| `CutPlanVerdict.NeverMissesIff` | scripts/relay_cut_model_analysis.py:231-243 | between whatever outermost rows the test finds a clear interior cut, exactly when no interior row is lower at its highest than the one with the least median |
| `CutPlanVerdict.EqualSpreads` | scripts/relay_cut_model_analysis.py:231-243 | equal interior spreads hide nothing |
| `CutPlanVerdict.TestCanMiss` | scripts/relay_cut_model_analysis.py:231-243 | a concrete table of four cuts and three rounds in which a clear interior cut is missed |
| `CutPlanVerdict.ReadRows` | scripts/relay_cut_plan.py:183-203 | the report's rows are taken exactly when no cut repeats and each is correct and repeated enough |
| `CutPlanVerdict.SortedIs` | scripts/relay_cut_plan.py:205-260 | the sort orders, permutes and puts the first least row in front |
| `CutPlanVerdict.Judge` | scripts/relay_cut_plan.py:183-281 | the verdict computed from the sorted rows |
| `CutPlanVerdict.FavouriteIsOutermost` | scripts/relay_cut_plan.py:251-260 | the fitted model's favourite among the measured cuts is the largest when a layer is cheaper upstream and the smallest otherwise |
| `CutPlanVerdict.PassesIff` | scripts/relay_cut_plan.py:249-281 | the verdict passes exactly when the solver's cut was admitted and measured and that outermost cut measured best |
| `CutPlanVerdict.SignificantFails` | scripts/relay_cut_plan.py:249-281 | whatever was fitted and solved, a significant interior optimum makes the verdict fail |

## Left out

- Quantised relays: the token theorems hold without hidden compression; quantisation is bounded on its own, over the reals.
- RunRelay: its remote segments are runners asked directly; that a request over a session has the same contract, within the frame limits, is proved of the client, and the loop driven over sessions is the probe's.
- ProbeServed: does not take a head in the driver's own process, which `L2LProbe.Probe` does.
- The native-to-native branch of the driver: batch 1 only, and of the same shape as the probe without a middle, which is modelled.
- Combine: a run that finds the output file there fails after it has copied the attachments; the model keeps no directory for a failed run.
- Floating point, tokenisers, native and PyTorch internals, hashing, sockets, processes, SSH and timing.
- Warm-up, link simulation, byte counters, statistics, report formatting and argument parsing.
- The wire codec: a frame either carries well-formed rows or is refused; sizes and flags are not modelled, and the error codes of a refused frame are one.
- Envelope decoding in the control worker: a command whose envelope, payload or time does not parse is one refusal.
- `retry_delays` and `_connect_with_retry`: timing around a listener, only easy members.
- Capturing a run, its preflight (`prepared_intent`), imported snapshots and log slicing: I/O and single record checks.
- The typed evidence records assume JSON values of the right type; a value of another type is a refusal that is not modelled. Node address text and the provenance flags of single observations other than those listed are not modelled either. How the typed records are decoded from the files is an arbitrary function of what was read.
- `derive_node_observation` and its facts: an arbitrary function of capture and node; that its own sections carry times is modelled as one section.
- Paths of evidence files: taken as normalised and confined; an unconfined path is simply not in the directory.
- Module lookup in the import audit: a map from module names to syntax trees; the sorting of module lists in the report is not modelled, the order is the order of visit.
- Fitting the two halves in the planner and the solver: arbitrary, so the verdict theorems hold for any of them.
- The rounding of table values to four digits in the cut analysis.
- Metadata fields that are copied unchanged, and the tokeniser of an artifact.
