# A verified model of the incident pipeline

The repository has two services. A C++ inference engine turns a log line into a 384-number embedding and
three coordinates; a Go orchestrator decides what to do about the line. This project models the hard parts
of both in Dafny and proves what they promise, for all inputs, all runs and all interleavings.

## What is modelled

**The inference engine as a step system** (`Pool.dfy`). A state holds the queue with its mutex and depth
counter, every handler, every worker, the destructor, the verdict each request got and the telemetry.
One step is one operation on shared memory: a handler reads the depth counter, builds its request, takes the
lock and pushes; a worker pops one item, decides about one request, bumps one counter, sets one promise; the
reader exchanges one counter; time passes. Any number of handlers and workers run interleaved. The invariants
are in `PoolShape.dfy`, and the theorems in `PoolPromises.dfy` with `PoolReadings.dfy` (each request ends once,
and rightly), `PoolRequests.dfy` with `PoolHandlers.dfy` (from the call to the reply), `PoolProgress.dfy` (nobody
is stuck), `PoolShutdown.dfy` and `PoolJoin.dfy` (poison pills, and when joining is sure) and `PoolLoad.dfy`
(load, telemetry). The queue alone is in `SimpleQueue.dfy`, both as the class and one memory operation at a time.

**A worker's loops** (`Batch.dfy`): the stale filter, the flat tensors, pooling by flat index and the replies,
as methods over arrays and promises. What they compute is compared with inference on one request at a time.

**The tokenizer** (`Text.dfy`, `FileLines.dfy`, `Tokenizer.dfy`, `TokenizerProofs.dfy`): the vocabulary loader, the
nested greedy loop and the frame, with an independent decoder that reads the words back from the ids.

**The PCA trainer and the projector** (`Vectors.dfy`, `PcaTrainer.dfy`, `PcaLoops.dfy`, `Projector.dfy`): the
trainer's loops on the flat array are proved equal to a formulation on rows, about which the linear algebra is
proved; the projector reads the file that the trainer writes.

**The latency window** (`LatencyWindow.dfy`): the last 1000 samples and the two percentiles.

**The orchestrator as a step system** (`Orchestrator.dfy`, over `Redis.dfy`, `FuzzyCache.dfy`, `Incidents.dfy`):
any number of workers over one LRU cache and one Redis, one command at a time. The theorems are in
`AlertProofs.dfy` (outcomes, throttle), `BlastProofs.dfy` with `BlastExact.dfy` (blast radius against a definition by
history, and when exactly it is met) and `CacheProofs.dfy` with `LruProofs.dfy` and `CacheUse.dfy` (what the shared
cache holds, for how long, and what the workers make of it). `FuzzyCache.dfy` has FNV-1a bit for bit, and
`SignatureProofs.dfy` says which lines share a cache entry.

## Reading conventions

- Floats are exact reals. The square root is a function given by its defining property. `size * 0.99` is exact.
- The numbers of handlers and workers and the cache capacity are parameters (16 workers and 5000 entries in
  main.go:109-113).
- A `char` is one byte. Clocks are integers: nanoseconds in the engine, seconds in Redis.
- The model run is an uninterpreted function of one row, its model name, token position and dimension; whether a
  run throws is an input. A tensor can be made only when the flat data fills its shape.
- Waiting time is truncated to whole milliseconds, so a request is stale from 101 ms on.
- A Redis key is gone from its deadline on. (The Redis server still serves a key at the very millisecond of its deadline,
  so there a gap of exactly five or ten minutes falls on the other side.)
- SADD makes a new key without a deadline; EXPIRE on a key that is gone does nothing.
- A request whose batch throws or meets a pill at its head is *abandoned*: its handler keeps a reference to the
  promise, so the promise is never broken, and the handler waits out its five seconds.

## Where the code and its documentation differ

- The repository's README.md:28 says that a log from `gateway-01` and the same log from `gateway-02` share a cache
  entry. cache.go:42-44 does not do that; `GatewaysApart` and `SourcesApart` prove that they never share one.
- The same README.md:39-42 knows three similarity bands. In main.go:275-300 a similarity above 0.98 and up to 0.99
  falls in none of them and is treated as a new event (`SimilarityBands`).
- inference-server-cpp/Blog.md:186-204 describes peak tracking that the code does not contain.

Five more promises that one might expect hold only under a condition, and the condition is part of the result:

- The destructor joins exactly when no pill was swallowed (`JoinsExactlyWhenNoneSwallowed`). Wherever it starts, with no
  client pushing any more, none can be swallowed exactly when there is no second worker and the clients left in the
  queue fill their batches (`LosesPillExactly`). In inference-server-cpp/src/main.cpp:161-164 the pool is destroyed with
  an empty queue when the projection file is missing: there one worker never loses its pill, and two or more may. A
  continuation that stops all workers always exists (`CanAlwaysJoin`).
- A fresh request is served by its own model exactly when its batch's first request names the same one
  (`OwnModelExactlyWhenFirst`).
- The blast radius follows the history in every run unless a gap comes within a worker's SADD-to-EXPIRE delay of ten
  minutes, and it recovers with the next gap that is longer for sure (`BlastRefinesHistory`). For delays below ten
  minutes those are exactly the event times that can go wrong (`RightExactlyWhenRecovered`).
- Trust does not rise with the radius exactly when the similarity is not negative (`TrustFallsExactly`).
- An axis of the trainer is nonzero exactly when some of the data left for it lies along the starting vector
  (`WrittenAxisIsGood`).

## Model

| member | source | states |
|---|---|---|
| `Text.WordsAcrossSpace` | inference-server-cpp/src/tokenizer.cpp:41-44 | any run of white space splits a text into the words before it and the words after it, so word splitting does not depend on how words are spaced |
| `Text.WordsHaveNoSpace` | inference-server-cpp/src/tokenizer.cpp:41-44 | every word read is nonempty and holds no white space |
| `Text.SpacesAre` | inference-server-cpp/src/tokenizer.cpp:44 | white space is exactly blank, tab, newline, vertical tab, form feed and carriage return |
| `Text.LettersLowered` | inference-server-cpp/src/tokenizer.cpp:45-46 | lower-casing takes each of the 26 capital letters to its own small letter |
| `Text.OthersKept` | inference-server-cpp/src/tokenizer.cpp:45-46 | and changes nothing else |
| `Text.ContainsExactly` | cache.go:42-44 | a text contains another if and only if it is something, then the other, then something |
| `FileLines.ReadsLines` | inference-server-cpp/src/tokenizer.cpp:20 | lines without newline, each written with one after it, are read back exactly, and a nonempty rest without one is a line more |
| `FileLines.LinesExact` | inference-server-cpp/src/tokenizer.cpp:20 | for every content: reading it gives certain lines if and only if the file consists of them, each ended by a newline, which only a nonempty last one may lack |
| `Tokenizing.Tokenizer.constructor` | inference-server-cpp/src/tokenizer.cpp:9-34 | for whatever lines the file consists of, the loading loop yields their vocabulary, an empty line still using up an id |
| `TokenizingProofs.StripCrExact` | inference-server-cpp/src/tokenizer.cpp:21-23 | a line holds a word on its own or with one carriage return after it, and no other word |
| `TokenizingProofs.LastLineWins` | inference-server-cpp/src/tokenizer.cpp:20-31 | a word is loaded exactly when some line holds it, and its id is the number of the last such line |
| `TokenizingProofs.VocabInjective` | inference-server-cpp/src/tokenizer.cpp:20-31 | two different words never have the same id |
| `Tokenizing.Tokenizer.WordpieceTokenize` | inference-server-cpp/src/tokenizer.cpp:64-100 | both nested loops end, and append the ids of the longest-match split or [UNK] alone |
| `Tokenizing.LongestEnd` | inference-server-cpp/src/tokenizer.cpp:73-84 | the piece chosen is in the vocabulary and no longer piece at that position is |
| `TokenizingProofs.GreedyIsLongestWalk` | inference-server-cpp/src/tokenizer.cpp:64-100 | the split succeeds with given cuts if and only if those cuts walk to the end of the word with the longest known piece at every position |
| `TokenizingProofs.UnknownExactly` | inference-server-cpp/src/tokenizer.cpp:86-99 | [UNK] is emitted if and only if the longest-match walk reaches a position before the end at which no piece is known |
| `TokenizingProofs.CoveredIsKnown` | inference-server-cpp/src/tokenizer.cpp:64-100 | a word all of whose characters are known at their positions is never [UNK] |
| `TokenizingProofs.PiecesSpellWord` | inference-server-cpp/src/tokenizer.cpp:74-76 | the pieces of any split, with "##" taken off all but the first, concatenate to the word |
| `TokenizingProofs.GreedyOptimal` | inference-server-cpp/src/tokenizer.cpp:64-100 | when the "##" vocabulary is closed under dropping leading characters, greedy succeeds whenever any split exists and no split has fewer pieces |
| `TokenizingProofs.GreedyNeedsClosure` | inference-server-cpp/src/tokenizer.cpp:64-100 | without that closure greedy can fail on a word that has a split |
| `Tokenizing.Tokenizer.Tokenize` | inference-server-cpp/src/tokenizer.cpp:36-62 | the loop over the words and the frame compute the encoding; a maximal length of zero is the length error of the resize |
| `Tokenizing.Tokenizer.Frame` | inference-server-cpp/src/tokenizer.cpp:52-61 | truncation, [SEP] and the padding loop produce the framed ids |
| `TokenizingProofs.FixedShape` | inference-server-cpp/src/tokenizer.cpp:36-62 | for a maximal length of at least 2: [CLS], the first min(n, max - 2) content ids, [SEP], zeros, of exactly that length |
| `TokenizingProofs.EncodeDecode` | inference-server-cpp/src/tokenizer.cpp:36-62 | round trip: with the special tokens at their lines, no word starting with "##" and no truncation, decoding the ids gives the lower-cased words, unknown ones as [UNK] |
| `TokenizingProofs.EncodeInjective` | inference-server-cpp/src/tokenizer.cpp:36-62 | two such texts with the same ids show the same words |
| `Queueing.SimpleQueue.constructor` | inference-server-cpp/include/simple_queue.hpp:10-15 | a new queue is empty and its counter agrees |
| `Queueing.SimpleQueue.Push` | inference-server-cpp/include/simple_queue.hpp:18-24 | one item is added at the back and the counter follows |
| `Queueing.SimpleQueue.PopBatch` | inference-server-cpp/include/simple_queue.hpp:45-52 | the batch is the first min(size, limit) items, the rest stays in order, and the counter follows |
| `Queueing.SimpleQueue.GetQueueDepth` | inference-server-cpp/include/simple_queue.hpp:55-57 | between operations the depth read is the number of items |
| `Queueing.StepKeepsQueueInv` | inference-server-cpp/include/simple_queue.hpp:18-57 | every single memory operation keeps: counter off by at most one in the direction of the change in progress, items pushed = batches handed out, batch in hand, items pending |
| `Queueing.QueueRefinement` | inference-server-cpp/include/simple_queue.hpp:18-57 | in every state of every run the queue is first in, first out without loss, the counter is within one of the true size, and equal to it whenever the mutex is free |
| `Queueing.BatchIsFront` | inference-server-cpp/include/simple_queue.hpp:37-53 | a batch handed out is the front of what the queue held when its wait ended |
| `Batching.StaleFrom101Ms` | inference-server-cpp/include/thread_pool.hpp:83-85 | a request is stale if and only if it has waited at least 101 milliseconds |
| `Batching.FilterBatch` | inference-server-cpp/include/thread_pool.hpp:77-98 | the filter loop answers exactly the stale requests, once, and lays out the tokens and masks of exactly the others, in order |
| `Batching.ValidIndicesExact` | inference-server-cpp/include/thread_pool.hpp:81-98 | the valid indices are strictly increasing and are exactly the indices of the fresh requests |
| `Batching.Output` | inference-server-cpp/include/thread_pool.hpp:102-125 | a run over k rows yields k times 128 times 384 numbers, so every flat index used in pooling is in bounds |
| `Batching.PoolRow` | inference-server-cpp/include/thread_pool.hpp:141-156 | the nested pooling loops over the flat array compute the 128-position mean of row b |
| `Batching.RowIsOwn` | inference-server-cpp/include/thread_pool.hpp:94-106 | row b of the flattened tensors is the b-th fresh request's own tokens and masks |
| `Batching.BatchRefinesSingle` | inference-server-cpp/include/thread_pool.hpp:82-164 | with 128 tokens per fresh request, each of them receives the mean of its own 128 hidden states, under the model named by the batch's first request |
| `Batching.BatchEqualsAlone` | inference-server-cpp/include/thread_pool.hpp:82-164 | under one model name, the embedding is the one the request would get in a batch of its own |
| `Batching.OwnModelExactlyWhenFirst` | inference-server-cpp/include/thread_pool.hpp:122 | for every batch and every fresh request in it: it is served by its own model under all loaded models if and only if its model name is that of the batch's first request |
| `Batching.FitIffNoFreshPill` | inference-server-cpp/include/thread_pool.hpp:102-111 | among 128-token clients and one-token pills, the tensors can be made if and only if no pill is fresh |
| `Batching.RankOfFresh` | inference-server-cpp/include/thread_pool.hpp:158 | a fresh request is found again at its position among the valid indices, so each row goes back to the request it came from |
| `Batching.ReplyExactly` | inference-server-cpp/include/thread_pool.hpp:77-164 | what each request of a batch is told: an empty embedding marked stale from 101 ms on, else the mean of its own hidden states under the head's model, else nothing if that model is unknown or the run throws |
| `Batching.StaleCounted` | inference-server-cpp/include/thread_pool.hpp:85-86 | the drops counted are as many as the requests that have waited 101 ms, and with the fresh ones they make up the batch |
| `Batching.Promise.SetValue` | inference-server-cpp/include/thread_pool.hpp:160-162 | a promise keeps the first value it is given |
| `Batching.SendOne` | inference-server-cpp/include/thread_pool.hpp:139-164 | one pass of the reply loop gives row b to the promise of request valid[b] and touches no other promise |
| `Batching.ProcessBatch` | inference-server-cpp/include/thread_pool.hpp:77-175 | a whole turn: stale requests get the stale reply, fresh ones their own embedding, and nobody but the stale ones anything when the batch throws; counts of drops and of tasks |
| `Batching.Round` | inference-server-cpp/include/thread_pool.hpp:66-175 | one round of the endless loop: at most 32 requests from the front, stop exactly on a pill at the head, each promise of the batch as its turn says, each promise left in the queue untouched |
| `PoolShape.BuiltRequestShaped` | inference-server-cpp/src/main.cpp:53-75 | what a handler pushes has 128 tokens and 128 masks and starts with [CLS], so no client is ever taken for a pill |
| `PoolShape.StepKeepsFormed` | inference-server-cpp/include/thread_pool.hpp:66-177 | every step of every participant keeps the shape of the state: who holds which request, the valid indices computed so far, tensors that fit once a run has returned |
| `PoolPromises.WorkBalance` | inference-server-cpp/include/thread_pool.hpp:66-177 | each worker step conserves the requests it owes an answer: owed before = owed after + ended |
| `PoolPromises.ExactlyOnePlace` | inference-server-cpp/include/thread_pool.hpp:66-177 | in every state of every run each pushed request is in exactly one of queue, batch being popped, some worker's hands, or ended |
| `PoolPromises.EndedOnce` | inference-server-cpp/include/thread_pool.hpp:66-177 | a request that has ended keeps its verdict forever: no promise is set twice |
| `PoolPromises.RepliesAsInLoops` | inference-server-cpp/include/thread_pool.hpp:139-164 | the reply of the step system is the one the worker's loops set for the same request of the same batch |
| `PoolPromises.EndedJustified` | inference-server-cpp/include/thread_pool.hpp:72-125 | every verdict a step gives is right, by the batch the request was popped in: stale by the reading recorded with that batch; fresh with the request's own mean under the model its batch's first request names; abandoned for a pill at the head, or, only when fresh itself, for a fresh pill in the batch, an unknown model name at its head, or a throwing run, each with the other causes excluded |
| `PoolReadings.OneReadingPerBatch` | inference-server-cpp/include/thread_pool.hpp:77-98 | in every run requests popped together are judged together: if the batch of one verdict holds the request of another, both name the same batch and the same clock reading |
| `PoolPromises.RunKeepsPromises` | inference-server-cpp/include/thread_pool.hpp:66-177 | shape, conservation and justification hold in every state of every run |
| `PoolPromises.FreshIsOwnMean` | inference-server-cpp/include/thread_pool.hpp:120-164 | in every run every fresh reply is the mean of the request's own hidden states under the model that the first request of its batch names |
| `PoolPromises.OneModelServesOwn` | inference-server-cpp/include/thread_pool.hpp:120-164 | when all requests of a run name one model, every fresh reply is what the request would have got alone |
| `PoolRequests.RequestsAreBuilt` | inference-server-cpp/src/main.cpp:53-75 | in every state of every run each request is the one its handler built from its own line: 128 ids of that line, 128 ones, the clock at that step |
| `PoolRequests.FreshIsOwnLine` | inference-server-cpp/src/main.cpp:53-92 | end to end in every run: a fresh reply is the mean of the hidden states for the tokens of the very line its handler was called with, read less than 101 ms after the request was built |
| `PoolRequests.PushedHasOrigin` | inference-server-cpp/include/thread_pool.hpp:207-210 | whatever was ever pushed is a handler's own request or a pill with the time at which the destructor made it |
| `PoolRequests.ReadingsAreClock` | inference-server-cpp/include/thread_pool.hpp:77 | the reading kept for a batch is the clock at the step at which a worker looked at that batch |
| `PoolRequests.JudgedByClock` | inference-server-cpp/include/thread_pool.hpp:77-98 | in every run an answered request is answered as stale if and only if it had waited 101 ms when a worker looked at its batch |
| `PoolRequests.LeavesExactly` | inference-server-cpp/src/main.cpp:77-82 | in every state of every run a waiting handler whose push is over may leave if and only if its promise has been set or five seconds have passed since it built its request |
| `PoolHandlers.LeavesInTime` | inference-server-cpp/src/main.cpp:77-80 | so, whatever becomes of its request, it can leave after five more seconds |
| `PoolHandlers.HandlerStepsExactly` | inference-server-cpp/src/main.cpp:48-82 | in every state of every run a call comes in exactly while fewer than H handlers are inside, and a handler can take exactly the step of its place |
| `PoolHandlers.StepMovesOne` | inference-server-cpp/src/main.cpp:48-82 | every step of a handler moves it on by one place (door, admitted, ready, waiting, gone) and moves no other; no other step moves any |
| `PoolProgress.WorkerStepsExactly` | inference-server-cpp/include/thread_pool.hpp:66-177 | in every state of every run the steps open to a worker, by its batch: in particular a run returns if and only if no pill in the batch is fresh and the head's model is loaded |
| `PoolProgress.NeverStuck` | inference-server-cpp/include/thread_pool.hpp:66-177 | a worker that has not stopped and does not wait for the lock can always step |
| `PoolProgress.OthersStepExactly` | inference-server-cpp/include/thread_pool.hpp:207-239 | in every state of every run the destructor makes a pill exactly while it has none in hand and has pushed fewer than there are workers, and pushes it exactly when the lock is free; the reader can always take what there is |
| `PoolShutdown.PillsExact` | inference-server-cpp/include/thread_pool.hpp:207-214 | in every state of every run: live workers = pills that can still stop one (unpushed, queued, at the head of a batch not yet looked at) + pills swallowed behind a head |
| `PoolShutdown.JoinsExactlyWhenNoneSwallowed` | inference-server-cpp/include/thread_pool.hpp:207-214 | once no pill can stop anyone any more, all workers have stopped if and only if no pill was swallowed |
| `PoolJoin.SwallowedNeverJoins` | inference-server-cpp/include/thread_pool.hpp:207-214 | once a pill has been swallowed, some worker is alive in every later state |
| `PoolJoin.FullBatchesLoseNone` | inference-server-cpp/include/thread_pool.hpp:66-75 | from any state of any run, whatever its participants are in the middle of: with at most one worker and full batches of 32 ahead of the pill once the pop in progress is over, no pill is swallowed as long as no client pushes |
| `PoolJoin.LosesPillExactly` | inference-server-cpp/include/thread_pool.hpp:207-214 | wherever the destructor starts, whatever anyone is in the middle of, and no client pushing any more: some continuation swallows a pill, and so never joins, if and only if there are two workers or more, or one worker and a number of clients left by the pop in progress that is not a multiple of 32 |
| `PoolJoin.CanAlwaysJoin` | inference-server-cpp/include/thread_pool.hpp:207-214 | and some continuation stops all workers |
| `PoolJoin.ClientSwallowsPill` | inference-server-cpp/include/thread_pool.hpp:68-75 | one worker is enough: a client popped in front of the pill swallows it |
| `PoolShutdown.TwoPillsOneBatch` | inference-server-cpp/include/thread_pool.hpp:68-75 | that state is reached: with two workers one of them can take both pills in one batch |
| `PoolLoad.AdmissionBound` | inference-server-cpp/src/main.cpp:48-75 | in every state of every run at most 500 + H client requests are pending with H handlers at once, although check and push are separate and the depth is read under another thread's lock |
| `PoolRequests.AdmittedExactly` | inference-server-cpp/src/main.cpp:49-51 | a call goes on if and only if the depth read is at most 500; then the queue holds at most 501 items, and at least 500 if the call is refused |
| `PoolLoad.TelemetryConserved` | inference-server-cpp/include/thread_pool.hpp:133-136 | in every state of every run: snapshots + live window = total + batches between the two counters; total = fresh replies sent + owed; drops in snapshots and live = stale decisions |
| `PoolLoad.WorkAgrees` | inference-server-cpp/include/thread_pool.hpp:85-136 | every worker step keeps those three sums |
| `PoolLoad.OthersAgree` | inference-server-cpp/include/thread_pool.hpp:231-239 | so does every other step, in particular an exchange-and-reset: it moves a count and loses nothing |
| `Latency.LatencyWindow.Record` | inference-server-cpp/include/thread_pool.hpp:127-131 | the window holds exactly the last 1000 samples in order after any number of recordings |
| `Latency.WindowIsLast` | inference-server-cpp/include/thread_pool.hpp:130 | the window has min(size, 1000) samples and counted from its end it is the recording |
| `Latency.LatencyWindow.GetPercentiles` | inference-server-cpp/include/thread_pool.hpp:223-229 | both percentiles are samples of the window, p50 is at most p99, and each cuts the window at its rank k: at least k + 1 samples no larger, at least size - k no smaller; zeros for no samples |
| `Latency.SortKeepsSamples` | inference-server-cpp/include/thread_pool.hpp:226-227 | sorting keeps the samples as a multiset |
| `Latency.SortCounts` | inference-server-cpp/include/thread_pool.hpp:226-227 | sorting changes no rank, for any threshold |
| `Latency.CutUnique` | inference-server-cpp/include/thread_pool.hpp:228 | the value that cuts at rank k is unique, so the percentiles depend on the samples alone |
| `Vectors.CauchySchwarz` | inference-server-cpp/tools/pca_trainer.cpp:42-49 | the Cauchy-Schwarz inequality for the accumulating dot product |
| `Vectors.Adjoint` | inference-server-cpp/tools/pca_trainer.cpp:41-45 | the loop that adds dot times row is the transpose of the loop that takes the dots |
| `Vectors.GramImproves` | inference-server-cpp/tools/pca_trainer.cpp:40-45 | one power step never lowers the variance captured per unit length |
| `PcaTraining.IterateImproves` | inference-server-cpp/tools/pca_trainer.cpp:38-50 | nor do any number of steps with their normalisations, null vectors included |
| `PcaTraining.IterateNonzero` | inference-server-cpp/tools/pca_trainer.cpp:38-50 | after one step or more the vector is nonzero if and only if some of the data lies along the starting vector |
| `PcaTraining.AxisIsPower` | inference-server-cpp/tools/pca_trainer.cpp:38-50 | each axis is a positive multiple of (X^T X)^15 times the vector of 0.1s, X being the data left for it |
| `PcaTraining.CenteredColumnsSumToZero` | inference-server-cpp/tools/pca_trainer.cpp:22-31 | after centring every column sums to zero |
| `PcaTraining.DeflationKeepsColumnsZero` | inference-server-cpp/tools/pca_trainer.cpp:51-55 | taking out any vector keeps the columns summing to zero |
| `PcaTraining.DeflatedLength` | inference-server-cpp/tools/pca_trainer.cpp:51-55 | the exact energy balance of taking a vector out of a row |
| `PcaTraining.DeflatedAlong` | inference-server-cpp/tools/pca_trainer.cpp:51-55 | of what lies along the vector the part 1 - (its length squared) is left in the row |
| `PcaTraining.RoundTakesOut` | inference-server-cpp/tools/pca_trainer.cpp:51-55 | in every round, for every row: what it loses in length and what is left of it along the axis just found, exactly |
| `PcaTraining.EnergyConserved` | inference-server-cpp/tools/pca_trainer.cpp:37-57 | after any number of rounds what the axes took and what is left add up to the sum of squares there was |
| `PcaTraining.NothingComesBack` | inference-server-cpp/tools/pca_trainer.cpp:37-57 | along a direction in which nothing is left nothing ever is again, and all later axes are at right angles to it |
| `PcaTraining.NormalizedShort` | inference-server-cpp/tools/pca_trainer.cpp:46-49 | dividing by the norm plus epsilon gives a vector no longer than 1 |
| `PcaTraining.NormalizedLength` | inference-server-cpp/tools/pca_trainer.cpp:46-49 | and by how much it is shorter, exactly |
| `PcaTraining.ResidualCentered` | inference-server-cpp/tools/pca_trainer.cpp:37-57 | after any number of rounds the columns still sum to zero and no row is longer than it was centred |
| `PcaTraining.WrittenAxisIsGood` | inference-server-cpp/tools/pca_trainer.cpp:37-57 | each axis written is no longer than 1, nonzero if and only if some of the data left for it lies along the starting vector, and at least as good in that data as the starting vector |
| `PcaLoops.ComputeMean` | inference-server-cpp/tools/pca_trainer.cpp:22-26 | the mean loops on the flat array compute the mean of the rows |
| `PcaLoops.CenterData` | inference-server-cpp/tools/pca_trainer.cpp:28-31 | the centring loops, in place, leave the centred rows |
| `PcaLoops.GramStep` | inference-server-cpp/tools/pca_trainer.cpp:40-45 | one power step on the flat array is X^T X v on the rows |
| `PcaLoops.Normalize` | inference-server-cpp/tools/pca_trainer.cpp:46-49 | the normalising loops compute next over its norm plus epsilon |
| `PcaLoops.FindAxis` | inference-server-cpp/tools/pca_trainer.cpp:38-50 | fifteen iterations in place compute the axis of the rows |
| `PcaLoops.SubtractFromRow` | inference-server-cpp/tools/pca_trainer.cpp:54 | the inner loop takes the multiple off one row and leaves all other rows |
| `PcaLoops.DeflateData` | inference-server-cpp/tools/pca_trainer.cpp:51-55 | the deflation loops, in place, leave the deflated rows, each row's dot being taken before the row changes |
| `PcaLoops.Store` | inference-server-cpp/tools/pca_trainer.cpp:56 | the axis is copied to its block and nothing else changes |
| `PcaLoops.Train` | inference-server-cpp/tools/pca_trainer.cpp:22-57 | the whole program writes the mean and then the three axes, each found in what the rounds before have left (`RoundTakesOut`, `AxisIsPower`) |
| `Projection.LogProjector.Init` | inference-server-cpp/src/main.cpp:19-25 | a missing file is reported and changes nothing; a file of any length fills mean and components as far as it reaches and leaves the rest; a whole file loads both |
| `Projection.LogProjector.Project` | inference-server-cpp/src/main.cpp:28-36 | each coordinate is the dot product of the centred input with its component |
| `Projection.ComponentsAreAxes` | inference-server-cpp/src/main.cpp:19-25 | what is read back as components from the trainer's file are the three axes found |
| `Projection.TrainingSetProjectsToCentre` | inference-server-cpp/src/main.cpp:28-36 | projecting the training set through the file it produced gives points that sum to zero on every axis |
| `FuzzyCaching.KnownHash` | cache.go:39-50 | the hash of "a" is the value that the FNV specification publishes |
| `FuzzyCaching.PrimeInjective` | cache.go:39-50 | multiplying by the FNV prime modulo 2^64 is injective |
| `FuzzyCaching.MixInjective` | cache.go:39-50 | one step of FNV-1a loses nothing: equal results need equal states or different bytes |
| `FuzzyCaching.OneByteApart` | cache.go:39-50 | texts that differ in exactly one byte never have the same hash |
| `FuzzyCaching.ResilienceCache.GetFuzzyHash` | cache.go:32-52 | the streamed hash is the hash of the kept words joined |
| `SignatureProofs.CaseDoesNotMatter` | cache.go:34 | lines that differ only in letter case share a signature |
| `SignatureProofs.SpacingDoesNotMatter` | cache.go:35 | lines that differ only in the white space between words, or at their ends, share a signature |
| `SignatureProofs.VolatileWordsDoNotMatter` | cache.go:42-48 | a word that contains pod-, 127.0.0.1 or time=, in any letter case, can be put anywhere in a line, its start and end included, without changing the signature |
| `SignatureProofs.InjectedTimesShare` | injector.go:46 | so the leading time of the injected lines does not matter |
| `SignatureProofs.HostsApart` | cache.go:39-50 | two words whose lower-case forms differ in one byte, both volatile or both not, at any place of a line: the lines share a signature if and only if the words are volatile |
| `SignatureProofs.GatewaysApart` | cache.go:42-46 | the same log with gateway-01 and with gateway-02, as a word or inside one that is not volatile, at any place of the line, never shares a cache entry |
| `SignatureProofs.SourcesApart` | injector.go:46-71 | in particular no line that ends in SOURCE=gateway-01 shares one with the line that ends in SOURCE=gateway-02 |
| `SignatureProofs.BoundaryGoesUnnoticed` | cache.go:46-48 | two lines that differ only in where two neighbouring kept words are divided share a signature |
| `FuzzyCaching.ResilienceCache.GetEmbedding` | cache.go:55-63 | a lookup finds the entry of the line's signature and makes it the most recently used |
| `FuzzyCaching.ResilienceCache.Add` | cache.go:66-73 | adding replaces the entry of the signature and drops the least recently used beyond the capacity |
| `RedisStore.Redis.SAdd` | main.go:202 | SADD joins a live key and keeps its deadline, else starts a new set without one |
| `RedisStore.Redis.Expire` | main.go:203 | EXPIRE gives a live key ten more minutes from now and does nothing to a key that is gone |
| `RedisStore.Redis.SCard` | main.go:205 | the number of members of a live key, zero for one that is gone |
| `RedisStore.Redis.SetNX` | main.go:269 | succeeds exactly when the key is absent or gone, and then holds it for five minutes (over runs: `PassesExactly`) |
| `Incidents.ProcessEmbedding` | main.go:179-302 | the straight-line code does to Redis, and returns as radius, trust and outcome, what the alert's specification says, a short embedding included |
| `Incidents.HandleLine` | main.go:315-326 | cache first, then inference, then an addition: which value is used, how the log ends, and what the cache and Redis hold afterwards in every case |
| `Incidents.TrustFallsWithRadius` | main.go:220-223 | for a fixed similarity that is not negative a wider radius never raises trust |
| `Incidents.TrustFallsExactly` | main.go:220-223 | a really wider radius does not raise trust if and only if the similarity is not negative |
| `Incidents.TrustTimesRadius` | main.go:220-223 | trust times radius is the similarity less five per cent, or one without a neighbour |
| `Incidents.SimilarityBands` | main.go:275-300 | without an error level the outcome is new exactly below 0.85 and in the gap above 0.98 up to 0.99, duplicate exactly above 0.99 |
| `AlertProofs.UndisturbedIsAlert` | main.go:200-300 | the step system's turns of one worker, undisturbed, do what the straight-line code does |
| `AlertProofs.EveryLogEndsOnce` | main.go:161-181 | in every state of every run each consumed log is with exactly one worker or has exactly one of the outcomes failed, throttled, agent, duplicate, new |
| `AlertProofs.OutcomeIsFinal` | main.go:268-301 | an outcome once given never changes |
| `AlertProofs.LogCanEnd` | main.go:315-326 | wherever a worker stands, at most six turns of its own end its log and make it ready for the next |
| `AlertProofs.WorkersHoldOwnLogs` | main.go:315-322 | in every state of every run whoever works on log i has the line that was taken as number i |
| `AlertProofs.AdmissionsSpaced` | main.go:268-273 | in every run two events of one incident that pass SetNX are at least five minutes apart |
| `AlertProofs.PassesExactly` | main.go:268-273 | in every reachable state an alert gets through if and only if every earlier one of its incident is at least 300 seconds old, and otherwise its log ends as throttled |
| `AlertProofs.PassedEndsRightly` | main.go:268-301 | in every run a log that gets through has in every later state this outcome: agent if and only if its line has LEVEL=ERROR or LEVEL=FATAL in it or the similarity is within 0.85 to 0.98, else duplicate if and only if above 0.99, else new |
| `AlertProofs.ErrorLogGetsAgent` | main.go:275 | so a log of an error level that gets through ends with the agent whatever its similarity |
| `AlertProofs.ThrottleRate` | main.go:268-273 | any interval of length T admits at most floor(T / 5 min) + 1 events of one incident |
| `AlertProofs.PassedAreAdmitted` | main.go:268-301 | in every run the logs that ended agent, duplicate or new are as many as the alerts that passed SetNX |
| `BlastProofs.SessionPodsMore` | main.go:202-203 | one more event joins the session's pods, or starts a new session after a gap of ten minutes |
| `BlastProofs.StepKeepsBlast` | main.go:202-208 | every step of every worker keeps Redis in step with the history of all incidents without a gap near ten minutes since the last clear break, and lets every other key run out in time |
| `BlastProofs.BlastRefinesHistory` | main.go:200-208 | in every run, with any bound on the SADD-to-EXPIRE delay, the radius reported is at least 1 and equals the number of distinct pods since the last gap of ten minutes, unless a gap since the last clear break, or the time since the last event, is within the delay of ten minutes |
| `BlastExact.RightExactlyWhenRecovered` | main.go:200-208 | for delays below ten minutes, and reports not made near ten minutes after the last event: event times are reported rightly by every run, for all pods, incidents, numbers of workers and interleavings, if and only if no gap since the last clear break is within the delay of ten minutes |
| `BlastProofs.NoDelayIsClear` | main.go:202-203 | with no delay no gap is excluded |
| `BlastProofs.TrustNeverRisesInSession` | main.go:205-223 | within a session of a history without such a gap since its last clear break, the radius never falls, and trust does not rise if and only if the radius is unchanged or the similarity is not negative |
| `BlastProofs.OneEventExactly` | main.go:202-208 | for one more event with its three commands at any times and any deadline of the key: the radius is that of the history if and only if no other pod is concerned, or Redis joins and shows the session exactly when the history does |
| `BlastProofs.GapHarmlessExactly` | main.go:202-208 | for the first two pods of an incident and any bound on the delay: they are reported rightly under all delays up to the bound if and only if their gap is not within the bound of ten minutes |
| `BlastProofs.StallLosesPods` | main.go:202-208 | a concrete stall between SADD and EXPIRE after which two pods count as one |
| `BlastProofs.LateExpiryKeepsPods` | main.go:202-208 | a concrete late EXPIRE after which a pod of more than ten minutes ago still counts |
| `CacheProofs.CacheSound` | main.go:315-325 | in every state of every run the cache holds at most its capacity, one entry per signature, each of at least 384 numbers, answered by inference for a line of that signature, and the latest added for it |
| `CacheProofs.HitIsLatest` | cache.go:55-74 | what is found for a signature is the latest addition for it, of at least 384 numbers |
| `LruProofs.PlaceOfLastUse` | cache.go:55-73 | in a list of signatures by recency, one stands behind exactly those used after its own last use |
| `CacheProofs.EvictsLeastRecentlyUsed` | cache.go:55-73 | in every state of every run a signature is cached if and only if fewer than `capacity` distinct signatures have been used since its own last use, a use being a hit or an addition |
| `CacheUse.LookupBySteps` | main.go:315-316 | in every run, by its steps alone: a worker that takes a line gets the value of the last find or addition for its signature if fewer than `capacity` distinct signatures have been found or added since, else nothing |
| `CacheUse.NeverUsedIsMiss` | main.go:315-316 | it gets nothing for a signature that no step has found or added |
| `CacheUse.HitIsUsed` | main.go:316-319 | in every run a worker that finds its line goes on with the value found as its next turn, and never asks inference |
| `CacheUse.MissAsksInference` | main.go:161-182 | one that does not asks inference, goes on with an answer of at least 384 numbers, and else ends the log as failed |
| `CacheUse.NewEmbeddingIsStored` | main.go:322-325 | after the alert, let through or not, a new embedding is stored: it is the latest for its signature and found next |
| `CacheUse.AnswersStoredOnce` | main.go:322-325 | in every state of every run each long enough answer has been stored exactly once or is with one worker, and nothing else is stored |
| `CacheProofs.HitNeverFails` | main.go:179-181 | a log that hits the cache never ends as failed |

## Left out

- gRPC, Kafka, Qdrant, SQLite, Slack, the HTTP API and all user interfaces: input and output; a neighbour's score, an inference answer and the clock are inputs of the model.
- ONNX Runtime: only that it acts row by row and may throw; loading of sessions and the choice among four equal sessions (thread_pool.hpp:121-122) are not part of this model.
- Float rounding: all arithmetic on embeddings, scores and latencies is over exact reals.
- Integer widths: the counters, token ids and queue depth are unbounded; the 64-bit width of the hash is modelled.
- active_workers, latest_val, total_batches, worker_active_time_ns and the two peak fields: gauges that no other behaviour depends on.
- SimpleQueue::pop: the one-item variant has no caller.
- Missing and short files of the tokenizer and the trainer (tokenizer.cpp:11-13, pca_trainer.cpp:12-19): their loops start from the content read. The projector's file may be missing or short.
- Projecting a stale reply (main.cpp:82-83): the code reads 384 numbers of an empty vector there, so `Project` is stated for inputs of length 384.
- Characters beyond ASCII: lower-casing and white space follow the C locale in both services.
- ExtractPodID and the SHA-256 incident id: any two functions, given as `Names`.
- Request metrics, capacity loss, the level string and the vector upsert (main.go:210-262): recorded, but nothing modelled depends on them.
- Redis commands that fail: the code ignores their errors.
- reasoning.go and the asynchronous agent: they run after a log has its outcome and change neither the cache nor the Redis keys modelled here.
- The latency window is a class of its own and not part of the step system, where the lock around it is never held together with another.
- LeavesExactly: counts the five seconds from the moment the request was built; the code counts them from the end of its push, so there a handler may stay longer by the time that its push takes.
- Round: takes the moment at which the wait of pop_batch ended as given; the 25 ms timeout only decides how many items are there.
- BlastRefinesHistory: states no equality when a gap since the last clear break is within the delay of ten minutes; for delays below ten minutes none holds for all runs there (`RightExactlyWhenRecovered`), and `OneEventExactly` settles one event for all times and deadlines.
- RightExactlyWhenRecovered: for a delay of ten minutes or more only the direction of `BlastRefinesHistory` and the two events of `GapHarmlessExactly` are stated; reports made between ten minutes and ten minutes plus the delay after the last event are left out.
- LosesPillExactly: no client pushes after the start. With clients that still push, `ClientSwallowsPill` is a run in which a single worker loses its pill.
- CanAlwaysJoin: shows that joining stays possible, not that a scheduler will get there.
- HostsApart: says nothing when one of the two words is volatile and the other is not, for then the texts hashed differ in more than one byte and could collide.
