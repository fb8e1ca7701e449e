# A model of the JavaBench generation loop and of the pipe game's pipe queue

This project models two pieces of sequential logic.

**The generation orchestrator of `inference.py`.** The benchmark run walks the pairs of
`product(tasks, range(num_sample))` in task-major order. It skips the first `len(samples)`
pairs, because their samples are already in the output file, and appends one sample per
remaining pair. It rewrites the output file with the whole list after each pair. A sample
is built in one of three modes:

- **holistic**: one model query over the whole class;
- **independent**: every located to-do method is isolated from the original code, and the
  extracted answer is spliced into a running `result`;
- **incremental**: every to-do method is isolated from the running `result`. The located
  list is visited in order (`seq`), reversed (`rev`) or shuffled (`rand`).

An exception from any step aborts the run. The method locator, isolator, splicer, code
extractor and model backend are not part of this model; they are arbitrary functions,
the fields of `Generation.Collaborators`, each of which either answers or raises.

**The pipe queue of the pipe game (`game.PipeQueue`).** This is a deque of upcoming pipes.
Both constructors and `consume` top it up with freshly generated pipes until it holds
`MAX_GEN_LENGTH` (5) of them. `undo` pushes a pipe back onto the front.

Files:

- `results.dfy`: `Option` and `Result`.
- `ordering.dfy`: the incremental-mode ordering policy.
- `generation.dfy`: the generation of one sample.
- `orchestrator.dfy`: the product, the resume offset and the loop as a fold.
- `run.dfy`: properties of whole runs, and the loop written imperatively.
- `pipe_queue.dfy`: the pipe queue, over `seq<Pipe>`, with a thin class wrapper.

Incremental mode locates the to-do methods once, on the original code, before the loop
(inference.py line 107), and then only reorders that list; `Generation.IncrementalSample`
states this.

## Model

| member | source | states |
|---|---|---|
| `Ordering.Reverse` | inference.py:108-109 | `reversed` keeps the length and the multiset of the methods, and position `i` holds the method the locator listed at `n - 1 - i` |
| `Ordering.ShuffleDown` | inference.py:110-111 | every swap step of the shuffle keeps the multiset and leaves the already-placed suffix untouched |
| `Ordering.Shuffle` | inference.py:110-111 | `random.shuffle` yields a permutation (same multiset) of the located methods, whatever the random draws |
| `Ordering.Order` | inference.py:107-111 | `seq` leaves the located list unchanged, `rev` reverses it, `rand` permutes it; every policy keeps the length and the multiset |
| `Ordering.OrderPermutes` | inference.py:107-111 | every policy visits exactly the located methods: the same count, and a method is visited iff it was located |
| `Generation.Visit` | inference.py:81-111 | independent mode visits the located list as is; incremental mode applies the policy, and the visited list is always a permutation of the located one |
| `Generation.Step` | inference.py:83-124 | one iteration queries the model on the isolation of the method from the original code (independent) or the running result (incremental), splices the extracted answer into the running result, and records the method's name and `seq`; it cannot raise when no collaborator raises |
| `Generation.Steps` | inference.py:83-124 | the per-method loop records one `mediate` entry per visited method, in visiting order, each with that method's name and `seq` |
| `Generation.RunSteps` | inference.py:104-125 | the loop written with a running `result` and a growing `mediate` list computes the per-method fold, including where it aborts |
| `Generation.StepsSplice` | inference.py:83-94 | the final completion is the left fold of `replace(acc, extract(out_i), name_i, seq_i)` over the visited methods, starting from the code the loop started with |
| `Generation.StepsSource` | inference.py:113-117 | the `i`-th query is made on the isolation of the `i`-th method from the original code (independent) or from the result of the first `i` splices (incremental) |
| `Generation.GenerateSample` | inference.py:69-132 | a sample copies `task_id` and `target` from its task; it is a whole-file sample iff the mode is holistic, whose prompt and completion are the single query's on `code` and `code_context`; a per-method sample has one `mediate` entry per located method |
| `Generation.PerMethodSample` | inference.py:77-132 | the full account of a per-method sample: the entries follow the visiting order with the methods' names and `seq`; the completion is the splice fold over the original code; each recorded answer is the model's on the right isolation |
| `Generation.IndependentSample` | inference.py:77-102 | in independent mode every isolation is taken from the original `task["code"]` and never from the running result, and the completion is the splice fold over the located methods in the locator's order |
| `Generation.IncrementalSample` | inference.py:103-132 | in incremental mode the methods are located once on the original code and visited in the policy's order, and the `i`-th isolation is taken from the result of the first `i` splices |
| `Generation.StepsTotal` | inference.py:83-94 | with collaborators that never raise, the per-method loop completes |
| `Generation.GenerateSampleTotal` | inference.py:69-132 | with collaborators that never raise, every pair yields a sample |
| `Orchestrator.SampleCount` | inference.py:68 | `range(num_sample)` has `num_sample` elements, and none when `num_sample` is negative |
| `Orchestrator.Product` | inference.py:68 | the product has `len(tasks) * n` pairs |
| `Orchestrator.ProductIndex` | inference.py:68 | task-major order: position `i` of the product is sample index `i % n` of task `i / n` |
| `Orchestrator.ProductAt` | inference.py:68 | sample index `r` of task `t` is the pair at position `t * n + r` |
| `Orchestrator.Loop` | inference.py:68-133 | the loop over the pending pairs only appends; it appends one sample per pair unless aborted; each appended sample is the one generated for its pair; an abort happens exactly at the pair whose generation raised |
| `Orchestrator.Resumed` | inference.py:66-133 | the loop resumed after `len(samples)` pairs keeps the existing samples as an unchanged prefix; it processes nothing when they already cover the product; otherwise it ends with one sample per pair or stops at the pair that raised |
| `Orchestrator.Inference` | inference.py:66-133 | `inference` only appends: the samples already in the output file stay as an unchanged prefix; a run that is not aborted ends with `len(tasks) * n` samples, or with the existing ones when there were already as many; an aborted run ends short of `len(tasks) * n` |
| `Orchestrator.RunUntil` | inference.py:66-133 | a run whose process is stopped after the pairs before position `stop` keeps the existing samples as a prefix, appends no sample at or beyond position `stop`, and, unless aborted, covers exactly the pairs before `min(stop, len(tasks) * n)` |
| `Orchestrator.ResumedStep` | inference.py:68-133 | one iteration: the pair after the existing samples is generated; a raise ends the run there, otherwise its sample is appended and the loop goes on |
| `Orchestrator.LoopSplit` | inference.py:68-133 | the loop over `front + back` is the loop over `front` followed, unless aborted, by the loop over `back` from where it stopped |
| `Orchestrator.ResumedSplit` | inference.py:66-133 | resuming from the checkpoint that the loop over a prefix of the pairs left gives what the loop over all pairs gives |
| `Run.InferenceSampleAt` | inference.py:68-76 | the sample at position `t * n + r` that this run appended is the one generated for sample index `r` of task `t`, and it carries that task's id and target |
| `Run.InferenceAbortsAt` | inference.py:68-133 | an aborted run stops at the pair right after the last sample written, and that pair's generation is the one that raised |
| `Run.ResumeIsIdempotent` | inference.py:66-68 | running again on the output of a completed run processes nothing and leaves the output as it is, whatever the model answers |
| `Run.ResumeAfterInterrupt` | inference.py:66-133 | resuming from the output file that an interrupted run left gives what an uninterrupted run with the same model answers gives |
| `Run.RunInference` | inference.py:66-133 | the loop as written, with `islice` from the resume offset and the output rewritten after each pair, produces the fold's final sample list and error |
| `Game.GenerateNewPipe` | projects/PA19-Solution/src/main/java/game/PipeQueue.java:117-123 | a generated pipe has one of the shapes of `Pipe.Shape`, drawn by `nextInt` below the number of shapes |
| `Game.Refill` | projects/PA19-Solution/src/main/java/game/PipeQueue.java:34-36 | the top-up loop keeps the queue as a prefix and grows it to `max(size, MAX_GEN_LENGTH)` with generated pipes |
| `Game.NewPipes` | projects/PA19-Solution/src/main/java/game/PipeQueue.java:31-37 | the no-argument constructor yields exactly `MAX_GEN_LENGTH` pipes |
| `Game.NewPipesFrom` | projects/PA19-Solution/src/main/java/game/PipeQueue.java:48-57 | the list constructor puts the given pipes first, in order, treating `null` as empty; its size is `max(len(pipes), 5)`; with at least 5 given pipes the queue is exactly those pipes |
| `Game.PeekPipe` | projects/PA19-Solution/src/main/java/game/PipeQueue.java:65-72 | `peek` returns the head and raises `IllegalStateException` exactly when the queue is empty, so never on a queue of at least 5 pipes |
| `Game.ConsumePipe` | projects/PA19-Solution/src/main/java/game/PipeQueue.java:80-86 | `consume` raises `NoSuchElementException` exactly on an empty queue; otherwise the old tail is a prefix of the new queue, whose size is `max(size - 1, 5)`, so a queue of at least 5 pipes keeps at least 5 |
| `Game.UndoPipe` | projects/PA19-Solution/src/main/java/game/PipeQueue.java:93-95 | `undo(p)` grows the queue by one, leaves the old queue behind the new head, and a following `peek` returns `p` |
| `Game.UndoThenConsume` | projects/PA19-Solution/src/main/java/game/PipeQueue.java:80-95 | on a queue of at least 5 pipes, `undo(p)` followed by `consume()` restores the original queue exactly |
| `Game.Display` | projects/PA19-Solution/src/main/java/game/PipeQueue.java:100-106 | the printed line starts with the header `Next Pipes:  ` and has five characters per pipe after it |
| `Game.DisplayAt` | projects/PA19-Solution/src/main/java/game/PipeQueue.java:100-106 | the cell of the `i`-th pipe, front first, is its one-character form followed by four spaces |

## Left out

- The `query` closure (inference.py lines 29-64) is left out. This covers the model backends, prompt templating, tokenisation and floating-point sampling. It is the arbitrary function `Collaborators.query`, indexed by the position of the pair being generated so that different samples of one task can differ.
- `get_todo_methods`, `retain_todo_method`, `replace_method` and `extract_code` (imported at inference.py lines 9-10) are not part of this model. They are arbitrary functions that answer or raise, so no property of the splice itself (locality, round trip) is stated.
- Reading the input and output files (`stream_jsonl`, `os.path.exists`) is left out: the tasks and the existing samples are parameters.
- Writing the output (`write_jsonl`) is modelled only as "the output file holds the sample list after each pair" (the `checkpoint` of `Run.RunInference`).
- `tqdm` progress bars, `logging`, model loading and the argument parsing block (inference.py lines 13-27 and 136-160) are left out: they are I/O and configuration. `--mode` and `--incremental-mode` become `Generation.Config`, and `--num-sample` is the integer parameter `numSample`.
- `Ordering.Shuffle` models `random.shuffle` as a Fisher-Yates pass driven by arbitrary draws, and claims only that the result is a permutation. Python's random generator and its exact draws are left out.
- `Run.ResumeAfterInterrupt` compares two runs that get the same model answers and the same shuffle draws. The program samples afresh on every call (`do_sample` when the temperature is above 1e-5, inference.py line 52), so a real resumed run may get other answers. For the same reason the model gives two identical queries within one pair the same answer, and a resumed run that re-attempts a pair whose generation raised raises again, while the program would sample that pair afresh.
- `Game.GenerateNewPipe` picks an arbitrary shape below the number of shapes, in place of `java.util.Random.nextInt`. Pipe.java is not part of this model: a pipe is the index of its shape, and the number of shapes is the parameter `shapes`.
- `Game.NewPipesFrom` assumes that the given list holds no `null` pipe. Java's `addAll` would copy a `null` entry, and `peek` would then raise `IllegalStateException` on a non-empty queue whose head is `null` (PipeQueue.java lines 66-68). So `Game.PeekPipe` raising exactly on an empty queue holds only for lists without `null` entries.
- `Game.Display` takes `Pipe.toSingleChar` as a parameter `glyph`. It models the printed line, not the console.
- The class `Game.PipeQueue` wraps the sequence-level operations with a `Valid()` invariant. Its constructors and its `Consume` and `Undo` carry the same contracts as the sequence-level rows above and are not listed separately.
