/** Properties of whole runs of `inference` (inference.py lines 66-133), and the loop
    written the way inference.py writes it. */
module Run {
  import opened Results
  import opened Generation
  import opened Orchestrator

  /** Task-major order: the sample of sample index `r` of task `t`, when it is one this run
      appended, sits at position `t * n + r`; it is the one generated for that pair and
      carries the task's id and target. */
  lemma InferenceSampleAt(c: Collaborators, cfg: Config, tasks: seq<Task>, numSample: int, samples: seq<Sample>,
                          t: nat, r: nat)
    requires t < |tasks| && r < SampleCount(numSample)
    requires |samples| <= t * SampleCount(numSample) + r < |Inference(c, cfg, tasks, numSample, samples).samples|
    ensures var j := t * SampleCount(numSample) + r;
      var s := Inference(c, cfg, tasks, numSample, samples).samples[j];
      && GenerateSample(c, cfg, j, tasks[t]) == Success(s)
      && s.taskId == tasks[t].taskId
      && s.target == tasks[t].target
  {
    var n := SampleCount(numSample);
    var j := t * n + r;
    var all := Product(tasks, n);
    ProductAt(tasks, n, t, r);
    assert Inference(c, cfg, tasks, numSample, samples) == Resumed(Generator(c, cfg), all, samples);
    ResumedAt(Generator(c, cfg), all, samples, j);
    var s := Inference(c, cfg, tasks, numSample, samples).samples[j];
    assert Generator(c, cfg)(j, tasks[t]) == Success(s);
    assert GenerateSample(c, cfg, j, tasks[t]) == Success(s);
  }

  /** An aborted run stops at the first pair whose generation raised: the pair of the
      product right after the last sample written. */
  lemma InferenceAbortsAt(c: Collaborators, cfg: Config, tasks: seq<Task>, numSample: int, samples: seq<Sample>)
    requires Inference(c, cfg, tasks, numSample, samples).error.Some?
    ensures var o := Inference(c, cfg, tasks, numSample, samples);
      var all := Product(tasks, SampleCount(numSample));
      && |samples| <= |o.samples| < |all|
      && GenerateSample(c, cfg, |o.samples|, all[|o.samples|].task) == Failure(o.error.value)
  {
    var all := Product(tasks, SampleCount(numSample));
    var m := |Inference(c, cfg, tasks, numSample, samples).samples|;
    assert Generator(c, cfg)(m, all[m].task) == GenerateSample(c, cfg, m, all[m].task);
  }

  /** Resume idempotence: running again on the output of a run that was not aborted adds
      nothing and leaves the output file as it is, whatever the model answers. */
  lemma ResumeIsIdempotent(c: Collaborators, c': Collaborators, cfg: Config, tasks: seq<Task>, numSample: int, samples: seq<Sample>)
    requires Inference(c, cfg, tasks, numSample, samples).error.None?
    ensures var done := Inference(c, cfg, tasks, numSample, samples).samples;
      Inference(c', cfg, tasks, numSample, done) == Outcome(done, None)
  {
  }

  /** Crash recovery: resuming from the checkpoint an interrupted run left behind gives
      the same output as a run that was never interrupted. */
  lemma ResumeAfterInterrupt(c: Collaborators, cfg: Config, tasks: seq<Task>, numSample: int,
                             samples: seq<Sample>, stop: nat)
    requires RunUntil(c, cfg, tasks, numSample, samples, stop).error.None?
    ensures Inference(c, cfg, tasks, numSample, RunUntil(c, cfg, tasks, numSample, samples, stop).samples)
         == Inference(c, cfg, tasks, numSample, samples)
  {
    var all := Product(tasks, SampleCount(numSample));
    ResumedSplit(Generator(c, cfg), all, if stop < |all| then stop else |all|, samples);
  }

  /** The loop as inference.py writes it: one pass over the product from the resume
      offset, the sample of each pair appended to `samples`, and the output file
      (`checkpoint`) rewritten with the whole list after every pair. */
  method RunInference(c: Collaborators, cfg: Config, tasks: seq<Task>, numSample: int, existing: seq<Sample>)
    returns (checkpoint: seq<Sample>, error: Option<Error>)
    ensures Outcome(checkpoint, error) == Inference(c, cfg, tasks, numSample, existing)
  {
    var gen := Generator(c, cfg);
    var all := Product(tasks, SampleCount(numSample));
    var samples := existing;
    checkpoint := existing;
    error := None;
    var i := |existing|;
    while i < |all|
      invariant i == |samples|
      invariant checkpoint == samples
      invariant Inference(c, cfg, tasks, numSample, existing) == Resumed(gen, all, samples)
    {
      ResumedStep(gen, all, samples);
      var sample := gen(i, all[i].task);
      if sample.Failure? {
        error := Some(sample.error);
        return;
      }
      samples := samples + [sample.value];
      checkpoint := samples;
      i := i + 1;
    }
  }
}
