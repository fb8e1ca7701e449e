/** The resumable loop of `inference` (inference.py lines 66-133): the (task, sample-index)
    pairs of `product(tasks, range(num_sample))`, in task-major order, with the first
    `len(samples)` of them skipped because their samples were already written by an
    earlier run; one sample appended per remaining pair; the whole list written back to
    the output file after each pair. An exception aborts the run and leaves in the output
    file the list as it was written after the last completed pair. */
module Orchestrator {
  import opened Results
  import opened Generation

  /** One element of `product(tasks, range(num_sample))`. */
  datatype Pair = Pair(task: Task, index: nat)

  /** The end of a run: the samples in the output file, and the exception that aborted
      the run, if one did. */
  datatype Outcome = Outcome(samples: seq<Sample>, error: Option<Error>)

  /** The length of `range(num_sample)`: empty for a negative `num_sample`. */
  function SampleCount(numSample: int): (n: nat)
    ensures numSample >= 0 ==> n == numSample
    ensures numSample < 0 ==> n == 0
  {
    if numSample < 0 then 0 else numSample
  }

  /** The pairs of one task. */
  function Row(task: Task, n: nat): seq<Pair>
  {
    seq(n, j requires 0 <= j => Pair(task, j))
  }

  /** `itertools.product(tasks, range(n))`: the outer loop over tasks, the inner over
      sample indices. */
  function Product(tasks: seq<Task>, n: nat): (r: seq<Pair>)
    ensures |r| == |tasks| * n
  {
    if tasks == [] then []
    else
      assert |tasks| * n == n + (|tasks| - 1) * n;
      Row(tasks[0], n) + Product(tasks[1..], n)
  }

  lemma {:induction false} MulAtLeast(a: int, n: int)
    requires a > 0 && n > 0
    ensures a * n >= n
  {
    if a > 1 {
      MulAtLeast(a - 1, n);
      assert a * n == (a - 1) * n + n;
    }
  }

  /** Euclidean division by a positive divisor has a unique quotient and remainder. */
  lemma DivModUnique(i: int, n: int, q: int, r: int)
    requires 0 < n && 0 <= r < n && i == q * n + r
    ensures i / n == q && i % n == r
  {
    var q', r' := i / n, i % n;
    assert i == q' * n + r';
    assert (q - q') * n == r' - r;
    if q > q' {
      MulAtLeast(q - q', n);
    } else if q < q' {
      MulAtLeast(q' - q, n);
    }
  }

  lemma DivModShift(i: int, n: int)
    requires 0 < n <= i
    ensures (i - n) / n == i / n - 1
    ensures (i - n) % n == i % n
  {
    DivModUnique(i - n, n, i / n - 1, i % n);
  }

  /** The product lists the pairs in task-major order: position `i` holds sample index
      `i % n` of task `i / n`. */
  lemma {:induction false} ProductIndex(tasks: seq<Task>, n: nat, i: nat)
    requires i < |tasks| * n
    ensures n > 0 && i / n < |tasks|
    ensures Product(tasks, n)[i] == Pair(tasks[i / n], i % n)
    decreases |tasks|
  {
    assert tasks != [];
    if i < n {
      assert i / n == 0 && i % n == i;
    } else {
      assert |tasks| * n - n == (|tasks| - 1) * n;
      ProductIndex(tasks[1..], n, i - n);
      DivModShift(i, n);
    }
  }

  /** The generation of one sample, as a function of the pair's position and task. */
  function Generator(c: Collaborators, cfg: Config): (nat, Task) -> Result<Sample, Error>
  {
    (pair: nat, task: Task) => GenerateSample(c, cfg, pair, task)
  }

  /** The loop over the pairs still to do, `next` being the position of the first one in
      the product and `samples` the list written so far. */
  function Loop(gen: (nat, Task) -> Result<Sample, Error>, pending: seq<Pair>, next: nat, samples: seq<Sample>): (o: Outcome)
    ensures |samples| <= |o.samples| <= |samples| + |pending|
    ensures o.samples[..|samples|] == samples
    ensures o.error.None? <==> |o.samples| == |samples| + |pending|
    ensures forall j :: |samples| <= j < |o.samples| ==>
      gen(next + (j - |samples|), pending[j - |samples|].task) == Success(o.samples[j])
    ensures o.error.Some? ==>
      gen(next + (|o.samples| - |samples|), pending[|o.samples| - |samples|].task)
      == Failure(o.error.value)
    decreases |pending|
  {
    if pending == [] then Outcome(samples, None)
    else
      match gen(next, pending[0].task)
      case Failure(e) => Outcome(samples, Some(e))
      case Success(s) => Loop(gen, pending[1..], next + 1, samples + [s])
  }

  /** The loop of `inference` over the pair list `all`, resumed after the `|samples|` pairs
      whose samples are already in the output file (`islice(all, len(samples), None)`).
      The existing samples stay as an unchanged prefix; the sample at position `j` beyond
      them is the one generated for pair `j`; the run ends with one sample per pair unless
      it is aborted, and then the pair it stopped at is the one whose generation raised. */
  function Resumed(gen: (nat, Task) -> Result<Sample, Error>, all: seq<Pair>, samples: seq<Sample>): (o: Outcome)
    ensures |samples| <= |o.samples|
    ensures o.samples[..|samples|] == samples
    ensures |samples| >= |all| ==> o == Outcome(samples, None)
    ensures o.error.None? ==> |o.samples| == if |samples| >= |all| then |samples| else |all|
    ensures forall j :: |samples| <= j < |o.samples| ==> j < |all| && gen(j, all[j].task) == Success(o.samples[j])
    ensures o.error.Some? ==> |o.samples| < |all| && gen(|o.samples|, all[|o.samples|].task) == Failure(o.error.value)
  {
    var k := |samples|;
    if k >= |all| then Outcome(samples, None)
    else
      var pending := all[k..];
      var o := Loop(gen, pending, k, samples);
      assert |pending| == |all| - k;
      assert forall j :: k <= j < |o.samples| ==> pending[j - k] == all[j] && k + (j - k) == j;
      o
  }

  /** `inference` on the tasks of the input file and the samples already in the output
      file. A run only appends: the existing samples stay as its unchanged prefix, and a run
      that is not aborted ends with one sample per pair of the product, `|tasks| * n` in all
      (or with the existing ones, if there were already as many). */
  function Inference(c: Collaborators, cfg: Config, tasks: seq<Task>, numSample: int, samples: seq<Sample>): (o: Outcome)
    ensures |samples| <= |o.samples|
    ensures o.samples[..|samples|] == samples
    ensures var total := |tasks| * SampleCount(numSample);
      o.error.None? ==> |o.samples| == if |samples| >= total then |samples| else total
    ensures o.error.Some? ==> |o.samples| < |tasks| * SampleCount(numSample)
  {
    Resumed(Generator(c, cfg), Product(tasks, SampleCount(numSample)), samples)
  }

  /** A run whose process is stopped once the samples of the pairs before position `stop`
      are written: the loop over the product cut at `stop`. */
  function RunUntil(c: Collaborators, cfg: Config, tasks: seq<Task>, numSample: int,
                    samples: seq<Sample>, stop: nat): (o: Outcome)
    ensures |samples| <= |o.samples| <= if |samples| >= stop then |samples| else stop
    ensures o.samples[..|samples|] == samples
    ensures var total := |tasks| * SampleCount(numSample);
      var end := if stop < total then stop else total;
      o.error.None? ==> |o.samples| == if |samples| >= end then |samples| else end
  {
    var all := Product(tasks, SampleCount(numSample));
    Resumed(Generator(c, cfg), all[..if stop < |all| then stop else |all|], samples)
  }

  /** One iteration of the loop: the pair right after the existing samples is generated;
      if that raises, the run ends there, otherwise the loop goes on with its sample
      appended. */
  lemma ResumedStep(gen: (nat, Task) -> Result<Sample, Error>, all: seq<Pair>, samples: seq<Sample>)
    requires |samples| < |all|
    ensures Resumed(gen, all, samples)
         == match gen(|samples|, all[|samples|].task)
            case Failure(e) => Outcome(samples, Some(e))
            case Success(s) => Resumed(gen, all, samples + [s])
  {
    var k := |samples|;
    assert all[k..][0] == all[k] && all[k..][1..] == all[k + 1..];
  }

  /** The sample at position `j` beyond the existing ones is the one generated for pair `j`. */
  lemma ResumedAt(gen: (nat, Task) -> Result<Sample, Error>, all: seq<Pair>, samples: seq<Sample>, j: nat)
    requires |samples| <= j < |Resumed(gen, all, samples).samples|
    ensures j < |all| && gen(j, all[j].task) == Success(Resumed(gen, all, samples).samples[j])
  {
  }

  /** Sample index `r` of task `t` is the pair at position `t * n + r` of the product. */
  lemma ProductAt(tasks: seq<Task>, n: nat, t: nat, r: nat)
    requires t < |tasks| && r < n
    ensures t * n + r < |Product(tasks, n)|
    ensures Product(tasks, n)[t * n + r] == Pair(tasks[t], r)
  {
    PositionBound(t, r, |tasks|, n);
    DivModUnique(t * n + r, n, t, r);
    ProductIndex(tasks, n, t * n + r);
  }

  /** Position `t * n + r` of a row-major layout lies inside the layout. */
  lemma PositionBound(t: nat, r: nat, rows: nat, n: nat)
    requires t < rows && r < n
    ensures t * n + r < rows * n
  {
    MulAtLeast(rows - t, n);
    assert rows * n == t * n + (rows - t) * n;
  }

  /** Splitting the pending pairs: the loop over `front + back` is the loop over `front`,
      then, if that was not aborted, the loop over `back` from where it stopped. */
  lemma {:induction false} LoopSplit(gen: (nat, Task) -> Result<Sample, Error>, front: seq<Pair>, back: seq<Pair>,
                                     next: nat, samples: seq<Sample>)
    ensures var first := Loop(gen, front, next, samples);
      Loop(gen, front + back, next, samples)
      == if first.error.Some? then first else Loop(gen, back, next + |front|, first.samples)
    decreases |front|
  {
    if front == [] {
      assert front + back == back;
    } else {
      assert (front + back)[0] == front[0];
      assert (front + back)[1..] == front[1..] + back;
      match gen(next, front[0].task)
      case Failure(_) =>
      case Success(s) => LoopSplit(gen, front[1..], back, next + 1, samples + [s]);
    }
  }

  /** Resuming the loop over `all` from the checkpoint left by the loop over the prefix
      `all[..end]` gives what the loop over `all` gives. */
  lemma ResumedSplit(gen: (nat, Task) -> Result<Sample, Error>, all: seq<Pair>, end: nat, samples: seq<Sample>)
    requires end <= |all|
    requires Resumed(gen, all[..end], samples).error.None?
    ensures Resumed(gen, all, Resumed(gen, all[..end], samples).samples) == Resumed(gen, all, samples)
  {
    var k := |samples|;
    if k < end {
      var front, back := all[k..end], all[end..];
      var first := Loop(gen, front, k, samples);
      assert all[..end][k..] == front;
      assert Resumed(gen, all[..end], samples) == first;
      assert |first.samples| == end;
      assert all[k..] == front + back;
      LoopSplit(gen, front, back, k, samples);
      assert Resumed(gen, all, samples) == Loop(gen, back, end, first.samples);
    }
  }

}
