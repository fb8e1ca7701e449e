/** How one sample is produced for one (task, sample-index) pair of the benchmark run
    (`inference` in inference.py): one model query over the whole file in holistic mode,
    or one query per located to-do method, spliced into a running `result`, in the two
    per-method modes.

    The method locator, isolator, splicer, code extractor and model backend live in code
    that is not part of this model; they are the fields of `Collaborators`, arbitrary
    functions that either answer or raise. */
module Generation {
  import opened Results
  import Ordering

  /** One benchmark record of the input JSON-lines file. */
  datatype Task = Task(taskId: string, code: string, codeContext: string, target: string)

  /** A to-do method as the locator reports it: its name and the occurrence number
      that tells overloads with the same name apart (the `seq` field). */
  datatype TodoMethod = TodoMethod(name: string, seqNum: int)

  /** What the `query` closure returns: the rendered prompt and the raw model output. */
  datatype Reply = Reply(prompt: string, outputs: string)

  /** One entry of a per-method sample's `mediate` list. */
  datatype Intermediate = Intermediate(name: string, seqNum: int, prompt: string, completion: string)

  /** One line of the output JSON-lines file. */
  datatype Sample =
    | Whole(taskId: string, target: string, prompt: string, completion: string)
    | PerMethod(taskId: string, target: string, completion: string, mediate: seq<Intermediate>)

  /** The exceptions that abort a run: an unparsable task, a to-do method the isolator or
      splicer cannot find, model output without a code block, a failing model backend. */
  datatype Error = ParseError | StubNotFound | ExtractionError | BackendError

  /** `--mode`. */
  datatype Mode = Holistic | Independent | Incremental

  /** `--mode` and `--incremental-mode` (the latter only matters in incremental mode). */
  datatype Config = Config(mode: Mode, order: Ordering.Policy)

  /** The collaborators of the orchestrator.
      - `getTodo(code)`: `get_todo_methods`, the to-do methods of `code` in source order;
      - `retain(code, name, seq)`: `retain_todo_method`, `code` reduced to that one to-do method;
      - `replace(code, body, name, seq)`: `replace_method`, `code` with that method replaced by `body`;
      - `extract(outputs)`: `extract_code`, the code block of a raw model output;
      - `query(pair, code, context)`: the `query` closure; `pair` is the position of the
        (task, sample-index) pair being generated, so the sampled answers of different
        samples of the same task may differ;
      - `randBelow(pair, i)`: the draw `random.shuffle` makes for position `i` while
        shuffling for pair `pair`. */
  datatype Collaborators = Collaborators(
    getTodo: string -> Result<seq<TodoMethod>, Error>,
    retain: (string, string, int) -> Result<string, Error>,
    replace: (string, string, string, int) -> Result<string, Error>,
    extract: string -> Result<string, Error>,
    query: (nat, string, string) -> Result<Reply, Error>,
    randBelow: (nat, nat) -> nat)

  /** The per-method loop's state once it is done: the final `result` and `mediate`. */
  datatype Progress = Progress(result: string, mediate: seq<Intermediate>)

  /** The random draws of the shuffle for one pair. */
  function Draws(c: Collaborators, pair: nat): nat -> nat
  {
    (i: nat) => c.randBelow(pair, i)
  }

  /** The order in which the per-method modes visit the located methods: independent mode
      keeps the locator's order, incremental mode applies `--incremental-mode`. */
  function Visit(c: Collaborators, cfg: Config, pair: nat, todo: seq<TodoMethod>): (r: seq<TodoMethod>)
    ensures multiset(r) == multiset(todo)
    ensures cfg.mode != Incremental || cfg.order == Ordering.Seq ==> r == todo
    ensures cfg.mode == Incremental && cfg.order == Ordering.Rev ==>
      |r| == |todo| && forall i :: 0 <= i < |todo| ==> r[i] == todo[|todo| - 1 - i]
  {
    if cfg.mode == Incremental then Ordering.Order(todo, cfg.order, Draws(c, pair)) else todo
  }

  /** One iteration of the per-method loop (inference.py lines 84-94 and 114-124): the
      method `m` is isolated from the original code (independent mode) or from the running
      `result` (incremental mode), the model is queried on the isolation, and the code
      extracted from its answer is spliced into `result`. Gives the new running result
      and the `mediate` entry. */
  function Step(c: Collaborators, pair: nat, task: Task, incremental: bool,
                m: TodoMethod, result: string): (r: Result<(string, Intermediate), Error>)
    ensures r.Success? ==> r.value.1.name == m.name && r.value.1.seqNum == m.seqNum
    ensures r.Success? ==> Asked(c, pair, task, if incremental then result else task.code, m, r.value.1)
    ensures r.Success? ==> SplicedOne(c, result, m, r.value.1.completion, r.value.0)
    ensures NeverRaise(c) ==> r.Success?
  {
    var source :- c.retain(if incremental then result else task.code, m.name, m.seqNum);
    var reply :- c.query(pair, source, task.codeContext);
    var body :- c.extract(reply.outputs);
    var next :- c.replace(result, body, m.name, m.seqNum);
    Success((next, Intermediate(m.name, m.seqNum, reply.prompt, reply.outputs)))
  }

  /** The per-method loop from the remaining to-do methods `todo` and the running `result`. */
  function Steps(c: Collaborators, pair: nat, task: Task, incremental: bool,
                 todo: seq<TodoMethod>, result: string): (r: Result<Progress, Error>)
    ensures r.Success? ==> |r.value.mediate| == |todo|
    ensures r.Success? ==> forall i :: 0 <= i < |todo| ==>
      r.value.mediate[i].name == todo[i].name && r.value.mediate[i].seqNum == todo[i].seqNum
    decreases |todo|
  {
    if todo == [] then Success(Progress(result, []))
    else
      var step :- Step(c, pair, task, incremental, todo[0], result);
      var rest :- Steps(c, pair, task, incremental, todo[1..], step.0);
      Success(Progress(rest.result, [step.1] + rest.mediate))
  }

  /** The outcome of the per-method loop given the entries `done` already recorded
      and the outcome `r` of the methods still to visit. */
  function Resume(done: seq<Intermediate>, r: Result<Progress, Error>): Result<Progress, Error>
  {
    match r
    case Failure(e) => Failure(e)
    case Success(p) => Success(Progress(p.result, done + p.mediate))
  }

  lemma ResumeEmpty(r: Result<Progress, Error>)
    ensures Resume([], r) == r
  {
    if r.Success? {
      assert [] + r.value.mediate == r.value.mediate;
    }
  }

  lemma ResumeAppend(done: seq<Intermediate>, e: Intermediate, r: Result<Progress, Error>)
    ensures Resume(done, Resume([e], r)) == Resume(done + [e], r)
  {
    if r.Success? {
      assert done + ([e] + r.value.mediate) == (done + [e]) + r.value.mediate;
    }
  }

  /** The per-method loop over a non-empty list: the first step, then the rest. */
  lemma StepsUnfold(c: Collaborators, pair: nat, task: Task, incremental: bool,
                    todo: seq<TodoMethod>, result: string)
    requires todo != []
    ensures Steps(c, pair, task, incremental, todo, result)
         == match Step(c, pair, task, incremental, todo[0], result)
            case Failure(e) => Failure(e)
            case Success(step) => Resume([step.1], Steps(c, pair, task, incremental, todo[1..], step.0))
  {
  }

  /** The per-method loop as inference.py runs it: a running `result` that starts as the
      task's code, a `mediate` list grown by one entry per visited method, and an
      exception from any collaborator aborting the loop. */
  method RunSteps(c: Collaborators, pair: nat, task: Task, incremental: bool, todo: seq<TodoMethod>)
    returns (r: Result<Progress, Error>)
    ensures r == Steps(c, pair, task, incremental, todo, task.code)
  {
    var result := task.code;
    var mediate: seq<Intermediate> := [];
    var i := 0;
    assert todo[i..] == todo;
    ResumeEmpty(Steps(c, pair, task, incremental, todo, result));
    while i < |todo|
      invariant i <= |todo|
      invariant Steps(c, pair, task, incremental, todo, task.code)
             == Resume(mediate, Steps(c, pair, task, incremental, todo[i..], result))
    {
      StepsUnfold(c, pair, task, incremental, todo[i..], result);
      assert todo[i..][0] == todo[i] && todo[i..][1..] == todo[i + 1..];
      var step := Step(c, pair, task, incremental, todo[i], result);
      if step.Failure? {
        return Failure(step.error);
      }
      ResumeAppend(mediate, step.value.1, Steps(c, pair, task, incremental, todo[i + 1..], step.value.0));
      result := step.value.0;
      mediate := mediate + [step.value.1];
      i := i + 1;
    }
    assert todo[i..] == [];
    r := Success(Progress(result, mediate));
    assert mediate + [] == mediate;
  }

  /** The reference for the final completion: the left fold of
      `replace(acc, extract(outputs[i]), name_i, seq_i)` over the visited methods. */
  function Splice(c: Collaborators, code: string, todo: seq<TodoMethod>, outputs: seq<string>): Result<string, Error>
    requires |outputs| == |todo|
    decreases |todo|
  {
    if todo == [] then Success(code)
    else
      var body :- c.extract(outputs[0]);
      var next :- c.replace(code, body, todo[0].name, todo[0].seqNum);
      Splice(c, next, todo[1..], outputs[1..])
  }

  /** The fold performs the first splice, then folds the rest from its result. */
  lemma SpliceStep(c: Collaborators, code: string, todo: seq<TodoMethod>, outputs: seq<string>, next: string)
    requires |outputs| == |todo| > 0
    requires SplicedOne(c, code, todo[0], outputs[0], next)
    ensures Splice(c, code, todo, outputs) == Splice(c, next, todo[1..], outputs[1..])
  {
  }

  /** The raw model outputs recorded in a `mediate` list. */
  function Completions(mediate: seq<Intermediate>): (r: seq<string>)
    ensures |r| == |mediate|
    ensures forall i :: 0 <= i < |mediate| ==> r[i] == mediate[i].completion
  {
    seq(|mediate|, i requires 0 <= i < |mediate| => mediate[i].completion)
  }

  /** Splicing the code extracted from `outputs` into `code` at method `m` gives `next`. */
  ghost predicate SplicedOne(c: Collaborators, code: string, m: TodoMethod, outputs: string, next: string)
  {
    && c.extract(outputs).Success?
    && c.replace(code, c.extract(outputs).value, m.name, m.seqNum) == Success(next)
  }

  /** The model was asked, on the isolation of `m` from `source`, and answered `e`. */
  ghost predicate Asked(c: Collaborators, pair: nat, task: Task, source: string, m: TodoMethod, e: Intermediate)
  {
    && c.retain(source, m.name, m.seqNum).Success?
    && c.query(pair, c.retain(source, m.name, m.seqNum).value, task.codeContext) == Success(Reply(e.prompt, e.completion))
  }

  /** Produces the sample of one pair (inference.py lines 69-132). */
  function GenerateSample(c: Collaborators, cfg: Config, pair: nat, task: Task): (r: Result<Sample, Error>)
    ensures r.Success? ==> r.value.taskId == task.taskId && r.value.target == task.target
    ensures r.Success? ==> (r.value.Whole? <==> cfg.mode == Holistic)
    ensures r.Success? && cfg.mode == Holistic ==>
      c.query(pair, task.code, task.codeContext) == Success(Reply(r.value.prompt, r.value.completion))
    ensures r.Success? && cfg.mode != Holistic ==>
      c.getTodo(task.code).Success? && |r.value.mediate| == |c.getTodo(task.code).value|
  {
    match cfg.mode
    case Holistic =>
      var reply :- c.query(pair, task.code, task.codeContext);
      Success(Whole(task.taskId, task.target, reply.prompt, reply.outputs))
    case _ =>
      var todo :- c.getTodo(task.code);
      var p :- Steps(c, pair, task, cfg.mode == Incremental, Visit(c, cfg, pair, todo), task.code);
      Success(PerMethod(task.taskId, task.target, p.result, p.mediate))
  }

  /** The final completion of the per-method loop is the left fold of the splices of
      the recorded model outputs, starting from the result the loop started with. */
  lemma {:induction false} StepsSplice(c: Collaborators, pair: nat, task: Task, incremental: bool,
                                       todo: seq<TodoMethod>, result: string)
    requires Steps(c, pair, task, incremental, todo, result).Success?
    ensures var p := Steps(c, pair, task, incremental, todo, result).value;
      Splice(c, result, todo, Completions(p.mediate)) == Success(p.result)
    decreases |todo|
  {
    if todo != [] {
      var step := Step(c, pair, task, incremental, todo[0], result).value;
      var rest := Steps(c, pair, task, incremental, todo[1..], step.0).value;
      StepsSplice(c, pair, task, incremental, todo[1..], step.0);
      var p := Steps(c, pair, task, incremental, todo, result).value;
      assert p.mediate == [step.1] + rest.mediate;
      assert Completions(p.mediate)[1..] == Completions(rest.mediate);
    }
  }

  /** Unfolds one iteration of a completed per-method loop. */
  lemma StepsHead(c: Collaborators, pair: nat, task: Task, incremental: bool,
                  todo: seq<TodoMethod>, result: string)
    requires todo != []
    requires Steps(c, pair, task, incremental, todo, result).Success?
    ensures Step(c, pair, task, incremental, todo[0], result).Success?
    ensures var step := Step(c, pair, task, incremental, todo[0], result).value;
      && Steps(c, pair, task, incremental, todo[1..], step.0).Success?
      && Steps(c, pair, task, incremental, todo, result).value.mediate
         == [step.1] + Steps(c, pair, task, incremental, todo[1..], step.0).value.mediate
  {
  }

  /** The `i`-th model query of the per-method loop is made on the isolation of the
      `i`-th method from the original code (independent mode) or from the result of
      the first `i` splices (incremental mode). */
  lemma {:induction false} StepsSource(c: Collaborators, pair: nat, task: Task, incremental: bool,
                                       todo: seq<TodoMethod>, result: string, i: nat)
    requires Steps(c, pair, task, incremental, todo, result).Success?
    requires i < |todo|
    ensures var p := Steps(c, pair, task, incremental, todo, result).value;
      var before := Splice(c, result, todo[..i], Completions(p.mediate)[..i]);
      && before.Success?
      && Asked(c, pair, task, if incremental then before.value else task.code, todo[i], p.mediate[i])
    decreases i
  {
    StepsHead(c, pair, task, incremental, todo, result);
    var step := Step(c, pair, task, incremental, todo[0], result).value;
    var mediate := Steps(c, pair, task, incremental, todo, result).value.mediate;
    var later := Steps(c, pair, task, incremental, todo[1..], step.0).value.mediate;
    var outs := Completions(mediate);
    if i == 0 {
      assert Splice(c, result, todo[..0], outs[..0]) == Success(result);
    } else {
      StepsSource(c, pair, task, incremental, todo[1..], step.0, i - 1);
      assert todo[..i][1..] == todo[1..][..i - 1];
      assert outs[..i][1..] == Completions(later)[..i - 1];
      SpliceStep(c, result, todo[..i], outs[..i], step.0);
      assert todo[1..][i - 1] == todo[i];
      assert later[i - 1] == mediate[i];
    }
  }

  /** The complete account of a per-method sample: one `mediate` entry per located method,
      in visiting order; the completion is the fold of the splices of the recorded outputs
      over the original code; and each recorded answer is the model's answer on the
      isolation of its method from the original code (independent mode) or from the
      running result after the splices before it (incremental mode). */
  lemma PerMethodSample(c: Collaborators, cfg: Config, pair: nat, task: Task)
    requires cfg.mode != Holistic
    requires GenerateSample(c, cfg, pair, task).Success?
    ensures c.getTodo(task.code).Success?
    ensures var s := GenerateSample(c, cfg, pair, task).value;
      var visit := Visit(c, cfg, pair, c.getTodo(task.code).value);
      && s.PerMethod?
      && |s.mediate| == |visit|
      && (forall i :: 0 <= i < |visit| ==> s.mediate[i].name == visit[i].name && s.mediate[i].seqNum == visit[i].seqNum)
      && Splice(c, task.code, visit, Completions(s.mediate)) == Success(s.completion)
      && forall i :: 0 <= i < |visit| ==>
           var before := Splice(c, task.code, visit[..i], Completions(s.mediate)[..i]);
           && before.Success?
           && Asked(c, pair, task, if cfg.mode == Incremental then before.value else task.code, visit[i], s.mediate[i])
  {
    var todo := c.getTodo(task.code).value;
    var visit := Visit(c, cfg, pair, todo);
    var incremental := cfg.mode == Incremental;
    StepsSplice(c, pair, task, incremental, visit, task.code);
    forall i | 0 <= i < |visit|
      ensures var p := Steps(c, pair, task, incremental, visit, task.code).value;
        var before := Splice(c, task.code, visit[..i], Completions(p.mediate)[..i]);
        && before.Success?
        && Asked(c, pair, task, if incremental then before.value else task.code, visit[i], p.mediate[i])
    {
      StepsSource(c, pair, task, incremental, visit, task.code, i);
    }
  }

  /** Independent mode: every query sees the isolation from the original code only, so no
      generated body can influence another; the methods are visited in the locator's order. */
  lemma IndependentSample(c: Collaborators, cfg: Config, pair: nat, task: Task)
    requires cfg.mode == Independent
    requires GenerateSample(c, cfg, pair, task).Success?
    ensures c.getTodo(task.code).Success?
    ensures var s := GenerateSample(c, cfg, pair, task).value;
      var todo := c.getTodo(task.code).value;
      && s.PerMethod?
      && |s.mediate| == |todo|
      && Splice(c, task.code, todo, Completions(s.mediate)) == Success(s.completion)
      && forall i :: 0 <= i < |todo| ==> Asked(c, pair, task, task.code, todo[i], s.mediate[i])
  {
    PerMethodSample(c, cfg, pair, task);
  }

  /** Incremental mode: the methods are located once, on the original code, then visited
      in the policy's order; the `i`-th query sees the isolation from the result of the
      first `i` splices, so later methods see the earlier generated bodies. */
  lemma IncrementalSample(c: Collaborators, cfg: Config, pair: nat, task: Task)
    requires cfg.mode == Incremental
    requires GenerateSample(c, cfg, pair, task).Success?
    ensures c.getTodo(task.code).Success?
    ensures var s := GenerateSample(c, cfg, pair, task).value;
      var visit := Ordering.Order(c.getTodo(task.code).value, cfg.order, Draws(c, pair));
      && s.PerMethod?
      && multiset(visit) == multiset(c.getTodo(task.code).value)
      && |s.mediate| == |visit|
      && (forall i :: 0 <= i < |visit| ==> s.mediate[i].name == visit[i].name && s.mediate[i].seqNum == visit[i].seqNum)
      && forall i :: 0 <= i < |visit| ==>
           var before := Splice(c, task.code, visit[..i], Completions(s.mediate)[..i]);
           && before.Success?
           && Asked(c, pair, task, before.value, visit[i], s.mediate[i])
  {
    PerMethodSample(c, cfg, pair, task);
  }

  /** With collaborators that never raise, the per-method loop completes. */
  lemma {:induction false} StepsTotal(c: Collaborators, pair: nat, task: Task, incremental: bool,
                                      todo: seq<TodoMethod>, result: string)
    requires NeverRaise(c)
    ensures Steps(c, pair, task, incremental, todo, result).Success?
    decreases |todo|
  {
    if todo != [] {
      var step := Step(c, pair, task, incremental, todo[0], result).value;
      StepsTotal(c, pair, task, incremental, todo[1..], step.0);
    }
  }

  /** None of the collaborators raises. */
  ghost predicate NeverRaise(c: Collaborators)
  {
    && (forall code :: c.getTodo(code).Success?)
    && (forall code, name, n :: c.retain(code, name, n).Success?)
    && (forall code, body, name, n :: c.replace(code, body, name, n).Success?)
    && (forall outputs :: c.extract(outputs).Success?)
    && (forall pair, code, context :: c.query(pair, code, context).Success?)
  }

  /** Every pair yields a sample when no collaborator raises. */
  lemma GenerateSampleTotal(c: Collaborators, cfg: Config, pair: nat, task: Task)
    requires NeverRaise(c)
    ensures GenerateSample(c, cfg, pair, task).Success?
  {
    if cfg.mode != Holistic {
      var todo := c.getTodo(task.code).value;
      StepsTotal(c, pair, task, cfg.mode == Incremental, Visit(c, cfg, pair, todo), task.code);
    }
  }
}
