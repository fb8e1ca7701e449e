/** The queue of upcoming pipes of the pipe game (`game.PipeQueue`): a deque that is
    topped up with freshly generated pipes whenever it holds fewer than
    `MAX_GEN_LENGTH` of them, and into whose front an undone pipe is pushed back.

    The queue operations are stated on the sequence of pipes, front first; the class
    `PipeQueue` at the end is the Java object holding such a sequence. */
module Game {
  import opened Results

  /** `MAX_GEN_LENGTH`: the number of pipes the queue is topped up to. */
  const MaxGenLength: nat := 5

  /** A pipe. Pipe.java is not part of this model: a pipe is known here only by the
      index of its shape among `Pipe.Shape.values()`. */
  datatype Pipe = Pipe(shape: nat)

  /** `IllegalStateException` from `peek`, `NoSuchElementException` from `LinkedList.remove`. */
  datatype Error = IllegalState | NoSuchElement

  function Max(a: int, b: int): int
  {
    if a >= b then a else b
  }

  /** The invariant every constructed queue keeps: at least `MAX_GEN_LENGTH` pipes. */
  predicate Stocked(q: seq<Pipe>)
  {
    |q| >= MaxGenLength
  }

  /** `generateNewPipe`: a pipe whose shape is drawn at random among the `shapes` values of
      `Pipe.Shape` (`Random.nextInt(shapes)` demands `shapes > 0`). */
  method GenerateNewPipe(shapes: nat) returns (p: Pipe)
    requires shapes > 0
    ensures p.shape < shapes
  {
    var index: nat :| index < shapes;
    p := Pipe(index);
  }

  /** The top-up loop shared by both constructors and `consume`: generated pipes are
      added at the back until the queue holds `MAX_GEN_LENGTH` of them. */
  method Refill(q: seq<Pipe>, shapes: nat) returns (r: seq<Pipe>)
    requires shapes > 0
    ensures |r| == Max(|q|, MaxGenLength)
    ensures r[..|q|] == q
    ensures forall i :: |q| <= i < |r| ==> r[i].shape < shapes
  {
    r := q;
    while |r| < MaxGenLength
      invariant |q| <= |r| <= Max(|q|, MaxGenLength)
      invariant r[..|q|] == q
      invariant forall i :: |q| <= i < |r| ==> r[i].shape < shapes
    {
      var p := GenerateNewPipe(shapes);
      r := r + [p];
    }
  }

  /** `PipeQueue()`: a queue of exactly `MAX_GEN_LENGTH` generated pipes. */
  method NewPipes(shapes: nat) returns (q: seq<Pipe>)
    requires shapes > 0
    ensures |q| == MaxGenLength
    ensures Stocked(q)
    ensures forall i :: 0 <= i < |q| ==> q[i].shape < shapes
  {
    q := Refill([], shapes);
  }

  /** `PipeQueue(pipes)`: the given pipes (none when `pipes` is `null`) in order, followed by
      as many generated pipes as it takes to reach `MAX_GEN_LENGTH`. */
  method NewPipesFrom(pipes: Option<seq<Pipe>>, shapes: nat) returns (q: seq<Pipe>)
    requires shapes > 0
    ensures var given := if pipes.Some? then pipes.value else [];
      && |q| == Max(|given|, MaxGenLength)
      && q[..|given|] == given
    ensures pipes.Some? && |pipes.value| >= MaxGenLength ==> q == pipes.value
    ensures Stocked(q)
  {
    var given := if pipes.Some? then pipes.value else [];
    q := Refill(given, shapes);
  }

  /** `peek`: the front pipe; raises when the queue is empty. */
  function PeekPipe(q: seq<Pipe>): (r: Result<Pipe, Error>)
    ensures r.Success? <==> q != []
    ensures r.Success? ==> r.value == q[0]
    ensures r.Failure? ==> r.error == IllegalState
    ensures Stocked(q) ==> r.Success?
  {
    if q == [] then Failure(IllegalState) else Success(q[0])
  }

  /** `consume`: drops the front pipe (`LinkedList.remove` raises on an empty queue), then
      tops the queue up. The old tail stays, in order, at the front of the new queue. */
  method ConsumePipe(q: seq<Pipe>, shapes: nat) returns (r: Result<seq<Pipe>, Error>)
    requires shapes > 0
    ensures r.Failure? <==> q == []
    ensures r.Failure? ==> r.error == NoSuchElement
    ensures r.Success? ==> |r.value| == Max(|q| - 1, MaxGenLength) && r.value[..|q| - 1] == q[1..]
    ensures Stocked(q) ==> r.Success? && Stocked(r.value)
  {
    if q == [] {
      return Failure(NoSuchElement);
    }
    var rest := Refill(q[1..], shapes);
    r := Success(rest);
  }

  /** `undo(pipe)`: pushes `pipe` back to the front; it is what `peek` returns next, and
      the rest of the queue is left as it was. */
  function UndoPipe(q: seq<Pipe>, p: Pipe): (r: seq<Pipe>)
    ensures |r| == |q| + 1
    ensures PeekPipe(r) == Success(p)
    ensures r[1..] == q
  {
    [p] + q
  }

  /** On a stocked queue, `undo(p)` followed by `consume()` gives back the queue exactly:
      the pushed pipe is removed and no pipe needs to be generated. */
  method UndoThenConsume(q: seq<Pipe>, p: Pipe, shapes: nat) returns (r: Result<seq<Pipe>, Error>)
    requires Stocked(q) && shapes > 0
    ensures r == Success(q)
  {
    var pushed := UndoPipe(q, p);
    r := ConsumePipe(pushed, shapes);
    assert |r.value| == |q| && r.value[..|q|] == q;
    assert r.value == r.value[..|q|];
  }

  /** The header `display` prints before the queue. */
  const DisplayHeader: string := "Next Pipes:  "

  /** The line `display` prints (without its line break). `glyph` stands for
      `Pipe.toSingleChar`. */
  function Display(q: seq<Pipe>, glyph: Pipe -> char): (line: string)
    ensures |line| == |DisplayHeader| + 5 * |q|
    ensures line[..|DisplayHeader|] == DisplayHeader
  {
    DisplayHeader + Cells(q, glyph)
  }

  /** The cells of the displayed pipes, five characters each. */
  function Cells(q: seq<Pipe>, glyph: Pipe -> char): (cells: string)
    ensures |cells| == 5 * |q|
  {
    if q == [] then []
    else [glyph(q[0])] + "    " + Cells(q[1..], glyph)
  }

  /** The cell of the `i`-th pipe: its one-character form followed by four spaces. */
  lemma {:induction false} CellsAt(q: seq<Pipe>, glyph: Pipe -> char, i: nat)
    requires i < |q|
    ensures Cells(q, glyph)[5 * i .. 5 * i + 5] == [glyph(q[i])] + "    "
    decreases i
  {
    var rest := Cells(q[1..], glyph);
    assert Cells(q, glyph) == ([glyph(q[0])] + "    ") + rest;
    if i > 0 {
      CellsAt(q[1..], glyph, i - 1);
      assert Cells(q, glyph)[5 * i .. 5 * i + 5] == rest[5 * (i - 1) .. 5 * (i - 1) + 5];
    }
  }

  /** The displayed line is the header, then the pipes front first, each as its
      one-character form followed by four spaces. */
  lemma DisplayAt(q: seq<Pipe>, glyph: Pipe -> char, i: nat)
    requires i < |q|
    ensures var at := |DisplayHeader| + 5 * i;
      Display(q, glyph)[at .. at + 5] == [glyph(q[i])] + "    "
  {
    var at := |DisplayHeader| + 5 * i;
    CellsAt(q, glyph, i);
    assert Display(q, glyph)[at .. at + 5] == Cells(q, glyph)[5 * i .. 5 * i + 5];
  }

  /** The Java object: a queue of pipes that always holds at least `MAX_GEN_LENGTH`.
      `shapes` is the number of values of `Pipe.Shape`. */
  class PipeQueue {
    var pipes: seq<Pipe>
    const shapes: nat

    ghost predicate Valid()
      reads this
    {
      shapes > 0 && Stocked(pipes)
    }

    constructor (shapes: nat)
      requires shapes > 0
      ensures Valid() && |pipes| == MaxGenLength
    {
      this.shapes := shapes;
      var q := NewPipes(shapes);
      pipes := q;
    }

    constructor FromList(given: Option<seq<Pipe>>, shapes: nat)
      requires shapes > 0
      ensures Valid()
      ensures var g := if given.Some? then given.value else [];
        |pipes| == Max(|g|, MaxGenLength) && pipes[..|g|] == g
      ensures given.Some? && |given.value| >= MaxGenLength ==> pipes == given.value
    {
      this.shapes := shapes;
      var q := NewPipesFrom(given, shapes);
      pipes := q;
    }

    method Peek() returns (p: Pipe)
      requires Valid()
      ensures p == pipes[0]
    {
      var r := PeekPipe(pipes);
      p := r.value;
    }

    method Consume()
      requires Valid()
      modifies this
      ensures Valid()
      ensures |pipes| == Max(|old(pipes)| - 1, MaxGenLength)
      ensures pipes[..|old(pipes)| - 1] == old(pipes)[1..]
    {
      var r := ConsumePipe(pipes, shapes);
      pipes := r.value;
    }

    method Undo(p: Pipe)
      requires Valid()
      modifies this
      ensures Valid()
      ensures pipes == [p] + old(pipes)
    {
      pipes := UndoPipe(pipes, p);
    }
  }
}
