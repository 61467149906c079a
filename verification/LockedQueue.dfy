/** The older diagnostic script: its workers take a lock, call a blocking get while they hold
    it, and give the lock back only after task_done. The queue is filled before they start. */
module LockedQueue {
  import opened Wrappers

  /** A worker outside the lock, waiting in get, holding a node, done with the node but not
      yet past task_done, or past task_done and about to release the lock. */
  datatype Worker = Outside | InGet | Holding(node: string) | Handled | Leaving

  datatype Pool = Pool(queue: seq<string>, unfinished: int, workers: seq<Worker>, holder: Option<nat>,
                       log: seq<string>, joined: bool)

  datatype Move = Acquire(worker: nat) | Get(worker: nat) | Handle(worker: nat) | TaskDone(worker: nat)
                | Release(worker: nat) | Join

  function Start(nodes: seq<string>, workers: nat): Pool {
    Pool(nodes, |nodes|, seq(workers, _ => Outside), None, [], false)
  }

  predicate Enabled(p: Pool, m: Move) {
    match m
    case Acquire(w) => w < |p.workers| && p.workers[w].Outside? && p.holder.None?
    case Get(w) => w < |p.workers| && p.workers[w].InGet? && p.queue != []
    case Handle(w) => w < |p.workers| && p.workers[w].Holding?
    case TaskDone(w) => w < |p.workers| && p.workers[w].Handled?
    case Release(w) => w < |p.workers| && p.workers[w].Leaving?
    case Join => p.unfinished == 0 && !p.joined
  }

  function Next(p: Pool, m: Move): Pool
    requires Enabled(p, m)
  {
    match m
    case Acquire(w) => p.(workers := p.workers[w := InGet], holder := Some(w))
    case Get(w) => p.(queue := p.queue[1..], workers := p.workers[w := Holding(p.queue[0])])
    case Handle(w) => p.(log := p.log + [p.workers[w].node], workers := p.workers[w := Handled])
    case TaskDone(w) => p.(unfinished := p.unfinished - 1, workers := p.workers[w := Leaving])
    case Release(w) => p.(workers := p.workers[w := Outside], holder := None)
    case Join => p.(joined := true)
  }

  ghost predicate Reaches(p: Pool, moves: seq<Move>, q: Pool)
    decreases moves
  {
    if moves == [] then p == q else Enabled(p, moves[0]) && Reaches(Next(p, moves[0]), moves[1..], q)
  }

  // ---------------------------------------------------------------- one worker, in queue order

  /** What one thread without any lock would do: take the first node, handle it, repeat. */
  datatype Sequential = Sequential(log: seq<string>, current: Option<string>, rest: seq<string>)

  predicate SequentialStep(s: Sequential, t: Sequential) {
    match s.current
    case None => s.rest != [] && t == Sequential(s.log, Some(s.rest[0]), s.rest[1..])
    case Some(x) => t == Sequential(s.log + [x], None, s.rest)
  }

  /** Only the lock's holder is past acquire, and the counter is what is left to do. */
  predicate Exclusive(p: Pool) {
    && (p.holder.Some? ==> p.holder.value < |p.workers|)
    && (forall w :: 0 <= w < |p.workers| ==> (p.workers[w].Outside? <==> p.holder != Some(w)))
    && p.unfinished == |p.queue| + (if Active(p).Holding? || Active(p).Handled? then 1 else 0)
    && (p.joined ==> p.unfinished == 0)
  }

  /** The worker inside the lock. */
  function Active(p: Pool): Worker {
    if p.holder.Some? && p.holder.value < |p.workers| then p.workers[p.holder.value] else Outside
  }

  function AsSequential(p: Pool): Sequential {
    Sequential(p.log, if Active(p).Holding? then Some(Active(p).node) else None, p.queue)
  }

  /** The nodes of a sequential state, in the order they are handled. */
  function Order(s: Sequential): seq<string> {
    s.log + (if s.current.Some? then [s.current.value] else []) + s.rest
  }

  /** Every move of the locked workers is a step of the single thread or none at all. */
  lemma MoveRefinesSequential(p: Pool, m: Move)
    requires Exclusive(p) && Enabled(p, m)
    ensures Exclusive(Next(p, m))
    ensures if m.Get? || m.Handle? then SequentialStep(AsSequential(p), AsSequential(Next(p, m)))
            else AsSequential(Next(p, m)) == AsSequential(p)
  {
  }

  lemma StepKeepsOrder(s: Sequential, t: Sequential)
    requires SequentialStep(s, t)
    ensures Order(t) == Order(s)
  {
  }

  // ---------------------------------------------------------------- termination

  /** The number of moves left in the run. */
  function MovesLeft(p: Pool): nat {
    5 * |p.queue| + (if p.joined then 0 else 1)
    + match Active(p) case Outside => 1 case InGet => 0 case Holding(_) => 4 case Handled => 3 case Leaving => 2
  }

  lemma MoveCountsDown(p: Pool, m: Move)
    requires Exclusive(p) && Enabled(p, m)
    ensures MovesLeft(Next(p, m)) == MovesLeft(p) - 1
  {
  }

  /** Some move is possible exactly while moves are left. */
  lemma StuckIff(p: Pool)
    requires Exclusive(p) && p.workers != []
    ensures (forall m :: !Enabled(p, m)) <==> MovesLeft(p) == 0
  {
    if MovesLeft(p) == 0 {
      forall m
        ensures !Enabled(p, m)
      {
        if Enabled(p, m) {
          MoveCountsDown(p, m);
          assert false;
        }
      }
    } else {
      var w := if p.holder.Some? then p.holder.value else 0;
      match Active(p)
      case Outside => assert Enabled(p, Acquire(w));
      case InGet => assert if p.queue != [] then Enabled(p, Get(w)) else Enabled(p, Join);
      case Holding(_) => assert Enabled(p, Handle(w));
      case Handled => assert Enabled(p, TaskDone(w));
      case Leaving => assert Enabled(p, Release(w));
    }
  }

  lemma {:induction false} RunRefinesSequential(p: Pool, moves: seq<Move>, q: Pool)
    requires Exclusive(p) && Reaches(p, moves, q)
    ensures Exclusive(q) && |q.workers| == |p.workers|
    ensures Order(AsSequential(q)) == Order(AsSequential(p))
    ensures MovesLeft(q) + |moves| == MovesLeft(p)
    decreases moves
  {
    if moves != [] {
      var next := Next(p, moves[0]);
      MoveRefinesSequential(p, moves[0]);
      MoveCountsDown(p, moves[0]);
      if moves[0].Get? || moves[0].Handle? {
        StepKeepsOrder(AsSequential(p), AsSequential(next));
      }
      RunRefinesSequential(next, moves[1..], q);
    }
  }

  /** Under every interleaving at most one worker is active and the nodes are handled in
      queue order, each once; join returns only after the last; every run that can go no
      further took 5n + 2 moves and ends with join returned and the lock's holder still
      waiting in get. */
  lemma EveryRunIsSequential(nodes: seq<string>, workers: nat, moves: seq<Move>, q: Pool)
    requires workers > 0 && Reaches(Start(nodes, workers), moves, q)
    ensures |q.workers| == workers
    ensures forall i, j :: 0 <= i < j < workers ==> q.workers[i].Outside? || q.workers[j].Outside?
    ensures |q.log| <= |nodes| && q.log == nodes[..|q.log|]
    ensures q.joined ==> q.log == nodes
    ensures |moves| <= 5 * |nodes| + 2
    ensures (forall m :: !Enabled(q, m)) <==> |moves| == 5 * |nodes| + 2
    ensures |moves| == 5 * |nodes| + 2 ==> q.joined && q.log == nodes && Active(q).InGet?
  {
    var p := Start(nodes, workers);
    RunRefinesSequential(p, moves, q);
    assert Order(AsSequential(p)) == nodes;
    StuckIff(q);
  }

  /** join waits for the counter alone: it can return while the lock is held for ever. */
  lemma JoinNeedsNoLock(p: Pool)
    requires Exclusive(p) && !p.joined && p.queue == [] && Active(p).InGet?
    ensures Enabled(p, Join)
    ensures forall m :: Enabled(p, m) ==> m.Join?
  {
  }
}
