/** The diagnostic workers: threads that share one queue, put a node back while its log is
    not ready, and are awaited with join. Every interleaving is a sequence of moves. */
module DiagQueue {
  import opened Wrappers

  /** A worker waiting in get, holding a node, or between its last queue operation on the
      node (put back, or settled: copied or reported in error) and task_done. */
  datatype Worker = Idle | Holding(node: string) | PutBack(node: string) | Settled(node: string)

  /** `patience` bounds how many "still running" answers are yet to come, over all nodes. */
  datatype Pool = Pool(nodes: seq<string>, scheduled: nat, queue: seq<string>, unfinished: int, workers: seq<Worker>,
                       settled: multiset<string>, patience: nat, joined: bool)

  datatype Move = Schedule | Get(worker: nat) | StillRunning(worker: nat) | Settle(worker: nat)
                | TaskDone(worker: nat) | Join

  function Start(nodes: seq<string>, workers: nat, patience: nat): Pool {
    Pool(nodes, 0, [], 0, seq(workers, _ => Idle), multiset{}, patience, false)
  }

  predicate Enabled(p: Pool, m: Move) {
    match m
    case Schedule => p.scheduled < |p.nodes|
    case Get(w) => w < |p.workers| && p.workers[w].Idle? && p.queue != []
    case StillRunning(w) => w < |p.workers| && p.workers[w].Holding? && p.patience > 0
    case Settle(w) => w < |p.workers| && p.workers[w].Holding?
    case TaskDone(w) => w < |p.workers| && (p.workers[w].PutBack? || p.workers[w].Settled?)
    case Join => p.scheduled == |p.nodes| && p.unfinished == 0 && !p.joined
  }

  function Next(p: Pool, m: Move): Pool
    requires Enabled(p, m)
  {
    match m
    case Schedule => p.(scheduled := p.scheduled + 1, queue := p.queue + [p.nodes[p.scheduled]],
                        unfinished := p.unfinished + 1)
    case Get(w) => p.(queue := p.queue[1..], workers := p.workers[w := Holding(p.queue[0])])
    case StillRunning(w) =>
      var x := p.workers[w].node;
      p.(queue := p.queue + [x], unfinished := p.unfinished + 1, workers := p.workers[w := PutBack(x)],
         patience := p.patience - 1)
    case Settle(w) =>
      var x := p.workers[w].node;
      p.(workers := p.workers[w := Settled(x)], settled := p.settled + multiset{x})
    case TaskDone(w) => p.(unfinished := p.unfinished - 1, workers := p.workers[w := Idle])
    case Join => p.(joined := true)
  }

  /** `q` is reached from `p` by these moves. */
  ghost predicate Reaches(p: Pool, moves: seq<Move>, q: Pool)
    decreases moves
  {
    if moves == [] then p == q else Enabled(p, moves[0]) && Reaches(Next(p, moves[0]), moves[1..], q)
  }

  // ---------------------------------------------------------------- sums over the workers

  function Busy(ws: seq<Worker>): nat {
    if ws == [] then 0 else BusyOne(ws[0]) + Busy(ws[1..])
  }

  function BusyOne(w: Worker): nat {
    if w.Idle? then 0 else 1
  }

  /** How many workers hold node `x`. */
  function Held(ws: seq<Worker>, x: string): nat {
    if ws == [] then 0 else HeldBy(ws[0], x) + Held(ws[1..], x)
  }

  function HeldBy(w: Worker, x: string): nat {
    if w == Holding(x) then 1 else 0
  }

  /** Moves a worker can still make on its own before it waits in get again. */
  function Owed(w: Worker): nat {
    match w
    case Idle => 0
    case Holding(_) => 2
    case _ => 1
  }

  function AllOwed(ws: seq<Worker>): nat {
    if ws == [] then 0 else Owed(ws[0]) + AllOwed(ws[1..])
  }

  lemma {:induction false} BusyAfter(ws: seq<Worker>, i: nat, w: Worker)
    requires i < |ws|
    ensures Busy(ws[i := w]) + BusyOne(ws[i]) == Busy(ws) + BusyOne(w)
  {
    if i == 0 {
      assert ws[i := w][1..] == ws[1..];
    } else {
      BusyAfter(ws[1..], i - 1, w);
      assert ws[i := w][1..] == ws[1..][i - 1 := w];
    }
  }

  lemma {:induction false} HeldAfter(ws: seq<Worker>, i: nat, w: Worker, x: string)
    requires i < |ws|
    ensures Held(ws[i := w], x) + HeldBy(ws[i], x) == Held(ws, x) + HeldBy(w, x)
  {
    if i == 0 {
      assert ws[i := w][1..] == ws[1..];
    } else {
      HeldAfter(ws[1..], i - 1, w, x);
      assert ws[i := w][1..] == ws[1..][i - 1 := w];
    }
  }

  lemma {:induction false} OwedAfter(ws: seq<Worker>, i: nat, w: Worker)
    requires i < |ws|
    ensures AllOwed(ws[i := w]) + Owed(ws[i]) == AllOwed(ws) + Owed(w)
  {
    if i == 0 {
      assert ws[i := w][1..] == ws[1..];
    } else {
      OwedAfter(ws[1..], i - 1, w);
      assert ws[i := w][1..] == ws[1..][i - 1 := w];
    }
  }

  lemma {:induction false} IdlePool(ws: seq<Worker>, x: string)
    ensures Busy(ws) == 0 <==> forall i :: 0 <= i < |ws| ==> ws[i].Idle?
    ensures Held(ws, x) <= Busy(ws)
    ensures Busy(ws) == 0 ==> AllOwed(ws) == 0
  {
    if ws != [] {
      IdlePool(ws[1..], x);
      assert forall i :: 0 < i < |ws| ==> ws[i] == ws[1..][i - 1];
      assert forall i :: 0 <= i < |ws| - 1 ==> ws[1..][i] == ws[i + 1];
    }
  }

  // ---------------------------------------------------------------- what every interleaving keeps

  /** Node `x` was scheduled as often as it is queued, in a worker's hands, or settled. */
  ghost predicate AccountedFor(p: Pool, x: string)
    requires p.scheduled <= |p.nodes|
  {
    multiset(p.queue)[x] + Held(p.workers, x) + p.settled[x] == multiset(p.nodes[..p.scheduled])[x]
  }

  /** The queue's counter is what it should be, and no node is lost or duplicated. */
  ghost predicate Accounted(p: Pool) {
    && p.scheduled <= |p.nodes|
    && p.unfinished == |p.queue| + Busy(p.workers)
    && forall x :: AccountedFor(p, x)
  }

  lemma StartIsAccounted(nodes: seq<string>, workers: nat, patience: nat)
    ensures Accounted(Start(nodes, workers, patience))
    ensures Potential(Start(nodes, workers, patience)) == 4 * |nodes| + 3 * patience + 1
  {
    var p := Start(nodes, workers, patience);
    IdlePool(p.workers, "");
    forall x
      ensures AccountedFor(p, x)
    {
      IdlePool(p.workers, x);
    }
  }

  lemma RequeueKeepsNode(p: Pool, w: nat, x: string)
    requires p.scheduled <= |p.nodes| && Enabled(p, StillRunning(w)) && AccountedFor(p, x)
    ensures AccountedFor(Next(p, StillRunning(w)), x)
  {
    var q := Next(p, StillRunning(w));
    HeldAfter(p.workers, w, q.workers[w], x);
    assert multiset(q.queue) == multiset(p.queue) + multiset{p.workers[w].node};
  }

  lemma GetKeepsNode(p: Pool, w: nat, x: string)
    requires p.scheduled <= |p.nodes| && Enabled(p, Get(w)) && AccountedFor(p, x)
    ensures AccountedFor(Next(p, Get(w)), x)
  {
    var q := Next(p, Get(w));
    HeldAfter(p.workers, w, q.workers[w], x);
    assert p.queue == [p.queue[0]] + q.queue;
  }

  lemma SettleKeepsNode(p: Pool, w: nat, x: string)
    requires p.scheduled <= |p.nodes| && Enabled(p, Settle(w)) && AccountedFor(p, x)
    ensures AccountedFor(Next(p, Settle(w)), x)
  {
    HeldAfter(p.workers, w, Next(p, Settle(w)).workers[w], x);
  }

  lemma MoveKeepsNode(p: Pool, m: Move, x: string)
    requires p.scheduled <= |p.nodes| && Enabled(p, m) && AccountedFor(p, x)
    ensures AccountedFor(Next(p, m), x)
  {
    var q := Next(p, m);
    match m
    case Schedule =>
      assert p.nodes[..q.scheduled] == p.nodes[..p.scheduled] + [p.nodes[p.scheduled]];
    case Get(w) => GetKeepsNode(p, w, x);
    case StillRunning(w) => RequeueKeepsNode(p, w, x);
    case Settle(w) => SettleKeepsNode(p, w, x);
    case TaskDone(w) => HeldAfter(p.workers, w, q.workers[w], x);
    case Join =>
  }

  lemma MoveKeepsAccount(p: Pool, m: Move)
    requires Accounted(p) && Enabled(p, m)
    ensures Accounted(Next(p, m))
  {
    if m.Get? || m.StillRunning? || m.Settle? || m.TaskDone? {
      BusyAfter(p.workers, m.worker, Next(p, m).workers[m.worker]);
    }
    forall x
      ensures AccountedFor(Next(p, m), x)
    {
      assert AccountedFor(p, x);
      MoveKeepsNode(p, m, x);
    }
  }

  lemma {:induction false} RunKeepsAccount(p: Pool, moves: seq<Move>, q: Pool)
    requires Accounted(p) && Reaches(p, moves, q)
    ensures Accounted(q) && q.nodes == p.nodes && |q.workers| == |p.workers|
    ensures Potential(q) == Potential(p) - |moves|
    decreases moves
  {
    if moves != [] {
      MoveKeepsAccount(p, moves[0]);
      MoveCostsOne(p, moves[0]);
      RunKeepsAccount(Next(p, moves[0]), moves[1..], q);
    }
  }

  /** The counter is zero only when every node scheduled so far is settled, so join cannot
      return early; and it is positive whenever a worker is about to call task_done. */
  lemma ZeroMeansSettled(p: Pool)
    requires Accounted(p)
    ensures p.unfinished == 0 ==> p.settled == multiset(p.nodes[..p.scheduled]) && p.queue == []
    ensures forall w :: 0 <= w < |p.workers| && !p.workers[w].Idle? ==> p.unfinished > 0
  {
    IdlePool(p.workers, "");
    if p.unfinished == 0 {
      forall x
        ensures p.settled[x] == multiset(p.nodes[..p.scheduled])[x]
      {
        assert AccountedFor(p, x);
        IdlePool(p.workers, x);
      }
    }
  }

  lemma {:induction false} HeldByAnother(ws: seq<Worker>, i: nat, j: nat, x: string)
    requires i < j < |ws| && ws[i] == Holding(x) && ws[j] == Holding(x)
    ensures Held(ws, x) >= 2
  {
    if i > 0 {
      HeldByAnother(ws[1..], i - 1, j - 1, x);
    } else {
      HeldOnce(ws[1..], j - 1, x);
    }
  }

  lemma {:induction false} HeldOnce(ws: seq<Worker>, j: nat, x: string)
    requires j < |ws| && ws[j] == Holding(x)
    ensures Held(ws, x) >= 1
  {
    if j > 0 {
      HeldOnce(ws[1..], j - 1, x);
    }
  }

  lemma {:induction false} DistinctCounts(nodes: seq<string>, x: string)
    requires Distinct(nodes)
    ensures multiset(nodes)[x] <= 1
  {
    if nodes != [] {
      DistinctCounts(nodes[1..], x);
      assert nodes == [nodes[0]] + nodes[1..];
      assert forall k :: 0 <= k < |nodes| - 1 ==> nodes[1..][k] == nodes[k + 1];
      assert nodes[0] !in nodes[1..];
    }
  }

  /** With a duplicate-free node list, a node in a worker's hands is neither queued nor
      settled, and held once. */
  lemma HeldNodeIsAway(p: Pool, i: nat)
    requires Accounted(p) && Distinct(p.nodes) && i < |p.workers| && p.workers[i].Holding?
    ensures p.workers[i].node !in p.queue && p.workers[i].node !in p.settled
    ensures Held(p.workers, p.workers[i].node) == 1
  {
    var x := p.workers[i].node;
    DistinctCounts(p.nodes[..p.scheduled], x);
    HeldOnce(p.workers, i, x);
    assert AccountedFor(p, x);
    assert multiset(p.queue)[x] == 0 && p.settled[x] == 0;
  }

  /** And no two workers process one node at once. */
  lemma OneWorkerPerNode(p: Pool, i: nat, j: nat)
    requires Accounted(p) && Distinct(p.nodes)
    requires i < |p.workers| && p.workers[i].Holding? && j < |p.workers| && p.workers[j].Holding? && i != j
    ensures p.workers[i].node != p.workers[j].node
  {
    var x := p.workers[i].node;
    HeldNodeIsAway(p, i);
    if p.workers[j] == Holding(x) {
      HeldByAnother(p.workers, if i < j then i else j, if i < j then j else i, x);
    }
  }

  // ---------------------------------------------------------------- termination

  /** An upper bound on the moves left. */
  function Potential(p: Pool): int {
    4 * (|p.nodes| - p.scheduled) + 3 * |p.queue| + AllOwed(p.workers) + 3 * p.patience + (if p.joined then 0 else 1)
  }

  lemma MoveCostsOne(p: Pool, m: Move)
    requires Enabled(p, m)
    ensures Potential(Next(p, m)) == Potential(p) - 1
  {
    if m.Get? || m.StillRunning? || m.Settle? || m.TaskDone? {
      OwedAfter(p.workers, m.worker, Next(p, m).workers[m.worker]);
    }
  }

  /** Until join has returned, something can happen that is not another "still running". */
  lemma SomethingEnabled(p: Pool) returns (m: Move)
    requires Accounted(p) && p.workers != [] && !p.joined
    ensures Enabled(p, m) && !m.StillRunning?
  {
    if p.scheduled < |p.nodes| {
      m := Schedule;
    } else if i: nat :| i < |p.workers| && p.workers[i].Holding? {
      m := Settle(i);
    } else if i: nat :| i < |p.workers| && !p.workers[i].Idle? {
      m := TaskDone(i);
    } else if p.queue != [] {
      m := Get(0);
    } else {
      IdlePool(p.workers, "");
      m := Join;
    }
  }

  /** Under every interleaving: the run is finite, when it can go no further join has
      returned, and whenever join has returned every node has been settled exactly once. */
  lemma EveryRunCompletes(nodes: seq<string>, workers: nat, patience: nat, moves: seq<Move>, q: Pool)
    requires workers > 0 && Reaches(Start(nodes, workers, patience), moves, q)
    ensures |moves| <= 4 * |nodes| + 3 * patience + 1
    ensures (forall m :: !Enabled(q, m)) ==> q.joined
    ensures q.joined ==> q.settled == multiset(nodes)
  {
    StartIsAccounted(nodes, workers, patience);
    RunKeepsAccount(Start(nodes, workers, patience), moves, q);
    RunKeepsJoin(Start(nodes, workers, patience), moves, q);
    PotentialIsPositive(q);
    if !q.joined {
      var m := SomethingEnabled(q);
    } else {
      ZeroMeansSettled(q);
      assert nodes[..|nodes|] == nodes;
    }
  }

  lemma PotentialIsPositive(p: Pool)
    requires Accounted(p)
    ensures Potential(p) >= 0
  {
  }

  /** join returned with everything scheduled and the counter at zero, and so it stays. */
  ghost predicate JoinHolds(p: Pool) {
    p.joined ==> p.scheduled == |p.nodes| && p.unfinished == 0
  }

  lemma {:induction false} RunKeepsJoin(p: Pool, moves: seq<Move>, q: Pool)
    requires Accounted(p) && JoinHolds(p) && Reaches(p, moves, q)
    ensures JoinHolds(q)
    decreases moves
  {
    if moves != [] {
      MoveKeepsAccount(p, moves[0]);
      ZeroMeansSettled(p);
      RunKeepsJoin(Next(p, moves[0]), moves[1..], q);
    }
  }

  predicate Holds(p: Pool, i: int) {
    0 <= i < |p.workers| && p.workers[i].Holding?
  }

  /** From the start and under every interleaving: what is scheduled from a duplicate-free
      list is never in two workers' hands, nor in one's while queued or settled. */
  lemma EveryRunSeparatesWorkers(nodes: seq<string>, workers: nat, patience: nat, moves: seq<Move>, q: Pool)
    requires Distinct(nodes) && Reaches(Start(nodes, workers, patience), moves, q)
    ensures forall i, j :: Holds(q, i) && Holds(q, j) && i != j ==> q.workers[i].node != q.workers[j].node
    ensures forall i :: Holds(q, i) ==> q.workers[i].node !in q.queue && q.workers[i].node !in q.settled
  {
    StartIsAccounted(nodes, workers, patience);
    RunKeepsAccount(Start(nodes, workers, patience), moves, q);
    forall i | Holds(q, i)
      ensures q.workers[i].node !in q.queue && q.workers[i].node !in q.settled
    {
      HeldNodeIsAway(q, i);
    }
    forall i, j | Holds(q, i) && Holds(q, j) && i != j
      ensures q.workers[i].node != q.workers[j].node
    {
      OneWorkerPerNode(q, i, j);
    }
  }

  // ---------------------------------------------------------------- the order of the queue

  /** What a move puts into the queue: the next node of the list, or the one in hand. */
  function PutBy(p: Pool, m: Move): seq<string>
    requires Enabled(p, m)
  {
    match m
    case Schedule => [p.nodes[p.scheduled]]
    case StillRunning(w) => [p.workers[w].node]
    case _ => []
  }

  /** What a worker holds after a get. */
  function GotBy(p: Pool, m: Move): seq<string>
    requires Enabled(p, m)
  {
    if m.Get? && Next(p, m).workers[m.worker].Holding? then [Next(p, m).workers[m.worker].node] else []
  }

  ghost function Puts(p: Pool, moves: seq<Move>, q: Pool): seq<string>
    requires Reaches(p, moves, q)
    decreases moves
  {
    if moves == [] then [] else PutBy(p, moves[0]) + Puts(Next(p, moves[0]), moves[1..], q)
  }

  ghost function Gets(p: Pool, moves: seq<Move>, q: Pool): seq<string>
    requires Reaches(p, moves, q)
    decreases moves
  {
    if moves == [] then [] else GotBy(p, moves[0]) + Gets(Next(p, moves[0]), moves[1..], q)
  }

  lemma MoveKeepsOrder(p: Pool, m: Move)
    requires Enabled(p, m)
    ensures p.queue + PutBy(p, m) == GotBy(p, m) + Next(p, m).queue
  {
  }

  lemma Threaded(before: seq<string>, put: seq<string>, puts: seq<string>, got: seq<string>, between: seq<string>,
                 gets: seq<string>, after: seq<string>)
    requires before + put == got + between && between + puts == gets + after
    ensures before + (put + puts) == (got + gets) + after
  {
    calc {
      before + (put + puts);
      (before + put) + puts;
      got + (between + puts);
      (got + gets) + after;
    }
  }

  /** First in, first out, over every interleaving: what the workers got, followed by what is
      still queued, is what was put, in the order it was put. */
  lemma {:induction false} FirstInFirstOut(p: Pool, moves: seq<Move>, q: Pool)
    requires Reaches(p, moves, q)
    ensures p.queue + Puts(p, moves, q) == Gets(p, moves, q) + q.queue
    decreases moves
  {
    if moves != [] {
      var next := Next(p, moves[0]);
      MoveKeepsOrder(p, moves[0]);
      FirstInFirstOut(next, moves[1..], q);
      Threaded(p.queue, PutBy(p, moves[0]), Puts(next, moves[1..], q), GotBy(p, moves[0]), next.queue,
        Gets(next, moves[1..], q), q.queue);
    }
  }

  // ---------------------------------------------------------------- node lists and thread counts

  /** The list the tool schedules: first occurrences, in order. */
  method RemoveDuplicate(duplicate: seq<string>) returns (final: seq<string>)
    ensures Distinct(final)
    ensures forall x :: x in final <==> x in duplicate
    ensures FirstOccurrences(duplicate, final)
  {
    final := [];
    ghost var at: seq<int> := [];
    for i := 0 to |duplicate|
      invariant Distinct(final)
      invariant forall x :: x in final <==> x in duplicate[..i]
      invariant |at| == |final| && forall k :: 0 <= k < |at| ==> 0 <= at[k] < i
      invariant IsFirst(duplicate, final, at)
    {
      var node := duplicate[i];
      assert duplicate[..i + 1] == duplicate[..i] + [node];
      if node !in final {
        final := final + [node];
        at := at + [i];
      }
    }
    assert duplicate[..|duplicate|] == duplicate;
  }

  ghost predicate IsFirst(all: seq<string>, picked: seq<string>, at: seq<int>)
    requires |at| == |picked|
  {
    && (forall k :: 0 <= k < |at| ==> 0 <= at[k] < |all| && all[at[k]] == picked[k] && picked[k] !in all[..at[k]])
    && (forall k, l :: 0 <= k < l < |at| ==> at[k] < at[l])
  }

  ghost predicate FirstOccurrences(all: seq<string>, picked: seq<string>) {
    exists at: seq<int> :: |at| == |picked| && IsFirst(all, picked, at)
  }

  /** The number of health-check threads: a third of the mounts rounded up, five at most. */
  method HealthCheckWorkers(mounts: nat) returns (workers: nat)
    ensures workers == (if mounts > 15 then 5 else (mounts + 2) / 3)
    ensures mounts >= 1 ==> 1 <= workers <= 5
  {
    var thirds := mounts as real / 3.0;
    var threadCount := if thirds.Floor as real == thirds then thirds.Floor else thirds.Floor + 1;
    assert threadCount == (mounts + 2) / 3;
    if threadCount > 5 {
      workers := 5;
    } else {
      workers := threadCount;
    }
  }

  /** The health check never puts a mount back, so each mount is checked exactly once. */
  lemma EachMountCheckedOnce(mounts: seq<string>, workers: nat, moves: seq<Move>, q: Pool)
    requires workers > 0 && Reaches(Start(mounts, workers, 0), moves, q)
    ensures |moves| <= 4 * |mounts| + 1
    ensures (forall m :: !Enabled(q, m)) ==> q.joined && q.settled == multiset(mounts)
    ensures forall i :: 0 <= i < |moves| ==> !moves[i].StillRunning?
  {
    EveryRunCompletes(mounts, workers, 0, moves, q);
    NoPatienceNoRequeue(Start(mounts, workers, 0), moves, q);
  }

  lemma {:induction false} NoPatienceNoRequeue(p: Pool, moves: seq<Move>, q: Pool)
    requires p.patience == 0 && Reaches(p, moves, q)
    ensures forall i :: 0 <= i < |moves| ==> !moves[i].StillRunning?
    decreases moves
  {
    if moves != [] {
      NoPatienceNoRequeue(Next(p, moves[0]), moves[1..], q);
      assert forall i :: 0 < i < |moves| ==> moves[i] == moves[1..][i - 1];
    }
  }
}
