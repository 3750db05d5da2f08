/**
 When batches are posted in the order in which they were taken: in every run of a deployment exactly
 when the deployment is orderly.
 */
module PostOrder {
  import opened Common
  import opened OtlpState
  import opened OtlpBatcher
  import opened Deployments
  import Shutdown

  /** The takes that are posted to the logs endpoint at all. */
  function Nonempty(ts: seq<Taken>): seq<Taken> {
    if ts == [] then []
    else Nonempty(ts[..|ts| - 1]) + if ts[|ts| - 1].logs == [] then [] else [ts[|ts| - 1]]
  }

  lemma NonemptySnoc(ts: seq<Taken>, t: Taken)
    ensures Nonempty(ts + [t]) == Nonempty(ts) + if t.logs == [] then [] else [t]
  {
    assert (ts + [t])[..|ts|] == ts;
  }

  ghost predicate RunInOrder(d: Deployment, steps: seq<Step>) {
    AllAllowed(d, steps) && Run(Start(d.clients), steps, d.batchSize).Some? ==>
      var s := Run(Start(d.clients), steps, d.batchSize).value;
      s.posted <= Nonempty(s.taken)
  }

  /** In every run, what was posted is what was taken, in that order, as far as it got. */
  ghost predicate InPostOrder(d: Deployment) {
    forall steps :: RunInOrder(d, steps)
  }

  /**
   One emitter; and unless every record is a batch of its own, no timer, no flush, and no shutdown but
   the emitter's own.
   */
  predicate Orderly(d: Deployment) {
    && (forall a, b :: a in d.emitters && b in d.emitters ==> a == b)
    && (d.emitters == {} || d.batchSize <= 1 || (!d.timer && d.flushers == {} && d.closers <= d.emitters))
  }

  // ----- Batches on their way, oldest first

  function QueueBatches(q: seq<Job>): seq<Taken> {
    if q == [] then []
    else QueueBatches(q[..|q| - 1]) + if q[|q| - 1].PostJob? then [q[|q| - 1].batch] else []
  }

  function WorkerBatch(k: Worker): seq<Taken> {
    if k.Posting? then [k.batch] else []
  }

  function ClientBatch(c: Client): seq<Taken> {
    match c
    case HandingOff(b) => [b]
    case Flushing(t, _) => if t.logs == [] then [] else [t]
    case _ => []
  }

  function MyBatch(s: State, c: nat): seq<Taken> {
    if c < |s.clients| then ClientBatch(s.clients[c]) else []
  }

  predicate Lined(s: State, c: nat) {
    Nonempty(s.taken) == s.posted + WorkerBatch(s.worker) + QueueBatches(s.queue) + MyBatch(s, c)
  }

  lemma QueueBatchesSnoc(q: seq<Job>, j: Job)
    ensures QueueBatches(q + [j]) == QueueBatches(q) + if j.PostJob? then [j.batch] else []
  {
    assert (q + [j])[..|q|] == q;
  }

  lemma {:induction false} QueueBatchesHead(q: seq<Job>)
    requires q != []
    ensures QueueBatches(q) == (if q[0].PostJob? then [q[0].batch] else []) + QueueBatches(q[1..])
  {
    if |q| == 1 {
      assert q[..0] == [] && q[1..] == [];
    } else {
      assert q[..|q| - 1][1..] == q[1..][..|q[1..]| - 1];
      QueueBatchesHead(q[..|q| - 1]);
    }
  }

  /** Nothing moved. */
  lemma LinedSame(s: State, t: State, c: nat)
    requires Lined(s, c) && Nonempty(t.taken) == Nonempty(s.taken) && t.posted == s.posted
    requires WorkerBatch(t.worker) == WorkerBatch(s.worker) && QueueBatches(t.queue) == QueueBatches(s.queue)
    requires MyBatch(t, c) == MyBatch(s, c)
    ensures Lined(t, c)
  {
    hide Nonempty, WorkerBatch, QueueBatches, MyBatch;
  }

  /** A batch was taken by the emitter. */
  lemma LinedTaken(s: State, t: State, c: nat, more: seq<Taken>)
    requires Lined(s, c) && Nonempty(t.taken) == Nonempty(s.taken) + more && t.posted == s.posted
    requires WorkerBatch(t.worker) == WorkerBatch(s.worker) && QueueBatches(t.queue) == QueueBatches(s.queue)
    requires MyBatch(s, c) == [] && MyBatch(t, c) == more
    ensures Lined(t, c)
  {
    hide Nonempty, WorkerBatch, QueueBatches, MyBatch;
  }

  /** The batch of the emitter was queued. */
  lemma LinedQueued(s: State, t: State, c: nat)
    requires Lined(s, c) && t.taken == s.taken && t.posted == s.posted && t.worker == s.worker
    requires QueueBatches(t.queue) == QueueBatches(s.queue) + MyBatch(s, c) && MyBatch(t, c) == []
    ensures Lined(t, c)
  {
    hide Nonempty, WorkerBatch, QueueBatches, MyBatch;
  }

  /** The first job of the queue went to the worker. */
  lemma LinedFetched(s: State, t: State, c: nat)
    requires Lined(s, c) && t.taken == s.taken && t.posted == s.posted && WorkerBatch(s.worker) == []
    requires QueueBatches(s.queue) == WorkerBatch(t.worker) + QueueBatches(t.queue) && MyBatch(t, c) == MyBatch(s, c)
    ensures Lined(t, c)
  {
    hide Nonempty, WorkerBatch, QueueBatches, MyBatch;
  }

  /** The worker posted. */
  lemma LinedPosted(s: State, t: State, c: nat)
    requires Lined(s, c) && t.taken == s.taken && t.posted == s.posted + WorkerBatch(s.worker) && WorkerBatch(t.worker) == []
    requires t.queue == s.queue && MyBatch(t, c) == MyBatch(s, c)
    ensures Lined(t, c)
  {
    hide Nonempty, WorkerBatch, QueueBatches, MyBatch;
  }

  /** The emitter posted by itself, with nothing on its way before it. */
  lemma LinedOwnPost(s: State, t: State, c: nat)
    requires Lined(s, c) && t.taken == s.taken && t.posted == s.posted + MyBatch(s, c) && MyBatch(t, c) == []
    requires t.queue == s.queue == [] && t.worker == s.worker == Resting
    ensures Lined(t, c)
  {
    hide Nonempty, MyBatch;
  }

  lemma LinedQueueStep(s: State, step: Step, c: nat)
    requires Lined(s, c) && IsQueueStep(step) && QueueStep(s, step).Some?
    requires step.WorkerPost? ==> s.worker.batch.logs != []
    requires step.WorkerTake? ==> s.shared.batch == []
    requires step.WorkerLogs? ==> s.worker.taken.logs == []
    ensures Lined(QueueStep(s, step).value, c)
  {
    hide Lined, QueueBatches, Nonempty;
    var t := QueueStep(s, step).value;
    match step
    case TimerFire =>
      QueueBatchesSnoc(s.queue, TimerJob);
      LinedSame(s, t, c);
    case WorkerNext =>
      QueueBatchesHead(s.queue);
      LinedFetched(s, t, c);
    case WorkerPost =>
      LinedPosted(s, t, c);
    case WorkerTake =>
      NonemptySnoc(s.taken, TakeAll(s.shared).1);
      LinedSame(s, t, c);
    case _ =>
      LinedSame(s, t, c);
  }

  /** Only the emitter's steps move batches, and it posts by itself only when nothing is on its way. */
  lemma LinedClientStep(s: State, step: Step, batchSize: int, c: nat)
    requires Lined(s, c) && !IsQueueStep(step) && ClientStep(s, step, batchSize).Some?
    requires step.EmitRecord? || step.HandOff? ==> step.c == c
    requires step.FlushTake? || step.LastTake? ==> step.c == c || s.shared.batch == []
    requires step.PostLogs? ==> s.clients[step.c].taken.logs == [] || (step.c == c && s.queue == [] && s.worker.Resting?)
    ensures Lined(ClientStep(s, step, batchSize).value, c)
  {
    hide Lined, QueueBatches, Nonempty, WorkerBatch;
    var t := ClientStep(s, step, batchSize).value;
    match step
    case EmitRecord(_, r) =>
      LinedEmit(s, r, batchSize, c);
    case HandOff(_) =>
      QueueBatchesSnoc(s.queue, PostJob(s.clients[c].batch));
      LinedQueued(s, t, c);
    case FlushTake(_) =>
      LinedTake(s, step.c, t, c);
    case LastTake(_) =>
      LinedTake(s, step.c, t, c);
    case Sync(_) =>
      QueueBatchesSnoc(s.queue, Barrier(step.c));
      LinedSame(s, t, c);
    case PostLogs(_) =>
      if s.clients[step.c].taken.logs == [] {
        LinedSame(s, t, c);
      } else {
        LinedOwnPost(s, t, c);
      }
    case _ =>
      LinedSame(s, t, c);
  }

  lemma LinedEmit(s: State, r: Rec, batchSize: int, c: nat)
    requires Lined(s, c) && At(s, c, Idle)
    ensures Lined(ClientStep(s, EmitRecord(c, r), batchSize).value, c)
  {
    hide Lined, QueueBatches, Nonempty, WorkerBatch;
    var t := ClientStep(s, EmitRecord(c, r), batchSize).value;
    var full := Taken(s.shared.batch + [r], s.shared.drops, []);
    NonemptySnoc(s.taken, full);
    if t.taken == s.taken {
      LinedSame(s, t, c);
    } else {
      LinedTaken(s, t, c, [full]);
    }
  }

  lemma LinedTake(s: State, who: nat, t: State, c: nat)
    requires Lined(s, c) && who < |s.clients| && ClientBatch(s.clients[who]) == [] && (who == c || s.shared.batch == [])
    requires exists last :: t == Go(AfterTake(s), who, Flushing(TakeAll(s.shared).1, last))
    ensures Lined(t, c)
  {
    hide Lined, QueueBatches, Nonempty, WorkerBatch;
    var took := TakeAll(s.shared).1;
    NonemptySnoc(s.taken, took);
    if took.logs == [] {
      LinedSame(s, t, c);
    } else {
      LinedTaken(s, t, c, [took]);
    }
  }

  predicate GoodJob(j: Job) {
    j.PostJob? ==> j.batch.logs != []
  }

  // ----- Batches of one record, or none: every other take is empty

  predicate SingleClient(pc: Client, mine: bool) {
    match pc
    case HandingOff(b) => mine && b.logs != []
    case Flushing(t, _) => t.logs == []
    case _ => true
  }

  predicate Single(s: State, c: nat) {
    && s.shared.batch == []
    && (forall i :: 0 <= i < |s.clients| ==> SingleClient(s.clients[i], i == c))
    && (forall i :: 0 <= i < |s.queue| ==> GoodJob(s.queue[i]))
    && (s.worker.Posting? ==> s.worker.batch.logs != []) && (s.worker.TimerLogs? ==> s.worker.taken.logs == [])
  }

  lemma SingleStep(s: State, step: Step, batchSize: int, c: nat)
    requires Single(s, c) && Lined(s, c) && Next(s, step, batchSize).Some?
    requires step.EmitRecord? ==> step.c == c && batchSize <= 1
    ensures Single(Next(s, step, batchSize).value, c) && Lined(Next(s, step, batchSize).value, c)
  {
    hide QueueStep, ClientStep, Lined;
    if IsQueueStep(step) {
      SingleQueueStep(s, step, c);
    } else {
      SingleClientStep(s, step, batchSize, c);
    }
  }

  lemma SingleQueueStep(s: State, step: Step, c: nat)
    requires Single(s, c) && Lined(s, c) && IsQueueStep(step) && QueueStep(s, step).Some?
    ensures Single(QueueStep(s, step).value, c) && Lined(QueueStep(s, step).value, c)
  {
    hide Lined;
    LinedQueueStep(s, step, c);
    if step.WorkerNext? {
      assert GoodJob(s.queue[0]);
      var t := QueueStep(s, step).value;
      assert forall i :: 0 <= i < |t.queue| ==> t.queue[i] == s.queue[i + 1];
    }
  }

  lemma SingleClientStep(s: State, step: Step, batchSize: int, c: nat)
    requires Single(s, c) && Lined(s, c) && !IsQueueStep(step) && ClientStep(s, step, batchSize).Some?
    requires step.EmitRecord? ==> step.c == c && batchSize <= 1
    ensures Single(ClientStep(s, step, batchSize).value, c) && Lined(ClientStep(s, step, batchSize).value, c)
  {
    hide Lined, Append, Single;
    SingleMayStep(s, step, batchSize, c);
    LinedClientStep(s, step, batchSize, c);
    if step.EmitRecord? {
      SingleEmit(s, step.r, batchSize, c);
    } else {
      SingleStays(s, step, batchSize, c);
    }
  }

  lemma SingleMayStep(s: State, step: Step, batchSize: int, c: nat)
    requires Single(s, c) && !IsQueueStep(step) && ClientStep(s, step, batchSize).Some?
    ensures s.shared.batch == [] && step.c < |s.clients| && SingleClient(s.clients[step.c], step.c == c)
    ensures step.HandOff? ==> step.c == c
    ensures step.PostLogs? ==> s.clients[step.c].taken.logs == []
  {
    hide Append, TakeAll, AfterTake, Post, PostM;
    assert step.c < |s.clients|;
    assert SingleClient(s.clients[step.c], step.c == c);
  }

  lemma SingleChange(s: State, t: State, c: nat, who: nat)
    requires Single(s, c) && t.shared.batch == [] && t.worker == s.worker
    requires who < |s.clients| == |t.clients| && t.clients == s.clients[who := t.clients[who]]
    requires SingleClient(t.clients[who], who == c)
    requires t.queue == s.queue || exists j :: t.queue == s.queue + [j] && GoodJob(j)
    ensures Single(t, c)
  {
  }

  lemma SingleStays(s: State, step: Step, batchSize: int, c: nat)
    requires Single(s, c) && !IsQueueStep(step) && !step.EmitRecord? && ClientStep(s, step, batchSize).Some?
    ensures Single(ClientStep(s, step, batchSize).value, c)
  {
    hide Single;
    SingleMayStep(s, step, batchSize, c);
    var t := ClientStep(s, step, batchSize).value;
    assert t.clients == s.clients[step.c := t.clients[step.c]];
    if step.HandOff? {
      assert GoodJob(PostJob(s.clients[c].batch));
    } else if step.Sync? {
      assert GoodJob(Barrier(step.c));
    }
    SingleChange(s, t, c, step.c);
  }

  lemma SingleEmit(s: State, r: Rec, batchSize: int, c: nat)
    requires Single(s, c) && At(s, c, Idle) && batchSize <= 1
    ensures Single(ClientStep(s, EmitRecord(c, r), batchSize).value, c)
  {
  }

  // ----- One emitter with larger batches, no timer, and no flush but its own closing one

  predicate NoBarrier(q: seq<Job>) {
    forall i :: 0 <= i < |q| ==> !q[i].Barrier?
  }

  predicate OnlyBarrierIsLast(q: seq<Job>, c: nat) {
    q != [] && q[|q| - 1] == Barrier(c) && forall i :: 0 <= i < |q| - 1 ==> !q[i].Barrier?
  }

  predicate CloserClient(s: State, pc: Client, c: nat) {
    match pc
    case Idle => NoBarrier(s.queue)
    case HandingOff(b) => b.logs != [] && NoBarrier(s.queue)
    case Cancelled => NoBarrier(s.queue)
    case Waiting => OnlyBarrierIsLast(s.queue, c)
    case _ => s.queue == [] && s.worker.Resting?
  }

  predicate Closing(s: State, c: nat) {
    && c < |s.clients| && CloserClient(s, s.clients[c], c)
    && (forall i :: 0 <= i < |s.clients| && i != c ==> s.clients[i].Idle?)
    && (forall i :: 0 <= i < |s.queue| ==> !s.queue[i].TimerJob? && GoodJob(s.queue[i]))
    && (s.worker.Resting? || (s.worker.Posting? && s.worker.batch.logs != []))
  }

  lemma ClosingStep(s: State, step: Step, batchSize: int, c: nat)
    requires Closing(s, c) && Lined(s, c) && Next(s, step, batchSize).Some?
    requires !step.FlushTake? && !step.TimerFire? && (step.EmitRecord? || step.Cancel? ==> step.c == c)
    ensures Closing(Next(s, step, batchSize).value, c) && Lined(Next(s, step, batchSize).value, c)
  {
    hide QueueStep, ClientStep, Lined;
    if IsQueueStep(step) {
      ClosingQueueStep(s, step, c);
    } else {
      ClosingClientStep(s, step, batchSize, c);
    }
  }

  lemma ClosingQueueStep(s: State, step: Step, c: nat)
    requires Closing(s, c) && Lined(s, c) && IsQueueStep(step) && !step.TimerFire? && QueueStep(s, step).Some?
    ensures Closing(QueueStep(s, step).value, c) && Lined(QueueStep(s, step).value, c)
  {
    hide Lined;
    LinedQueueStep(s, step, c);
    if step.WorkerNext? {
      assert GoodJob(s.queue[0]);
      var t := QueueStep(s, step).value;
      assert forall i :: 0 <= i < |t.queue| ==> t.queue[i] == s.queue[i + 1];
    }
  }

  lemma ClosingClientStep(s: State, step: Step, batchSize: int, c: nat)
    requires Closing(s, c) && Lined(s, c) && !IsQueueStep(step) && ClientStep(s, step, batchSize).Some?
    requires !step.FlushTake? && (step.EmitRecord? || step.Cancel? ==> step.c == c)
    ensures Closing(ClientStep(s, step, batchSize).value, c) && Lined(ClientStep(s, step, batchSize).value, c)
  {
    hide Lined;
    LinedClientStep(s, step, batchSize, c);
  }

  // ----- Orderly deployments keep the order

  lemma {:induction false} SingleRun(d: Deployment, steps: seq<Step>, c: nat)
    requires AllAllowed(d, steps) && Run(Start(d.clients), steps, d.batchSize).Some?
    requires forall a :: a in d.emitters ==> a == c && d.batchSize <= 1
    ensures var s := Run(Start(d.clients), steps, d.batchSize).value; Single(s, c) && Lined(s, c)
  {
    if steps != [] {
      hide Next, Single, Lined;
      var front, step := steps[..|steps| - 1], steps[|steps| - 1];
      SingleRun(d, front, c);
      SingleStep(Run(Start(d.clients), front, d.batchSize).value, step, d.batchSize, c);
    }
  }

  lemma {:induction false} ClosingRun(d: Deployment, steps: seq<Step>, c: nat)
    requires AllAllowed(d, steps) && Run(Start(d.clients), steps, d.batchSize).Some?
    requires c < d.clients && d.emitters == {c} && !d.timer && d.flushers == {} && d.closers <= {c}
    ensures var s := Run(Start(d.clients), steps, d.batchSize).value; Closing(s, c) && Lined(s, c)
  {
    if steps != [] {
      hide Next, Closing, Lined;
      var front, step := steps[..|steps| - 1], steps[|steps| - 1];
      ClosingRun(d, front, c);
      assert Allowed(d, step);
      ClosingStep(Run(Start(d.clients), front, d.batchSize).value, step, d.batchSize, c);
    }
  }

  lemma {:induction false} OrderKept(d: Deployment, steps: seq<Step>)
    requires Deployed(d) && Orderly(d)
    ensures RunInOrder(d, steps)
  {
    hide Single, Closing, Run, Lined;
    if AllAllowed(d, steps) && Run(Start(d.clients), steps, d.batchSize).Some? {
      var s := Run(Start(d.clients), steps, d.batchSize).value;
      var c: nat := if a :| a in d.emitters then a else 0;
      if d.emitters == {} || d.batchSize <= 1 {
        SingleRun(d, steps, c);
      } else {
        assert c in d.emitters + d.flushers + d.closers && d.emitters == {c};
        ClosingRun(d, steps, c);
      }
      LinedUp(s, c);
    }
  }

  lemma LinedUp(s: State, c: nat)
    requires Lined(s, c)
    ensures s.posted <= Nonempty(s.taken)
  {
    hide Nonempty;
  }

  // ----- Disorderly deployments can lose it

  function Full(r: Rec, batchSize: int, drops: nat): Taken {
    Taken(Copies(r, Limit(batchSize)), drops, [])
  }

  function Copies(r: Rec, k: nat): seq<Rec> {
    seq(k, _ => r)
  }

  /** `k` times the same record. */
  function Fill(c: nat, r: Rec, k: nat): seq<Step> {
    seq(k, _ => EmitRecord(c, r))
  }

  /** Filling up, one record short of a take. */
  lemma {:induction false} FillRun(s: State, c: nat, r: Rec, k: nat, batchSize: int)
    requires At(s, c, Idle) && s.shared.batch == [] && k < Limit(batchSize)
    ensures Run(s, Fill(c, r, k), batchSize)
         == Some(s.(shared := s.shared.(batch := Copies(r, k)), accepted := s.accepted + Copies(r, k)))
  {
    if k == 0 {
      assert s.accepted + Copies(r, 0) == s.accepted;
    } else {
      FillRun(s, c, r, k - 1, batchSize);
      assert Fill(c, r, k)[..k - 1] == Fill(c, r, k - 1);
      assert Copies(r, k) == Copies(r, k - 1) + [r];
      assert s.accepted + Copies(r, k) == s.accepted + Copies(r, k - 1) + [r];
    }
  }

  /** After a whole batch from `c`, about to be handed off. */
  function Filled(s: State, c: nat, r: Rec, batchSize: int): State
    requires c < |s.clients|
  {
    var full := Full(r, batchSize, s.shared.drops);
    Go(s.(shared := s.shared.(batch := [], drops := 0), accepted := s.accepted + full.logs, taken := s.taken + [full]),
       c, HandingOff(full))
  }

  lemma FilledRun(s: State, c: nat, r: Rec, batchSize: int)
    requires At(s, c, Idle) && s.shared.batch == []
    ensures Run(s, Fill(c, r, Limit(batchSize)), batchSize) == Some(Filled(s, c, r, batchSize))
  {
    var k := Limit(batchSize) - 1;
    FillRun(s, c, r, k, batchSize);
    assert Fill(c, r, k + 1)[..k] == Fill(c, r, k);
    assert Copies(r, k + 1) == Copies(r, k) + [r];
    assert s.accepted + Copies(r, k + 1) == s.accepted + Copies(r, k) + [r];
  }

  /** A whole batch of `c` in the queue, and one more record waiting. */
  function Loaded(s: State, c: nat, batchSize: int): State {
    var full := Full(0, batchSize, s.shared.drops);
    s.(shared := s.shared.(batch := [1], drops := 0), accepted := s.accepted + full.logs + [1],
       taken := s.taken + [full], queue := s.queue + [PostJob(full)])
  }

  function Load(c: nat, batchSize: int): seq<Step> {
    Fill(c, 0, Limit(batchSize)) + [HandOff(c), EmitRecord(c, 1)]
  }

  lemma LoadRun(s: State, c: nat, batchSize: int)
    requires At(s, c, Idle) && s.shared.batch == [] && batchSize > 1
    ensures Run(s, Load(c, batchSize), batchSize) == Some(Loaded(s, c, batchSize))
  {
    hide Full, Run;
    var t := Filled(s, c, 0, batchSize);
    FilledRun(s, c, 0, batchSize);
    RunConcat(s, Fill(c, 0, Limit(batchSize)), [HandOff(c), EmitRecord(c, 1)], batchSize);
    RunTwo(t, HandOff(c), EmitRecord(c, 1), batchSize);
    assert t.clients[c := Idle] == s.clients;
    assert [] + [1] == [1];
  }

  /** The one post so far is of the second take. */
  ghost predicate Overtaken(r: Option<State>) {
    r.Some? && |r.value.posted| == 1 && |r.value.taken| == 2
    && r.value.posted[0].logs == r.value.taken[1].logs != r.value.taken[0].logs
    && r.value.taken[0].logs != [] && r.value.taken[1].logs != []
  }

  lemma OvertakenOutOfOrder(d: Deployment, steps: seq<Step>)
    requires AllAllowed(d, steps) && Overtaken(Run(Start(d.clients), steps, d.batchSize))
    ensures !RunInOrder(d, steps)
  {
    hide Run;
    var s := Run(Start(d.clients), steps, d.batchSize).value;
    assert s.taken == [] + [s.taken[0]] + [s.taken[1]];
    NonemptySnoc([], s.taken[0]);
    NonemptySnoc([] + [s.taken[0]], s.taken[1]);
    assert Nonempty([]) == [];
    assert Nonempty(s.taken)[0] == s.taken[0];
  }

  /** A take of the waiting record that is posted while the whole batch is still queued. */
  lemma LoadedOvertaken(s: State, c: nat, batchSize: int, t: State)
    requires s.taken == [] && s.posted == [] && batchSize > 1
    requires t.taken == Loaded(s, c, batchSize).taken + [TakeAll(Loaded(s, c, batchSize).shared).1]
    requires t.posted == [TakeAll(Loaded(s, c, batchSize).shared).1]
    ensures Overtaken(Some(t))
  {
    assert t.taken[0].logs[0] == 0 && t.taken[1].logs == [1];
  }

  /** `a` and `b` both hold a full batch, `b` the later one. */
  function BothFilled(n: nat, a: nat, b: nat, batchSize: int): State
    requires a < n && b < n
  {
    Filled(Filled(Start(n), a, 0, batchSize), b, 1, batchSize)
  }

  lemma BothFilledRun(n: nat, a: nat, b: nat, batchSize: int)
    requires a < n && b < n && a != b
    ensures Run(Start(n), Fill(a, 0, Limit(batchSize)) + Fill(b, 1, Limit(batchSize)), batchSize) == Some(BothFilled(n, a, b, batchSize))
  {
    hide Run, Full, Fill;
    var s := Start(n);
    FilledRun(s, a, 0, batchSize);
    FilledRun(Filled(s, a, 0, batchSize), b, 1, batchSize);
    RunConcat(s, Fill(a, 0, Limit(batchSize)), Fill(b, 1, Limit(batchSize)), batchSize);
  }

  lemma LaterPosted(s: State, b: nat, batchSize: int)
    requires b < |s.clients| && s.clients[b].HandingOff? && s.clients[b].batch.logs != []
    requires s.queue == [] && s.worker.Resting? && s.posted == []
    ensures var r := Run(s, [HandOff(b)] + [WorkerNext, WorkerPost], batchSize);
            r.Some? && r.value.posted == [s.clients[b].batch] && r.value.taken == s.taken
  {
    hide Run;
    RunConcat(s, [HandOff(b)], [WorkerNext, WorkerPost], batchSize);
    RunOne(s, HandOff(b), batchSize);
    RunTwo(Next(s, HandOff(b), batchSize).value, WorkerNext, WorkerPost, batchSize);
  }

  /** Two emitters: the second fills its batch after the first but hands it off before. */
  lemma {:induction false} TwoEmitters(d: Deployment, a: nat, b: nat) returns (steps: seq<Step>)
    requires Deployed(d) && a in d.emitters && b in d.emitters && a != b
    ensures !RunInOrder(d, steps)
  {
    hide Run, Fill, Full, RunInOrder;
    var k := Limit(d.batchSize);
    assert a in d.emitters + d.flushers + d.closers && b in d.emitters + d.flushers + d.closers;
    var fills, tail := Fill(a, 0, k) + Fill(b, 1, k), [HandOff(b)] + [WorkerNext, WorkerPost];
    BothFilledRun(d.clients, a, b, d.batchSize);
    TwoFulls(d.batchSize);
    LaterPosted(BothFilled(d.clients, a, b, d.batchSize), b, d.batchSize);
    RunConcat(Start(d.clients), fills, tail, d.batchSize);
    FillAllowed(d, a, 0, k);
    FillAllowed(d, b, 1, k);
    steps := fills + tail;
    OvertakenOutOfOrder(d, steps);
  }

  lemma TwoFulls(batchSize: int)
    ensures Full(0, batchSize, 0).logs != Full(1, batchSize, 0).logs
    ensures forall r :: Full(r, batchSize, 0).logs != []
  {
    assert Full(0, batchSize, 0).logs[0] == 0 && Full(1, batchSize, 0).logs[0] == 1;
  }

  lemma FillAllowed(d: Deployment, c: nat, r: Rec, k: nat)
    requires c in d.emitters
    ensures AllAllowed(d, Fill(c, r, k))
  {
  }

  /** From the loaded state, `x` takes the waiting record and `y` posts it. */
  predicate Overtakes(s: State, c: nat, x: Step, y: Step, batchSize: int) {
    var l := Loaded(s, c, batchSize);
    && Next(l, x, batchSize).Some? && Next(Next(l, x, batchSize).value, y, batchSize).Some?
    && var t := Next(Next(l, x, batchSize).value, y, batchSize).value;
    && t.taken == l.taken + [TakeAll(l.shared).1] && t.posted == [TakeAll(l.shared).1]
  }

  predicate Fresh(s: State, c: nat) {
    At(s, c, Idle) && s.shared.batch == [] && s.taken == [] && s.posted == []
  }

  /** The common shape: some steps before, a batch queued and a record waiting, and two steps that take and post it. */
  lemma LoadBetween(d: Deployment, before: seq<Step>, c: nat, x: Step, y: Step) returns (steps: seq<Step>)
    requires c in d.emitters && d.batchSize > 1
    requires AllAllowed(d, before) && Allowed(d, x) && Allowed(d, y)
    requires Run(Start(d.clients), before, d.batchSize).Some?
    requires var s := Run(Start(d.clients), before, d.batchSize).value; Fresh(s, c) && Overtakes(s, c, x, y, d.batchSize)
    ensures !RunInOrder(d, steps)
  {
    hide Run, Next, Fill, Loaded;
    var s := Run(Start(d.clients), before, d.batchSize).value;
    var l := Loaded(s, c, d.batchSize);
    LoadRun(s, c, d.batchSize);
    RunConcat(Start(d.clients), before, Load(c, d.batchSize), d.batchSize);
    RunConcat(Start(d.clients), before + Load(c, d.batchSize), [x, y], d.batchSize);
    RunTwo(l, x, y, d.batchSize);
    LoadedOvertaken(s, c, d.batchSize, Next(Next(l, x, d.batchSize).value, y, d.batchSize).value);
    FillAllowed(d, c, 0, Limit(d.batchSize));
    steps := before + Load(c, d.batchSize) + [x, y];
    OvertakenOutOfOrder(d, steps);
  }

  function TimerTurn(n: nat): State {
    Start(n).(worker := TimerStart)
  }

  lemma TimerTurnRun(n: nat, batchSize: int)
    ensures Run(Start(n), [TimerFire, WorkerNext], batchSize) == Some(TimerTurn(n))
  {
    RunTwo(Start(n), TimerFire, WorkerNext, batchSize);
    assert ([] + [TimerJob])[1..] == [];
  }

  lemma TimerTurnOvertakes(n: nat, c: nat, batchSize: int)
    requires c < n
    ensures Fresh(TimerTurn(n), c) && Overtakes(TimerTurn(n), c, WorkerTake, WorkerLogs, batchSize)
  {
    hide Full;
  }

  /** The timer's turn comes while a batch is handed off behind it. */
  lemma {:induction false} TimerOvertakes(d: Deployment, c: nat) returns (steps: seq<Step>)
    requires Deployed(d) && c in d.emitters && d.batchSize > 1 && d.timer
    ensures !RunInOrder(d, steps)
  {
    hide Run, Fresh, Overtakes, RunInOrder;
    assert c in d.emitters + d.flushers + d.closers;
    TimerTurnRun(d.clients, d.batchSize);
    TimerTurnOvertakes(d.clients, c, d.batchSize);
    steps := LoadBetween(d, [TimerFire, WorkerNext], c, WorkerTake, WorkerLogs);
  }

  lemma FlusherOvertakes(n: nat, c: nat, f: nat, batchSize: int)
    requires c < n && f < n
    ensures Fresh(Start(n), c) && Overtakes(Start(n), c, FlushTake(f), PostLogs(f), batchSize)
  {
    hide Full;
  }

  /** A flush posts what is waiting ahead of a queued batch, whoever calls it. */
  lemma {:induction false} FlushOvertakes(d: Deployment, c: nat, f: nat) returns (steps: seq<Step>)
    requires Deployed(d) && c in d.emitters && d.batchSize > 1 && f in d.flushers
    ensures !RunInOrder(d, steps)
  {
    hide Fresh, Overtakes, RunInOrder;
    assert c in d.emitters + d.flushers + d.closers && f in d.emitters + d.flushers + d.closers;
    FlusherOvertakes(d.clients, c, f, d.batchSize);
    steps := LoadBetween(d, [], c, FlushTake(f), PostLogs(f));
  }

  /** A shutdown by `f` that has passed its barrier. */
  function PastBarrier(n: nat, f: nat): State
    requires f < n
  {
    Go(Start(n).(timer := false), f, Drained)
  }

  lemma CloserOvertakes(n: nat, c: nat, f: nat, batchSize: int)
    requires c < n && f < n && c != f
    ensures Fresh(PastBarrier(n, f), c) && Overtakes(PastBarrier(n, f), c, LastTake(f), PostLogs(f), batchSize)
  {
    hide Full;
  }

  /** So does the last flush of a shutdown by another client, whose barrier was passed before the hand-off. */
  lemma {:induction false} ShutdownOvertakes(d: Deployment, c: nat, f: nat) returns (steps: seq<Step>)
    requires Deployed(d) && c in d.emitters && d.batchSize > 1 && f in d.closers && f != c
    ensures !RunInOrder(d, steps)
  {
    hide Run, Fresh, Overtakes, RunInOrder;
    assert c in d.emitters + d.flushers + d.closers && f in d.emitters + d.flushers + d.closers;
    Shutdown.PassBarrier(Start(d.clients), f, d.batchSize);
    CloserOvertakes(d.clients, c, f, d.batchSize);
    steps := LoadBetween(d, [Cancel(f), Sync(f)] + [WorkerNext], c, LastTake(f), PostLogs(f));
  }

  /** A disorderly deployment has a run in which a batch is posted before one taken earlier. */
  lemma OrderLost(d: Deployment) returns (steps: seq<Step>)
    requires Deployed(d) && !Orderly(d)
    ensures !RunInOrder(d, steps)
  {
    if a, b :| a in d.emitters && b in d.emitters && a != b {
      steps := TwoEmitters(d, a, b);
    } else {
      var c :| c in d.emitters;
      assert d.emitters == {c};
      if d.timer {
        steps := TimerOvertakes(d, c);
      } else if f :| f in d.flushers {
        steps := FlushOvertakes(d, c, f);
      } else {
        var f :| f in d.closers && f !in d.emitters;
        steps := ShutdownOvertakes(d, c, f);
      }
    }
  }

  /** Batches are posted in the order of taking, in every run, exactly when the deployment is orderly. */
  lemma {:induction false} PostOrderExactly(d: Deployment)
    requires Deployed(d)
    ensures InPostOrder(d) <==> Orderly(d)
  {
    if Orderly(d) {
      forall steps
        ensures RunInOrder(d, steps)
      {
        OrderKept(d, steps);
      }
    } else {
      var steps := OrderLost(d);
      assert !RunInOrder(d, steps);
    }
  }
}
