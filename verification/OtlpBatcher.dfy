/**
 The OTLP batching protocol as an interleaving transition system: client threads that emit, report
 drops, flush and shut down; the timer; and the serial sender queue with its worker.  Each critical
 section is one step, and so is each hand-off, queue operation and post outside the lock.
 */
module OtlpBatcher {
  import opened Common
  import opened OtlpState

  // ----- States

  datatype Job = PostJob(batch: Taken) | TimerJob | Barrier(client: nat)

  /** Where a client thread is between its steps; `last` marks the flush that ends a shutdown. */
  datatype Client =
    | Idle
    | HandingOff(batch: Taken)
    | Flushing(taken: Taken, last: bool)
    | FlushingMetrics(taken: Taken, last: bool)
    | Cancelled
    | Waiting
    | Drained
    | Down

  datatype Worker = Resting | Posting(batch: Taken) | TimerStart | TimerLogs(taken: Taken) | TimerMetrics(taken: Taken)

  datatype State = State(
    shared: Shared,
    clients: seq<Client>,
    queue: seq<Job>,
    worker: Worker,
    timer: bool,
    // history
    accepted: seq<Rec>,
    acceptedMetrics: seq<Snapshot>,
    reported: nat,
    taken: seq<Taken>,
    posted: seq<Taken>,
    postedMetrics: seq<Taken>)

  function Clients(n: nat): seq<Client> {
    seq(n, _ => Idle)
  }

  function Start(n: nat): State {
    State(EMPTY, Clients(n), [], Resting, true, [], [], 0, [], [], [])
  }

  // ----- Steps

  datatype Step =
    | EmitRecord(c: nat, r: Rec)
    | HandOff(c: nat)
    | EmitSnapshot(c: nat, m: Snapshot)
    | ReportDrops(c: nat, n: nat)
    | FlushTake(c: nat)
    | PostLogs(c: nat)
    | PostMetrics(c: nat)
    | Cancel(c: nat)
    | Sync(c: nat)
    | LastTake(c: nat)
    | TimerFire
    | WorkerNext
    | WorkerPost
    | WorkerTake
    | WorkerLogs
    | WorkerMetrics

  predicate At(s: State, c: nat, pc: Client) {
    c < |s.clients| && s.clients[c] == pc
  }

  function Go(s: State, c: nat, pc: Client): State
    requires c < |s.clients|
  {
    s.(clients := s.clients[c := pc])
  }

  /** The effect of a take on the shared state and on history. */
  function AfterTake(s: State): State {
    s.(shared := TakeAll(s.shared).0, taken := s.taken + [TakeAll(s.shared).1])
  }

  function Post(s: State, t: Taken): State {
    if t.logs == [] then s else s.(posted := s.posted + [t])
  }

  function PostM(s: State, t: Taken): State {
    if t.metrics == [] then s else s.(postedMetrics := s.postedMetrics + [t])
  }

  /** A step of client `c`, or None when it cannot happen now. */
  function ClientStep(s: State, step: Step, batchSize: int): Option<State> {
    match step
    case EmitRecord(c, r) =>
      if !At(s, c, Idle) then None
      else
        var (shared, pending) := Append(s.shared, r, batchSize);
        var s1 := s.(shared := shared, accepted := s.accepted + [r]);
        Some(if pending.None? then s1 else Go(s1.(taken := s.taken + [pending.value]), c, HandingOff(pending.value)))
    case HandOff(c) =>
      if c < |s.clients| && s.clients[c].HandingOff?
      then Some(Go(s.(queue := s.queue + [PostJob(s.clients[c].batch)]), c, Idle)) else None
    case EmitSnapshot(c, m) =>
      if !At(s, c, Idle) then None
      else Some(s.(shared := s.shared.(metrics := s.shared.metrics + [m]), acceptedMetrics := s.acceptedMetrics + [m]))
    case ReportDrops(c, n) =>
      if !At(s, c, Idle) then None
      else Some(s.(shared := s.shared.(drops := s.shared.drops + n), reported := s.reported + n))
    case FlushTake(c) =>
      if !At(s, c, Idle) then None else Some(Go(AfterTake(s), c, Flushing(TakeAll(s.shared).1, false)))
    case PostLogs(c) =>
      if c < |s.clients| && s.clients[c].Flushing?
      then Some(Go(Post(s, s.clients[c].taken), c, FlushingMetrics(s.clients[c].taken, s.clients[c].last))) else None
    case PostMetrics(c) =>
      if c < |s.clients| && s.clients[c].FlushingMetrics?
      then Some(Go(PostM(s, s.clients[c].taken), c, if s.clients[c].last then Down else Idle)) else None
    case Cancel(c) =>
      if !At(s, c, Idle) then None else Some(Go(s.(timer := false), c, Cancelled))
    case Sync(c) =>
      if !At(s, c, Cancelled) then None else Some(Go(s.(queue := s.queue + [Barrier(c)]), c, Waiting))
    case LastTake(c) =>
      if !At(s, c, Drained) then None else Some(Go(AfterTake(s), c, Flushing(TakeAll(s.shared).1, true)))
    case _ => None
  }

  /** A step of the timer or of the sender queue. */
  function QueueStep(s: State, step: Step): Option<State> {
    match step
    case TimerFire => if s.timer then Some(s.(queue := s.queue + [TimerJob])) else None
    case WorkerNext =>
      if !s.worker.Resting? || s.queue == [] then None
      else
        var s1 := s.(queue := s.queue[1..]);
        (match s.queue[0]
         case PostJob(b) => Some(s1.(worker := Posting(b)))
         case TimerJob => Some(s1.(worker := TimerStart))
         case Barrier(c) => Some(if At(s, c, Waiting) then Go(s1, c, Drained) else s1))
    case WorkerPost => if s.worker.Posting? then Some(Post(s, s.worker.batch).(worker := Resting)) else None
    case WorkerTake => if s.worker.TimerStart? then Some(AfterTake(s).(worker := TimerLogs(TakeAll(s.shared).1))) else None
    case WorkerLogs => if s.worker.TimerLogs? then Some(Post(s, s.worker.taken).(worker := TimerMetrics(s.worker.taken))) else None
    case WorkerMetrics => if s.worker.TimerMetrics? then Some(PostM(s, s.worker.taken).(worker := Resting)) else None
    case _ => None
  }

  predicate IsQueueStep(step: Step) {
    step.TimerFire? || step.WorkerNext? || step.WorkerPost? || step.WorkerTake? || step.WorkerLogs? || step.WorkerMetrics?
  }

  function Next(s: State, step: Step, batchSize: int): Option<State> {
    if IsQueueStep(step) then QueueStep(s, step) else ClientStep(s, step, batchSize)
  }

  function Run(s: State, steps: seq<Step>, batchSize: int): Option<State>
    decreases |steps|
  {
    if steps == [] then Some(s)
    else match Run(s, steps[..|steps| - 1], batchSize)
         case None => None
         case Some(t) => Next(t, steps[|steps| - 1], batchSize)
  }

  // ----- History

  function Logs(ts: seq<Taken>): seq<Rec> {
    if ts == [] then [] else Logs(ts[..|ts| - 1]) + ts[|ts| - 1].logs
  }

  function Metrics(ts: seq<Taken>): seq<Snapshot> {
    if ts == [] then [] else Metrics(ts[..|ts| - 1]) + ts[|ts| - 1].metrics
  }

  function Drops(ts: seq<Taken>): nat {
    if ts == [] then 0 else Drops(ts[..|ts| - 1]) + ts[|ts| - 1].drops
  }

  lemma LogsSnoc(ts: seq<Taken>, t: Taken)
    ensures Logs(ts + [t]) == Logs(ts) + t.logs && Metrics(ts + [t]) == Metrics(ts) + t.metrics && Drops(ts + [t]) == Drops(ts) + t.drops
  {
  }

  function Limit(batchSize: int): nat {
    if batchSize < 1 then 1 else batchSize
  }

  // ----- Order and size of what is taken

  /** Between steps the batch is not full, and what was taken, with what is left, is what was accepted. */
  predicate InOrder(s: State, batchSize: int) {
    && Logs(s.taken) + s.shared.batch == s.accepted
    && Metrics(s.taken) + s.shared.metrics == s.acceptedMetrics
    && Drops(s.taken) + s.shared.drops == s.reported
    && |s.shared.batch| < Limit(batchSize)
    && AllWithin(s.taken, Limit(batchSize))
  }

  predicate AllWithin(ts: seq<Taken>, limit: nat) {
    forall i :: 0 <= i < |ts| ==> |ts[i].logs| <= limit
  }

  lemma AllWithinSnoc(ts: seq<Taken>, t: Taken, limit: nat)
    requires AllWithin(ts, limit) && |t.logs| <= limit
    ensures AllWithin(ts + [t], limit)
  {
  }

  lemma TakeInOrder(s: State, batchSize: int)
    requires InOrder(s, batchSize)
    ensures InOrder(AfterTake(s), batchSize)
  {
  }

  lemma EmitInOrder(s: State, c: nat, r: Rec, batchSize: int)
    requires InOrder(s, batchSize) && At(s, c, Idle)
    ensures InOrder(ClientStep(s, EmitRecord(c, r), batchSize).value, batchSize)
  {
    hide Logs, Metrics, Drops, AllWithin;
    var pending := Append(s.shared, r, batchSize).1;
    assert Logs(s.taken) + (s.shared.batch + [r]) == s.accepted + [r];
    if pending.Some? {
      LogsSnoc(s.taken, pending.value);
      AllWithinSnoc(s.taken, pending.value, Limit(batchSize));
      assert s.acceptedMetrics == Metrics(s.taken) + [] + s.shared.metrics;
      assert s.accepted + [r] + [] == s.accepted + [r];
    }
  }

  lemma SnapshotInOrder(s: State, c: nat, m: Snapshot, batchSize: int)
    requires InOrder(s, batchSize) && At(s, c, Idle)
    ensures InOrder(ClientStep(s, EmitSnapshot(c, m), batchSize).value, batchSize)
  {
    hide Logs, Metrics, Drops, AllWithin;
    assert Metrics(s.taken) + (s.shared.metrics + [m]) == s.acceptedMetrics + [m];
  }

  lemma StepInOrder(s: State, step: Step, batchSize: int)
    requires InOrder(s, batchSize) && Next(s, step, batchSize).Some?
    ensures InOrder(Next(s, step, batchSize).value, batchSize)
  {
    hide InOrder, QueueStep, ClientStep;
    if IsQueueStep(step) {
      QueueInOrder(s, step, batchSize);
    } else {
      ClientInOrder(s, step, batchSize);
    }
  }

  lemma QueueInOrder(s: State, step: Step, batchSize: int)
    requires InOrder(s, batchSize) && IsQueueStep(step) && QueueStep(s, step).Some?
    ensures InOrder(QueueStep(s, step).value, batchSize)
  {
    hide Logs, Metrics, Drops, AllWithin, AfterTake;
    if step.WorkerTake? {
      TakeInOrder(s, batchSize);
    } else {
      SameInOrder(s, QueueStep(s, step).value, batchSize);
    }
  }

  lemma ClientInOrder(s: State, step: Step, batchSize: int)
    requires InOrder(s, batchSize) && !IsQueueStep(step) && ClientStep(s, step, batchSize).Some?
    ensures InOrder(ClientStep(s, step, batchSize).value, batchSize)
  {
    hide Logs, Metrics, Drops, AllWithin, AfterTake, Append;
    if step.EmitRecord? {
      EmitInOrder(s, step.c, step.r, batchSize);
    } else if step.EmitSnapshot? {
      SnapshotInOrder(s, step.c, step.m, batchSize);
    } else if step.FlushTake? || step.LastTake? {
      TakeInOrder(s, batchSize);
    } else {
      SameInOrder(s, ClientStep(s, step, batchSize).value, batchSize);
    }
  }

  /** Other steps touch neither what the lock protects nor what was taken, except to add to metrics or drops. */
  lemma SameInOrder(s: State, t: State, batchSize: int)
    requires InOrder(s, batchSize) && t.taken == s.taken && t.shared.batch == s.shared.batch && t.accepted == s.accepted
    requires t.shared.metrics == s.shared.metrics && t.acceptedMetrics == s.acceptedMetrics
    requires t.shared.drops - s.shared.drops == t.reported - s.reported
    ensures InOrder(t, batchSize)
  {
  }

  /**
   In every interleaving the batches, in the order the lock let them be taken, followed by the
   current batch, are exactly the accepted records in order; none exceeds the batch size; and
   every drop reported is in some take or still pending.
   */
  lemma {:induction false} TakenInOrder(n: nat, steps: seq<Step>, batchSize: int)
    requires Run(Start(n), steps, batchSize).Some?
    ensures InOrder(Run(Start(n), steps, batchSize).value, batchSize)
  {
    if steps != [] {
      TakenInOrder(n, steps[..|steps| - 1], batchSize);
      StepInOrder(Run(Start(n), steps[..|steps| - 1], batchSize).value, steps[|steps| - 1], batchSize);
    }
  }

  // ----- Nothing is duplicated or lost on the way to `post`

  /** A weight of takes, such as how often one take, or one record, occurs. */
  type Weight = Taken -> nat

  /** Takes without records, which are never posted to the logs endpoint, weigh nothing. */
  ghost predicate OfLogs(w: Weight) {
    forall t: Taken :: t.logs == [] ==> w(t) == 0
  }

  ghost predicate OfMetrics(w: Weight) {
    forall t: Taken :: t.metrics == [] ==> w(t) == 0
  }

  function Total(ts: seq<Taken>, w: Weight): nat {
    if ts == [] then 0 else Total(ts[..|ts| - 1], w) + w(ts[|ts| - 1])
  }

  lemma TotalSnoc(ts: seq<Taken>, t: Taken, w: Weight)
    ensures Total(ts + [t], w) == Total(ts, w) + w(t)
  {
  }

  /** What a client still has to post or hand off. */
  function ClientHolds(c: Client, w: Weight): nat {
    match c
    case HandingOff(b) => w(b)
    case Flushing(t, _) => w(t)
    case _ => 0
  }

  function ClientHoldsMetrics(c: Client, w: Weight): nat {
    match c
    case Flushing(t, _) => w(t)
    case FlushingMetrics(t, _) => w(t)
    case _ => 0
  }

  function ClientsHold(cs: seq<Client>, w: Weight): nat {
    if cs == [] then 0 else ClientHolds(cs[0], w) + ClientsHold(cs[1..], w)
  }

  function ClientsHoldMetrics(cs: seq<Client>, w: Weight): nat {
    if cs == [] then 0 else ClientHoldsMetrics(cs[0], w) + ClientsHoldMetrics(cs[1..], w)
  }

  function JobHolds(j: Job, w: Weight): nat {
    if j.PostJob? then w(j.batch) else 0
  }

  function QueueHolds(q: seq<Job>, w: Weight): nat {
    if q == [] then 0 else JobHolds(q[0], w) + QueueHolds(q[1..], w)
  }

  function WorkerHolds(k: Worker, w: Weight): nat {
    match k
    case Posting(b) => w(b)
    case TimerLogs(t) => w(t)
    case _ => 0
  }

  function WorkerHoldsMetrics(k: Worker, w: Weight): nat {
    match k
    case TimerLogs(t) => w(t)
    case TimerMetrics(t) => w(t)
    case _ => 0
  }

  lemma {:induction false} ClientsUpdate(cs: seq<Client>, c: nat, pc: Client, w: Weight)
    requires c < |cs|
    ensures ClientsHold(cs[c := pc], w) == ClientsHold(cs, w) - ClientHolds(cs[c], w) + ClientHolds(pc, w)
    ensures ClientsHoldMetrics(cs[c := pc], w) == ClientsHoldMetrics(cs, w) - ClientHoldsMetrics(cs[c], w) + ClientHoldsMetrics(pc, w)
  {
    if c == 0 {
      assert cs[0 := pc][1..] == cs[1..];
    } else {
      assert cs[c := pc][1..] == cs[1..][c - 1 := pc];
      ClientsUpdate(cs[1..], c - 1, pc, w);
    }
  }

  lemma {:induction false} QueueSnoc(q: seq<Job>, j: Job, w: Weight)
    ensures QueueHolds(q + [j], w) == QueueHolds(q, w) + JobHolds(j, w)
  {
    if q == [] {
      assert q + [j] == [j];
    } else {
      assert (q + [j])[1..] == q[1..] + [j];
      QueueSnoc(q[1..], j, w);
    }
  }

  /** Every take with records is posted, or held in exactly one place. */
  predicate LogsAccounted(s: State, w: Weight) {
    Total(s.taken, w) == Total(s.posted, w) + ClientsHold(s.clients, w) + QueueHolds(s.queue, w) + WorkerHolds(s.worker, w)
  }

  predicate MetricsAccounted(s: State, w: Weight) {
    Total(s.taken, w) == Total(s.postedMetrics, w) + ClientsHoldMetrics(s.clients, w) + WorkerHoldsMetrics(s.worker, w)
  }

  lemma PostTotal(s: State, t: Taken, w: Weight)
    ensures OfLogs(w) ==> Total(Post(s, t).posted, w) == Total(s.posted, w) + w(t)
    ensures OfMetrics(w) ==> Total(PostM(s, t).postedMetrics, w) == Total(s.postedMetrics, w) + w(t)
  {
  }

  lemma StepLogsAccounted(s: State, step: Step, batchSize: int, w: Weight)
    requires OfLogs(w) && LogsAccounted(s, w) && Next(s, step, batchSize).Some?
    ensures LogsAccounted(Next(s, step, batchSize).value, w)
  {
    hide LogsAccounted, OfLogs, QueueStep;
    if IsQueueStep(step) {
      QueueLogsAccounted(s, step, w);
    } else if step.EmitRecord? {
      EmitLogs(s, step.c, step.r, batchSize, w);
    } else {
      ClientLogsAccounted(s, step, batchSize, w);
    }
  }

  /** A client's step moves what it holds, takes or posts, and nothing else. */
  lemma ClientLogsAccounted(s: State, step: Step, batchSize: int, w: Weight)
    requires OfLogs(w) && LogsAccounted(s, w) && !IsQueueStep(step) && !step.EmitRecord?
    requires ClientStep(s, step, batchSize).Some?
    ensures LogsAccounted(ClientStep(s, step, batchSize).value, w)
  {
    hide Total, ClientsHold, QueueHolds, OfLogs, LogsAccounted, AfterTake, Append;
    var t, c := ClientStep(s, step, batchSize).value, step.c;
    if step.FlushTake? || step.LastTake? {
      TakeLogsAccounted(s, c, step.LastTake?, w);
    } else if step.PostLogs? {
      PostLogsAccounted(s, c, w);
    } else {
      MoveLogsAccounted(s, step, batchSize, w);
    }
  }

  lemma TakeLogsAccounted(s: State, c: nat, last: bool, w: Weight)
    requires LogsAccounted(s, w) && c < |s.clients| && ClientHolds(s.clients[c], w) == 0
    ensures LogsAccounted(Go(AfterTake(s), c, Flushing(TakeAll(s.shared).1, last)), w)
  {
    hide Total, ClientsHold, QueueHolds;
    var took := TakeAll(s.shared).1;
    TotalSnoc(s.taken, took, w);
    ClientsUpdate(s.clients, c, Flushing(took, last), w);
  }

  lemma PostLogsAccounted(s: State, c: nat, w: Weight)
    requires OfLogs(w) && LogsAccounted(s, w) && c < |s.clients| && s.clients[c].Flushing?
    ensures var pc := s.clients[c]; LogsAccounted(Go(Post(s, pc.taken), c, FlushingMetrics(pc.taken, pc.last)), w)
  {
    hide Total, ClientsHold, QueueHolds, OfLogs;
    var pc := s.clients[c];
    PostTotal(s, pc.taken, w);
    ClientsUpdate(s.clients, c, FlushingMetrics(pc.taken, pc.last), w);
  }

  lemma MoveLogsAccounted(s: State, step: Step, batchSize: int, w: Weight)
    requires LogsAccounted(s, w) && !IsQueueStep(step) && ClientStep(s, step, batchSize).Some?
    requires !step.EmitRecord? && !step.FlushTake? && !step.LastTake? && !step.PostLogs?
    ensures LogsAccounted(ClientStep(s, step, batchSize).value, w)
  {
    hide Total, ClientsHold, QueueHolds;
    var t, c := ClientStep(s, step, batchSize).value, step.c;
    ClientsUpdate(s.clients, c, t.clients[c], w);
    assert s.clients[c := t.clients[c]] == t.clients;
    if step.HandOff? {
      QueueSnoc(s.queue, PostJob(s.clients[c].batch), w);
    } else if step.Sync? {
      QueueSnoc(s.queue, Barrier(c), w);
    }
  }

  lemma EmitLogs(s: State, c: nat, r: Rec, batchSize: int, w: Weight)
    requires LogsAccounted(s, w) && At(s, c, Idle)
    ensures LogsAccounted(ClientStep(s, EmitRecord(c, r), batchSize).value, w)
  {
    hide Total, ClientsHold, QueueHolds;
    var pending := Append(s.shared, r, batchSize).1;
    if pending.Some? {
      TotalSnoc(s.taken, pending.value, w);
      ClientsUpdate(s.clients, c, HandingOff(pending.value), w);
    }
  }

  lemma QueueLogsAccounted(s: State, step: Step, w: Weight)
    requires OfLogs(w) && LogsAccounted(s, w) && IsQueueStep(step) && QueueStep(s, step).Some?
    ensures LogsAccounted(QueueStep(s, step).value, w)
  {
    hide Total, ClientsHold, OfLogs;
    match step
    case TimerFire => QueueSnoc(s.queue, TimerJob, w);
    case WorkerNext =>
      if s.queue[0].Barrier? && At(s, s.queue[0].client, Waiting) {
        ClientsUpdate(s.clients, s.queue[0].client, Drained, w);
      }
    case WorkerPost => PostTotal(s, s.worker.batch, w);
    case WorkerTake => TotalSnoc(s.taken, TakeAll(s.shared).1, w);
    case WorkerLogs => PostTotal(s, s.worker.taken, w);
    case _ =>
  }

  lemma StepMetricsAccounted(s: State, step: Step, batchSize: int, w: Weight)
    requires OfMetrics(w) && MetricsAccounted(s, w) && Next(s, step, batchSize).Some?
    ensures MetricsAccounted(Next(s, step, batchSize).value, w)
  {
    hide MetricsAccounted, OfMetrics, QueueStep, ClientStep;
    if IsQueueStep(step) {
      QueueMetricsAccounted(s, step, w);
    } else {
      ClientMetricsAccounted(s, step, batchSize, w);
    }
  }

  lemma ClientMetricsAccounted(s: State, step: Step, batchSize: int, w: Weight)
    requires OfMetrics(w) && MetricsAccounted(s, w) && !IsQueueStep(step) && ClientStep(s, step, batchSize).Some?
    ensures MetricsAccounted(ClientStep(s, step, batchSize).value, w)
  {
    hide Total, ClientsHoldMetrics, OfMetrics, MetricsAccounted, AfterTake, Append;
    var c := step.c;
    if step.EmitRecord? {
      EmitMetricsAccounted(s, c, step.r, batchSize, w);
    } else if step.FlushTake? || step.LastTake? {
      TakeMetricsAccounted(s, c, step.LastTake?, w);
    } else if step.PostMetrics? {
      PostMetricsAccounted(s, c, w);
    } else {
      MoveMetricsAccounted(s, step, batchSize, w);
    }
  }

  lemma EmitMetricsAccounted(s: State, c: nat, r: Rec, batchSize: int, w: Weight)
    requires OfMetrics(w) && MetricsAccounted(s, w) && At(s, c, Idle)
    ensures MetricsAccounted(ClientStep(s, EmitRecord(c, r), batchSize).value, w)
  {
    hide Total, ClientsHoldMetrics, OfMetrics;
    var pending := Append(s.shared, r, batchSize).1;
    EmitTotal(s, r, batchSize, w);
    if pending.Some? {
      ClientsUpdate(s.clients, c, HandingOff(pending.value), w);
    }
  }

  lemma TakeMetricsAccounted(s: State, c: nat, last: bool, w: Weight)
    requires MetricsAccounted(s, w) && c < |s.clients| && ClientHoldsMetrics(s.clients[c], w) == 0
    ensures MetricsAccounted(Go(AfterTake(s), c, Flushing(TakeAll(s.shared).1, last)), w)
  {
    hide Total, ClientsHoldMetrics;
    var took := TakeAll(s.shared).1;
    TotalSnoc(s.taken, took, w);
    ClientsUpdate(s.clients, c, Flushing(took, last), w);
  }

  lemma PostMetricsAccounted(s: State, c: nat, w: Weight)
    requires OfMetrics(w) && MetricsAccounted(s, w) && c < |s.clients| && s.clients[c].FlushingMetrics?
    ensures var pc := s.clients[c]; MetricsAccounted(Go(PostM(s, pc.taken), c, if pc.last then Down else Idle), w)
  {
    hide Total, ClientsHoldMetrics, OfMetrics;
    var pc := s.clients[c];
    PostTotal(s, pc.taken, w);
    ClientsUpdate(s.clients, c, if pc.last then Down else Idle, w);
  }

  lemma MoveMetricsAccounted(s: State, step: Step, batchSize: int, w: Weight)
    requires MetricsAccounted(s, w) && !IsQueueStep(step) && ClientStep(s, step, batchSize).Some?
    requires !step.EmitRecord? && !step.FlushTake? && !step.LastTake? && !step.PostMetrics?
    ensures MetricsAccounted(ClientStep(s, step, batchSize).value, w)
  {
    hide Total, ClientsHoldMetrics;
    var t, c := ClientStep(s, step, batchSize).value, step.c;
    ClientsUpdate(s.clients, c, t.clients[c], w);
    assert s.clients[c := t.clients[c]] == t.clients;
  }

  lemma EmitTotal(s: State, r: Rec, batchSize: int, w: Weight)
    requires OfMetrics(w)
    ensures var pending := Append(s.shared, r, batchSize).1;
            pending.Some? ==> Total(s.taken + [pending.value], w) == Total(s.taken, w)
  {
  }

  lemma QueueMetricsAccounted(s: State, step: Step, w: Weight)
    requires OfMetrics(w) && MetricsAccounted(s, w) && IsQueueStep(step) && QueueStep(s, step).Some?
    ensures MetricsAccounted(QueueStep(s, step).value, w)
  {
    hide Total, ClientsHoldMetrics, OfMetrics;
    match step
    case WorkerNext =>
      if s.queue[0].Barrier? && At(s, s.queue[0].client, Waiting) {
        ClientsUpdate(s.clients, s.queue[0].client, Drained, w);
      }
    case WorkerTake => TotalSnoc(s.taken, TakeAll(s.shared).1, w);
    case WorkerMetrics => PostTotal(s, s.worker.taken, w);
    case _ =>
  }

  /** No client has anything to hand off or to post. */
  predicate EmptyHanded(cs: seq<Client>) {
    forall i :: 0 <= i < |cs| ==> !cs[i].HandingOff? && !cs[i].Flushing? && !cs[i].FlushingMetrics?
  }

  lemma {:induction false} EmptyHandedHold(cs: seq<Client>, w: Weight)
    requires EmptyHanded(cs)
    ensures ClientsHold(cs, w) == 0 && ClientsHoldMetrics(cs, w) == 0
  {
    if cs != [] {
      EmptyHandedHold(cs[1..], w);
    }
  }

  /** In every interleaving, each take is posted once, or waits in exactly one place to be. */
  lemma {:induction false} PostedOnce(n: nat, steps: seq<Step>, batchSize: int, w: Weight)
    requires Run(Start(n), steps, batchSize).Some?
    ensures OfLogs(w) ==> LogsAccounted(Run(Start(n), steps, batchSize).value, w)
    ensures OfMetrics(w) ==> MetricsAccounted(Run(Start(n), steps, batchSize).value, w)
  {
    if steps == [] {
      EmptyHandedHold(Clients(n), w);
    } else {
      hide Next, LogsAccounted, MetricsAccounted, OfLogs, OfMetrics;
      PostedOnce(n, steps[..|steps| - 1], batchSize, w);
      var s := Run(Start(n), steps[..|steps| - 1], batchSize).value;
      if OfLogs(w) {
        StepLogsAccounted(s, steps[|steps| - 1], batchSize, w);
      }
      if OfMetrics(w) {
        StepMetricsAccounted(s, steps[|steps| - 1], batchSize, w);
      }
    }
  }

  /** How often one record occurs in a take. */
  function Occurrences(r: Rec): Weight {
    (t: Taken) => multiset(t.logs)[r]
  }

  function MetricOccurrences(m: Snapshot): Weight {
    (t: Taken) => multiset(t.metrics)[m]
  }

  lemma {:induction false} TotalOccurrences(ts: seq<Taken>, x: nat)
    ensures Total(ts, Occurrences(x)) == multiset(Logs(ts))[x]
    ensures Total(ts, MetricOccurrences(x)) == multiset(Metrics(ts))[x]
  {
    if ts != [] {
      TotalOccurrences(ts[..|ts| - 1], x);
    }
  }

  lemma OccurrencesOfLogs(x: nat)
    ensures OfLogs(Occurrences(x)) && OfMetrics(MetricOccurrences(x))
  {
  }

  // ----- Nothing empty is posted

  predicate PostedSomething(s: State) {
    && (forall i :: 0 <= i < |s.posted| ==> s.posted[i].logs != [])
    && (forall i :: 0 <= i < |s.postedMetrics| ==> s.postedMetrics[i].metrics != [])
  }

  lemma PostedSomethingStep(s: State, step: Step, batchSize: int)
    requires PostedSomething(s) && Next(s, step, batchSize).Some?
    ensures PostedSomething(Next(s, step, batchSize).value)
  {
    hide Append, TakeAll;
  }

  /** In every interleaving, every batch posted to the logs endpoint has a record and every one posted to metrics a snapshot. */
  lemma {:induction false} NothingEmptyPosted(n: nat, steps: seq<Step>, batchSize: int)
    requires Run(Start(n), steps, batchSize).Some?
    ensures PostedSomething(Run(Start(n), steps, batchSize).value)
  {
    if steps != [] {
      hide Next, PostedSomething;
      NothingEmptyPosted(n, steps[..|steps| - 1], batchSize);
      PostedSomethingStep(Run(Start(n), steps[..|steps| - 1], batchSize).value, steps[|steps| - 1], batchSize);
    }
  }

  // ----- Runs in pieces

  lemma {:induction false} RunConcat(s: State, a: seq<Step>, b: seq<Step>, batchSize: int)
    ensures Run(s, a + b, batchSize) == match Run(s, a, batchSize) case None => None case Some(t) => Run(t, b, batchSize)
  {
    hide Next;
    if b == [] {
      assert a + b == a;
    } else {
      assert (a + b)[..|a + b| - 1] == a + b[..|b| - 1];
      RunConcat(s, a, b[..|b| - 1], batchSize);
    }
  }

  lemma RunOne(s: State, step: Step, batchSize: int)
    ensures Run(s, [step], batchSize) == Next(s, step, batchSize)
  {
    assert [step][..0] == [];
  }

  lemma RunTwo(s: State, a: Step, b: Step, batchSize: int)
    ensures Run(s, [a, b], batchSize) == match Next(s, a, batchSize) case None => None case Some(t) => Next(t, b, batchSize)
  {
    hide Next;
    assert [a, b][..1] == [a];
    RunOne(s, a, batchSize);
  }
}
