/**
 Shutting down: a client cancels the timer, waits behind a barrier on the sender queue, flushes once
 more and returns.  What other clients may do meanwhile without a record being left behind, and why
 the wait always ends.
 */
module Shutdown {
  import opened Common
  import opened OtlpState
  import opened OtlpBatcher

  // ----- Barriers

  /** The barriers in the queue are those of the clients that wait, one for each. */
  ghost predicate Awaited(s: State) {
    && (forall c: nat :: Barrier(c) in s.queue <==> At(s, c, Waiting))
    && (forall i, j :: 0 <= i < j < |s.queue| && s.queue[i].Barrier? ==> s.queue[i] != s.queue[j])
  }

  /** The timer is off once a client has begun to shut down. */
  predicate TimerOff(s: State) {
    forall i :: 0 <= i < |s.clients| && (s.clients[i].Cancelled? || s.clients[i].Waiting?) ==> !s.timer
  }

  lemma AwaitedSync(s: State, c: nat)
    requires Awaited(s) && At(s, c, Cancelled)
    ensures Awaited(Go(s.(queue := s.queue + [Barrier(c)]), c, Waiting))
  {
    var t := Go(s.(queue := s.queue + [Barrier(c)]), c, Waiting);
    assert Barrier(c) !in s.queue;
    forall d: nat
      ensures Barrier(d) in t.queue <==> At(t, d, Waiting)
    {
      assert Barrier(d) in t.queue <==> Barrier(d) in s.queue || d == c;
    }
  }

  lemma AwaitedNext(s: State)
    requires Awaited(s) && QueueStep(s, WorkerNext).Some?
    ensures Awaited(QueueStep(s, WorkerNext).value)
  {
    var t, first := QueueStep(s, WorkerNext).value, s.queue[0];
    assert s.queue == [first] + t.queue;
    assert forall i :: 0 <= i < |t.queue| ==> t.queue[i] == s.queue[i + 1];
    forall d: nat
      ensures Barrier(d) in t.queue <==> At(t, d, Waiting)
    {
      assert Barrier(d) in s.queue <==> Barrier(d) == first || Barrier(d) in t.queue;
    }
  }

  /** Steps that queue no barrier and do not move a waiting client. */
  lemma AwaitedSame(s: State, t: State, c: nat)
    requires Awaited(s) && |t.clients| == |s.clients|
    requires t.clients == s.clients || (c < |s.clients| && t.clients == s.clients[c := t.clients[c]] && s.clients[c] != Waiting && t.clients[c] != Waiting)
    requires t.queue == s.queue || exists j: Job :: !j.Barrier? && t.queue == s.queue + [j]
    ensures Awaited(t)
  {
    forall d: nat
      ensures Barrier(d) in t.queue <==> At(t, d, Waiting)
    {
      assert Barrier(d) in t.queue <==> Barrier(d) in s.queue;
    }
  }

  lemma QueueUntouched(s: State, step: Step)
    requires IsQueueStep(step) && !step.WorkerNext? && QueueStep(s, step).Some?
    ensures var t := QueueStep(s, step).value; t.clients == s.clients && (t.queue == s.queue || t.queue == s.queue + [TimerJob])
  {
    hide TakeAll;
  }

  lemma ClientMoves(s: State, step: Step, batchSize: int)
    requires !IsQueueStep(step) && !step.Sync? && ClientStep(s, step, batchSize).Some?
    ensures var t, c := ClientStep(s, step, batchSize).value, step.c;
            && c < |s.clients| == |t.clients| && t.clients == s.clients[c := t.clients[c]]
            && s.clients[c] != Waiting && t.clients[c] != Waiting
            && (t.queue == s.queue || exists b :: t.queue == s.queue + [PostJob(b)])
  {
    hide Append, TakeAll;
  }

  lemma AwaitedStep(s: State, step: Step, batchSize: int)
    requires Awaited(s) && Next(s, step, batchSize).Some?
    ensures Awaited(Next(s, step, batchSize).value)
  {
    hide Awaited, AfterTake, Append;
    var t := Next(s, step, batchSize).value;
    if step.Sync? {
      AwaitedSync(s, step.c);
    } else if step.WorkerNext? {
      AwaitedNext(s);
    } else if IsQueueStep(step) {
      QueueUntouched(s, step);
      AwaitedSame(s, t, 0);
    } else {
      ClientMoves(s, step, batchSize);
      AwaitedSame(s, t, step.c);
    }
  }

  lemma TimerOffStep(s: State, step: Step, batchSize: int)
    requires TimerOff(s) && Next(s, step, batchSize).Some?
    ensures TimerOff(Next(s, step, batchSize).value)
  {
    hide TakeAll, Append;
  }

  /** In every interleaving exactly the waiting clients have a barrier queued, and the timer is off while one waits. */
  lemma {:induction false} RunAwaited(n: nat, steps: seq<Step>, batchSize: int)
    requires Run(Start(n), steps, batchSize).Some?
    ensures var s := Run(Start(n), steps, batchSize).value; Awaited(s) && TimerOff(s)
  {
    if steps != [] {
      hide Next, Awaited, TimerOff;
      var s := Run(Start(n), steps[..|steps| - 1], batchSize).value;
      RunAwaited(n, steps[..|steps| - 1], batchSize);
      AwaitedStep(s, steps[|steps| - 1], batchSize);
      TimerOffStep(s, steps[|steps| - 1], batchSize);
    }
  }

  // ----- How far a client is past its barrier

  predicate BarriersOnly(q: seq<Job>) {
    forall i :: 0 <= i < |q| ==> q[i].Barrier?
  }

  predicate BarriersBehind(q: seq<Job>, c: nat) {
    forall i, j :: 0 <= i < j < |q| && q[i] == Barrier(c) ==> q[j].Barrier?
  }

  predicate NothingLeft(s: State) {
    s.shared.batch == [] && s.shared.metrics == []
  }

  predicate Stage(s: State, c: nat) {
    && c < |s.clients| && !s.timer
    && match s.clients[c]
       case Waiting => BarriersBehind(s.queue, c)
       case Drained => BarriersOnly(s.queue) && s.worker.Resting?
       case Flushing(_, last) => last && BarriersOnly(s.queue) && s.worker.Resting? && NothingLeft(s)
       case FlushingMetrics(_, last) => last && BarriersOnly(s.queue) && s.worker.Resting? && NothingLeft(s)
       case Down => BarriersOnly(s.queue) && s.worker.Resting? && NothingLeft(s)
       case _ => false
  }

  predicate BeforeLastTake(s: State, c: nat) {
    c < |s.clients| && (s.clients[c].Waiting? || s.clients[c].Drained?)
  }

  predicate Emits(step: Step) {
    step.EmitRecord? || step.EmitSnapshot?
  }

  lemma StageSync(s: State, c: nat, batchSize: int)
    requires Awaited(s) && TimerOff(s) && Next(s, Sync(c), batchSize).Some?
    ensures Stage(Next(s, Sync(c), batchSize).value, c) && BeforeLastTake(Next(s, Sync(c), batchSize).value, c)
  {
    assert Barrier(c) !in s.queue;
  }

  lemma StageQueueStep(s: State, step: Step, c: nat)
    requires Stage(s, c) && IsQueueStep(step) && QueueStep(s, step).Some?
    ensures var t := QueueStep(s, step).value; Stage(t, c) && (BeforeLastTake(s, c) ==> BeforeLastTake(t, c))
  {
    var t := QueueStep(s, step).value;
    if step.WorkerNext? {
      assert forall i :: 0 <= i < |t.queue| ==> t.queue[i] == s.queue[i + 1];
      assert s.queue[0] == Barrier(c) && s.clients[c].Waiting? ==> BarriersOnly(t.queue);
    }
  }

  lemma StageClientStep(s: State, step: Step, batchSize: int, c: nat)
    requires Stage(s, c) && !IsQueueStep(step) && ClientStep(s, step, batchSize).Some?
    requires !step.HandOff? && (Emits(step) ==> BeforeLastTake(s, c))
    ensures var t := ClientStep(s, step, batchSize).value;
            Stage(t, c) && (BeforeLastTake(s, c) && step != LastTake(c) ==> BeforeLastTake(t, c))
  {
    hide Append;
  }

  lemma StageStep(s: State, step: Step, batchSize: int, c: nat)
    requires Stage(s, c) && Next(s, step, batchSize).Some?
    requires !step.HandOff? && (Emits(step) ==> BeforeLastTake(s, c))
    ensures var t := Next(s, step, batchSize).value;
            Stage(t, c) && (BeforeLastTake(s, c) && step != LastTake(c) ==> BeforeLastTake(t, c))
  {
    hide Stage, BeforeLastTake, QueueStep, ClientStep;
    if IsQueueStep(step) {
      StageQueueStep(s, step, c);
    } else {
      StageClientStep(s, step, batchSize, c);
    }
  }

  /**
   What must not happen while a client shuts down: a batch handed off behind its barrier, or a record
   or snapshot accepted after its last take.
   */
  predicate Undisturbed(steps: seq<Step>, c: nat) {
    && (forall i :: 0 <= i < |steps| ==> !steps[i].HandOff?)
    && (forall i, j :: 0 <= i < j < |steps| && steps[i] == LastTake(c) ==> !Emits(steps[j]))
  }

  lemma {:induction false} RunStage(s: State, steps: seq<Step>, batchSize: int, c: nat)
    requires Stage(s, c) && BeforeLastTake(s, c) && Undisturbed(steps, c) && Run(s, steps, batchSize).Some?
    ensures var t := Run(s, steps, batchSize).value; Stage(t, c) && (BeforeLastTake(t, c) || LastTake(c) in steps)
  {
    if steps != [] {
      hide Next, Stage, BeforeLastTake;
      var front, step := steps[..|steps| - 1], steps[|steps| - 1];
      RunStage(s, front, batchSize, c);
      assert steps == front + [step];
      StageStep(Run(s, front, batchSize).value, step, batchSize, c);
    }
  }

  // ----- Nothing is left behind

  lemma BarriersHold(q: seq<Job>, w: Weight)
    requires BarriersOnly(q)
    ensures QueueHolds(q, w) == 0
    decreases |q|
  {
    if q != [] {
      BarriersHold(q[1..], w);
    }
  }

  lemma AllPosted(n: nat, steps: seq<Step>, batchSize: int, x: nat)
    requires Run(Start(n), steps, batchSize).Some?
    requires var s := Run(Start(n), steps, batchSize).value; EmptyHanded(s.clients) && BarriersOnly(s.queue) && s.worker.Resting?
    ensures var s := Run(Start(n), steps, batchSize).value;
            && multiset(Logs(s.posted))[x] == multiset(Logs(s.taken))[x]
            && multiset(Metrics(s.postedMetrics))[x] == multiset(Metrics(s.taken))[x]
  {
    hide Run, Logs, Metrics, Total, EmptyHanded;
    var s := Run(Start(n), steps, batchSize).value;
    OccurrencesOfLogs(x);
    PostedOnce(n, steps, batchSize, Occurrences(x));
    PostedOnce(n, steps, batchSize, MetricOccurrences(x));
    EmptyHandedHold(s.clients, Occurrences(x));
    EmptyHandedHold(s.clients, MetricOccurrences(x));
    BarriersHold(s.queue, Occurrences(x));
    TotalOccurrences(s.posted, x);
    TotalOccurrences(s.postedMetrics, x);
    TotalOccurrences(s.taken, x);
  }

  /**
   From the moment a client queues its barrier, other clients may flush, shut down, report drops, and
   until its last take even emit.  If no batch is handed off behind the barrier and nothing is accepted
   after the last take, then once it has returned and no flush is under way, each accepted record and
   snapshot has been handed to `post` exactly as often as it was accepted.
   */
  lemma {:induction false} ShutdownPostsEverything(n: nat, before: seq<Step>, c: nat, after: seq<Step>, batchSize: int)
    requires Run(Start(n), before + [Sync(c)] + after, batchSize).Some?
    requires Undisturbed(after, c)
    requires var s := Run(Start(n), before + [Sync(c)] + after, batchSize).value; At(s, c, Down) && EmptyHanded(s.clients)
    ensures var s := Run(Start(n), before + [Sync(c)] + after, batchSize).value;
            && multiset(Logs(s.posted)) == multiset(s.accepted)
            && multiset(Metrics(s.postedMetrics)) == multiset(s.acceptedMetrics)
  {
    ShutdownQuiet(n, before, c, after, batchSize);
    var steps := before + [Sync(c)] + after;
    var s := Run(Start(n), steps, batchSize).value;
    TakenInOrder(n, steps, batchSize);
    assert s.shared.batch == [] && Logs(s.taken) == s.accepted && Metrics(s.taken) == s.acceptedMetrics;
    forall x: nat
      ensures multiset(Logs(s.posted))[x] == multiset(s.accepted)[x]
      ensures multiset(Metrics(s.postedMetrics))[x] == multiset(s.acceptedMetrics)[x]
    {
      AllPosted(n, steps, batchSize, x);
    }
  }

  /** Such a shutdown leaves no batch in the queue or with the sender, and nothing in the current batches. */
  lemma {:induction false} ShutdownQuiet(n: nat, before: seq<Step>, c: nat, after: seq<Step>, batchSize: int)
    requires Run(Start(n), before + [Sync(c)] + after, batchSize).Some?
    requires Undisturbed(after, c)
    requires At(Run(Start(n), before + [Sync(c)] + after, batchSize).value, c, Down)
    ensures var s := Run(Start(n), before + [Sync(c)] + after, batchSize).value;
            BarriersOnly(s.queue) && s.worker.Resting? && NothingLeft(s)
  {
    hide Run, Next, Awaited, TimerOff, Undisturbed;
    RunConcat(Start(n), before + [Sync(c)], after, batchSize);
    RunConcat(Start(n), before, [Sync(c)], batchSize);
    var s := Run(Start(n), before, batchSize).value;
    RunOne(s, Sync(c), batchSize);
    RunAwaited(n, before, batchSize);
    StageSync(s, c, batchSize);
    RunStage(Next(s, Sync(c), batchSize).value, after, batchSize, c);
  }

  // ----- The wait ends

  /** A step of the sender, which no client can hold up, or of the client itself. */
  predicate SenderOr(step: Step, c: nat) {
    step.WorkerNext? || step.WorkerPost? || step.WorkerTake? || step.WorkerLogs? || step.WorkerMetrics?
    || step == Sync(c) || step == LastTake(c) || step == PostLogs(c) || step == PostMetrics(c)
  }

  predicate SenderAndSelf(steps: seq<Step>, c: nat) {
    forall i :: 0 <= i < |steps| ==> SenderOr(steps[i], c)
  }

  /** The sender can always finish the job in hand. */
  lemma FinishJob(s: State, c: nat, batchSize: int) returns (steps: seq<Step>)
    ensures SenderAndSelf(steps, c)
    ensures var r := Run(s, steps, batchSize);
            r.Some? && r.value.worker.Resting? && r.value.clients == s.clients && r.value.queue == s.queue
  {
    hide Run, TakeAll;
    match s.worker
    case Resting =>
      steps := [];
      assert Run(s, [], batchSize) == Some(s) by {
        RunNone(s, batchSize);
      }
    case Posting(_) =>
      steps := [WorkerPost];
      RunOne(s, WorkerPost, batchSize);
    case TimerStart =>
      steps := [WorkerTake, WorkerLogs] + [WorkerMetrics];
      RunTwo(s, WorkerTake, WorkerLogs, batchSize);
      RunConcat(s, [WorkerTake, WorkerLogs], [WorkerMetrics], batchSize);
      RunOne(Run(s, [WorkerTake, WorkerLogs], batchSize).value, WorkerMetrics, batchSize);
    case TimerLogs(_) =>
      steps := [WorkerLogs, WorkerMetrics];
      RunTwo(s, WorkerLogs, WorkerMetrics, batchSize);
    case TimerMetrics(_) =>
      steps := [WorkerMetrics];
      RunOne(s, WorkerMetrics, batchSize);
  }

  lemma RunNone(s: State, batchSize: int)
    ensures Run(s, [], batchSize) == Some(s)
  {
  }

  /** By finishing and fetching jobs it reaches the client's barrier. */
  lemma {:induction false} ReachBarrier(s: State, c: nat, batchSize: int) returns (steps: seq<Step>)
    requires At(s, c, Waiting) && Barrier(c) in s.queue
    ensures SenderAndSelf(steps, c)
    ensures Run(s, steps, batchSize).Some? && At(Run(s, steps, batchSize).value, c, Drained)
    decreases |s.queue|
  {
    hide Run;
    var finish := FinishJob(s, c, batchSize);
    var t := Run(s, finish, batchSize).value;
    assert t.queue == s.queue && At(t, c, Waiting);
    var u := Next(t, WorkerNext, batchSize).value;
    RunOne(t, WorkerNext, batchSize);
    RunConcat(s, finish, [WorkerNext], batchSize);
    if s.queue[0] == Barrier(c) {
      steps := finish + [WorkerNext];
    } else {
      assert s.queue == [s.queue[0]] + u.queue;
      var more := ReachBarrier(u, c, batchSize);
      RunConcat(s, finish + [WorkerNext], more, batchSize);
      steps := finish + [WorkerNext] + more;
    }
  }

  /** From its cancellation on, a shutdown can always be completed by the sender and the client alone. */
  lemma {:induction false} ShutdownCanFinish(n: nat, steps: seq<Step>, c: nat, batchSize: int) returns (more: seq<Step>)
    requires Run(Start(n), steps, batchSize).Some?
    requires var s := Run(Start(n), steps, batchSize).value; At(s, c, Cancelled) || At(s, c, Waiting)
    ensures SenderAndSelf(more, c)
    ensures Run(Start(n), steps + more, batchSize).Some? && At(Run(Start(n), steps + more, batchSize).value, c, Down)
  {
    hide Run, Next;
    var s := Run(Start(n), steps, batchSize).value;
    var sync := if At(s, c, Cancelled) then [Sync(c)] else [];
    Queued(n, steps, c, batchSize);
    RunConcat(Start(n), steps, sync, batchSize);
    var t := Run(Start(n), steps + sync, batchSize).value;
    var drain := ReachBarrier(t, c, batchSize);
    var u := Run(t, drain, batchSize).value;
    LastFlush(u, c, batchSize);
    var last := [LastTake(c)] + [PostLogs(c), PostMetrics(c)];
    RunConcat(Start(n), steps + sync, drain, batchSize);
    RunConcat(Start(n), steps + sync + drain, last, batchSize);
    more := sync + drain + last;
    assert steps + sync + drain + last == steps + more;
  }

  /** A client that waits, or has queued its barrier, finds it in the queue. */
  lemma Queued(n: nat, steps: seq<Step>, c: nat, batchSize: int)
    requires Run(Start(n), steps, batchSize).Some?
    requires var s := Run(Start(n), steps, batchSize).value; At(s, c, Cancelled) || At(s, c, Waiting)
    ensures var s := Run(Start(n), steps, batchSize).value;
            var r := Run(s, if At(s, c, Cancelled) then [Sync(c)] else [], batchSize);
            r.Some? && At(r.value, c, Waiting) && Barrier(c) in r.value.queue
  {
    hide Run;
    var s := Run(Start(n), steps, batchSize).value;
    RunAwaited(n, steps, batchSize);
    RunOne(s, Sync(c), batchSize);
    RunNone(s, batchSize);
  }

  lemma LastFlush(s: State, c: nat, batchSize: int)
    requires At(s, c, Drained)
    ensures var r := Run(s, [LastTake(c)] + [PostLogs(c), PostMetrics(c)], batchSize); r.Some? && At(r.value, c, Down)
  {
    hide Run, TakeAll;
    RunOne(s, LastTake(c), batchSize);
    var t := Next(s, LastTake(c), batchSize).value;
    RunTwo(t, PostLogs(c), PostMetrics(c), batchSize);
    RunConcat(s, [LastTake(c)], [PostLogs(c), PostMetrics(c)], batchSize);
  }

  /** On an idle queue, cancelling, waiting and passing the barrier takes three steps. */
  lemma PassBarrier(s: State, f: nat, batchSize: int)
    requires At(s, f, Idle) && s.queue == [] && s.worker.Resting?
    ensures Run(s, [Cancel(f), Sync(f)] + [WorkerNext], batchSize) == Some(Go(s.(timer := false), f, Drained))
  {
    hide Run;
    var t := Go(s.(timer := false, queue := [Barrier(f)]), f, Waiting);
    RunTwo(s, Cancel(f), Sync(f), batchSize);
    assert s.clients[f := Cancelled][f := Waiting] == s.clients[f := Waiting] && [] + [Barrier(f)] == [Barrier(f)];
    RunConcat(s, [Cancel(f), Sync(f)], [WorkerNext], batchSize);
    RunOne(t, WorkerNext, batchSize);
    assert t.clients[f := Drained] == s.clients[f := Drained] && t.queue[1..] == [];
  }

  // ----- Why both conditions are there

  function Return(c: nat): seq<Step> {
    [PostLogs(c), PostMetrics(c)]
  }

  lemma PostNothing(s: State, c: nat, batchSize: int)
    requires At(s, c, Flushing(Taken([], 0, []), true))
    ensures Run(s, Return(c), batchSize) == Some(Go(s, c, Down))
  {
    hide Run;
    RunTwo(s, PostLogs(c), PostMetrics(c), batchSize);
    assert s.clients[c := FlushingMetrics(Taken([], 0, []), true)][c := Down] == s.clients[c := Down];
  }

  /** A record accepted after the last take stays behind. */
  lemma {:induction false} LateRecordStays(r: Rec, batchSize: int)
    requires batchSize > 1
    ensures var steps := [Cancel(0), Sync(0)] + [WorkerNext] + [LastTake(0), EmitRecord(1, r)] + Return(0);
            var run := Run(Start(2), steps, batchSize);
            && run.Some? && At(run.value, 0, Down) && EmptyHanded(run.value.clients)
            && run.value.accepted == [r] && run.value.posted == []
  {
    hide Run;
    var pass := [Cancel(0), Sync(0)] + [WorkerNext];
    var s := Go(Start(2).(timer := false), 0, Drained);
    var t := Go(s.(shared := EMPTY.(batch := [r]), accepted := [r], taken := [Taken([], 0, [])]), 0, Flushing(Taken([], 0, []), true));
    PassBarrier(Start(2), 0, batchSize);
    RunTwo(s, LastTake(0), EmitRecord(1, r), batchSize);
    assert [] + [r] == [r] && [] + [Taken([], 0, [])] == [Taken([], 0, [])];
    RunConcat(Start(2), pass, [LastTake(0), EmitRecord(1, r)], batchSize);
    PostNothing(t, 0, batchSize);
    RunConcat(Start(2), pass + [LastTake(0), EmitRecord(1, r)], Return(0), batchSize);
  }

  lemma NothingToFlush(s: State, c: nat, batchSize: int)
    requires At(s, c, Drained) && s.shared == EMPTY
    ensures Run(s, [LastTake(c)] + Return(c), batchSize) == Some(Go(s.(taken := s.taken + [Taken([], 0, [])]), c, Down))
  {
    hide Run;
    var t := Go(s.(taken := s.taken + [Taken([], 0, [])]), c, Flushing(Taken([], 0, []), true));
    RunOne(s, LastTake(c), batchSize);
    PostNothing(t, c, batchSize);
    RunConcat(s, [LastTake(c)], Return(c), batchSize);
    assert t.clients[c := Down] == s.clients[c := Down];
  }

  /** A batch handed off behind the barrier is still queued when the shutdown returns. */
  lemma {:induction false} LateBatchStays(r: Rec, batchSize: int)
    requires batchSize <= 1
    ensures var steps := [Cancel(0), Sync(0)] + [WorkerNext] + [EmitRecord(1, r), HandOff(1)] + [LastTake(0)] + Return(0);
            var run := Run(Start(2), steps, batchSize);
            && run.Some? && At(run.value, 0, Down) && EmptyHanded(run.value.clients)
            && run.value.accepted == [r] && run.value.posted == []
  {
    hide Run;
    var pass, late := [Cancel(0), Sync(0)] + [WorkerNext], [EmitRecord(1, r), HandOff(1)];
    var s := Go(Start(2).(timer := false), 0, Drained);
    var b := Taken([r], 0, []);
    var t := s.(accepted := [r], taken := [b], queue := [PostJob(b)]);
    PassBarrier(Start(2), 0, batchSize);
    RunTwo(s, EmitRecord(1, r), HandOff(1), batchSize);
    assert [] + [r] == [r] && [] + [b] == [b] && [] + [PostJob(b)] == [PostJob(b)] && s.clients[1 := HandingOff(b)][1 := Idle] == s.clients;
    RunConcat(Start(2), pass, late, batchSize);
    NothingToFlush(t, 0, batchSize);
    RunConcat(Start(2), pass + late, [LastTake(0)] + Return(0), batchSize);
    assert pass + late + ([LastTake(0)] + Return(0)) == pass + late + [LastTake(0)] + Return(0);
  }
}
