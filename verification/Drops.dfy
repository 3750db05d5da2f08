/** Drop counts: where reported drops end up, and which deployments can lose them. */
module Drops {
  import opened Common
  import opened OtlpState
  import opened OtlpBatcher
  import opened Deployments
  import Shutdown

  function DropsWeight(): Weight {
    (t: Taken) => if t.logs == [] then 0 else t.drops
  }

  /** Drops taken when there was no record to report them with: they are reported nowhere. */
  function Unreported(ts: seq<Taken>): nat {
    if ts == [] then 0
    else Unreported(ts[..|ts| - 1]) + if ts[|ts| - 1].logs == [] then ts[|ts| - 1].drops else 0
  }

  lemma {:induction false} DropsSplit(ts: seq<Taken>)
    ensures Drops(ts) == Total(ts, DropsWeight()) + Unreported(ts)
  {
    if ts != [] {
      DropsSplit(ts[..|ts| - 1]);
    }
  }

  /** Drops on their way to be posted: with a client, in the queue or with the sender. */
  function OnTheWay(s: State): nat {
    ClientsHold(s.clients, DropsWeight()) + QueueHolds(s.queue, DropsWeight()) + WorkerHolds(s.worker, DropsWeight())
  }

  /**
   In every interleaving, the drops reported are those posted with records, those on their way, those
   still pending, and those that a take without records discarded.
   */
  lemma {:induction false} DropsAccounted(n: nat, steps: seq<Step>, batchSize: int)
    requires Run(Start(n), steps, batchSize).Some?
    ensures var s := Run(Start(n), steps, batchSize).value;
            Total(s.posted, DropsWeight()) + OnTheWay(s) + s.shared.drops + Unreported(s.taken) == s.reported
  {
    hide Run, Total, Drops, Unreported;
    assert OfLogs(DropsWeight());
    PostedOnce(n, steps, batchSize, DropsWeight());
    TakenInOrder(n, steps, batchSize);
    DropsSplit(Run(Start(n), steps, batchSize).value.taken);
  }

  // ----- Which deployments lose drops

  ghost predicate RunKeepsDrops(d: Deployment, steps: seq<Step>) {
    AllAllowed(d, steps) && Run(Start(d.clients), steps, d.batchSize).Some? ==>
      Unreported(Run(Start(d.clients), steps, d.batchSize).value.taken) == 0
  }

  ghost predicate KeepsDrops(d: Deployment) {
    forall steps :: RunKeepsDrops(d, steps)
  }

  /** Batches are taken by emitters only. */
  predicate EmittersOnly(d: Deployment) {
    !d.timer && d.flushers == {} && d.closers == {}
  }

  lemma UnreportedSnoc(ts: seq<Taken>, t: Taken)
    ensures Unreported(ts + [t]) == Unreported(ts) + if t.logs == [] then t.drops else 0
  {
    assert (ts + [t])[..|ts|] == ts;
  }

  predicate NoTaker(s: State) {
    && (forall i :: 0 <= i < |s.clients| ==> s.clients[i].Idle? || s.clients[i].HandingOff?)
    && (forall i :: 0 <= i < |s.queue| ==> s.queue[i].PostJob?)
    && (s.worker.Resting? || s.worker.Posting?)
    && Unreported(s.taken) == 0
  }

  lemma NoTakerStep(s: State, step: Step, batchSize: int)
    requires NoTaker(s) && Next(s, step, batchSize).Some?
    requires !step.TimerFire? && !step.FlushTake? && !step.Cancel?
    ensures NoTaker(Next(s, step, batchSize).value)
  {
    hide Unreported;
    if step.EmitRecord? {
      UnreportedSnoc(s.taken, Taken(s.shared.batch + [step.r], s.shared.drops, []));
    }
  }

  lemma {:induction false} NoTakerRun(d: Deployment, steps: seq<Step>)
    requires EmittersOnly(d) && AllAllowed(d, steps) && Run(Start(d.clients), steps, d.batchSize).Some?
    ensures NoTaker(Run(Start(d.clients), steps, d.batchSize).value)
  {
    if steps != [] {
      hide Next, NoTaker;
      var front, step := steps[..|steps| - 1], steps[|steps| - 1];
      NoTakerRun(d, front);
      assert Allowed(d, step);
      NoTakerStep(Run(Start(d.clients), front, d.batchSize).value, step, d.batchSize);
    }
  }

  /** A client that reports drops and then flushes loses them, whatever their number. */
  lemma {:induction false} FlushLosesDrops(n: nat, f: nat, drops: nat, batchSize: int)
    requires f < n
    ensures var r := Run(Start(n), [ReportDrops(f, drops), FlushTake(f)], batchSize);
            r.Some? && r.value.reported == drops && Unreported(r.value.taken) == drops
  {
    hide Run;
    RunTwo(Start(n), ReportDrops(f, drops), FlushTake(f), batchSize);
    UnreportedSnoc([], Taken([], drops, []));
  }

  /** So does the timer when its turn comes before the next record. */
  lemma {:induction false} TimerLosesDrops(n: nat, drops: nat, batchSize: int)
    requires n > 0
    ensures var r := Run(Start(n), [ReportDrops(0, drops), TimerFire] + [WorkerNext, WorkerTake], batchSize);
            r.Some? && r.value.reported == drops && Unreported(r.value.taken) == drops
  {
    hide Run;
    var s := Start(n).(shared := EMPTY.(drops := drops), reported := drops, queue := [TimerJob]);
    RunTwo(Start(n), ReportDrops(0, drops), TimerFire, batchSize);
    assert [] + [TimerJob] == [TimerJob];
    RunConcat(Start(n), [ReportDrops(0, drops), TimerFire], [WorkerNext, WorkerTake], batchSize);
    RunTwo(s, WorkerNext, WorkerTake, batchSize);
    UnreportedSnoc([], Taken([], drops, []));
  }

  /** And so does the last flush of a shutdown. */
  lemma {:induction false} ShutdownLosesDrops(n: nat, f: nat, drops: nat, batchSize: int)
    requires f < n
    ensures var r := Run(Start(n), [ReportDrops(f, drops)] + ([Cancel(f), Sync(f)] + [WorkerNext]) + [LastTake(f)], batchSize);
            r.Some? && r.value.reported == drops && Unreported(r.value.taken) == drops
  {
    hide Run;
    var s := Start(n).(shared := EMPTY.(drops := drops), reported := drops);
    var pass := [Cancel(f), Sync(f)] + [WorkerNext];
    RunOne(Start(n), ReportDrops(f, drops), batchSize);
    Shutdown.PassBarrier(s, f, batchSize);
    RunOne(Go(s.(timer := false), f, Drained), LastTake(f), batchSize);
    RunConcat(Start(n), [ReportDrops(f, drops)], pass, batchSize);
    RunConcat(Start(n), [ReportDrops(f, drops)] + pass, [LastTake(f)], batchSize);
    UnreportedSnoc([], Taken([], drops, []));
  }

  /** A deployment loses no drops, in any run, exactly when nothing but an emitter ever takes a batch. */
  lemma {:induction false} DropsKeptExactly(d: Deployment)
    requires Deployed(d)
    ensures KeepsDrops(d) <==> d.clients == 0 || EmittersOnly(d)
  {
    hide Run;
    if EmittersOnly(d) {
      forall steps
        ensures RunKeepsDrops(d, steps)
      {
        if AllAllowed(d, steps) && Run(Start(d.clients), steps, d.batchSize).Some? {
          NoTakerRun(d, steps);
        }
      }
    } else if d.clients == 0 {
      forall steps
        ensures RunKeepsDrops(d, steps)
      {
        NobodyReports(steps, d.batchSize);
      }
    } else if f :| f in d.flushers {
      assert f in d.emitters + d.flushers + d.closers;
      FlushLosesDrops(d.clients, f, 1, d.batchSize);
      assert !RunKeepsDrops(d, [ReportDrops(f, 1), FlushTake(f)]);
    } else if f :| f in d.closers {
      assert f in d.emitters + d.flushers + d.closers;
      ShutdownLosesDrops(d.clients, f, 1, d.batchSize);
      assert !RunKeepsDrops(d, [ReportDrops(f, 1)] + ([Cancel(f), Sync(f)] + [WorkerNext]) + [LastTake(f)]);
    } else {
      TimerLosesDrops(d.clients, 1, d.batchSize);
      assert !RunKeepsDrops(d, [ReportDrops(0, 1), TimerFire] + [WorkerNext, WorkerTake]);
    }
  }

  predicate Nobody(s: State) {
    s.clients == [] && s.shared.drops == 0 && Unreported(s.taken) == 0
  }

  lemma NobodyStep(s: State, step: Step, batchSize: int)
    requires Nobody(s) && Next(s, step, batchSize).Some?
    ensures Nobody(Next(s, step, batchSize).value)
  {
    hide Unreported;
    UnreportedSnoc(s.taken, TakeAll(s.shared).1);
  }

  lemma {:induction false} NobodyReports(steps: seq<Step>, batchSize: int)
    ensures var r := Run(Start(0), steps, batchSize); r.Some? ==> Nobody(r.value)
  {
    if steps != [] {
      hide Next, Nobody;
      var front := steps[..|steps| - 1];
      NobodyReports(front, batchSize);
      if Run(Start(0), steps, batchSize).Some? {
        NobodyStep(Run(Start(0), front, batchSize).value, steps[|steps| - 1], batchSize);
      }
    }
  }
}
