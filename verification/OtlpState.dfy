/**
 The lock-guarded state of `OTLPHTTPJSONExporter` and its critical sections.  A record is opaque
 here; a number names it.
 */
module OtlpState {
  import opened Common

  type Rec = nat
  type Snapshot = nat

  /** The fields that `lock` protects. */
  datatype Shared = Shared(batch: seq<Rec>, metrics: seq<Snapshot>, drops: nat)

  /** What one critical section takes out: log records with the drops to report, and metrics. */
  datatype Taken = Taken(logs: seq<Rec>, drops: nat, metrics: seq<Snapshot>)

  const EMPTY := Shared([], [], 0)

  /** `emit(event:)`: append, and take the whole batch when it is full. */
  function Append(s: Shared, r: Rec, batchSize: int): (Shared, Option<Taken>) {
    var batch := s.batch + [r];
    if |batch| >= batchSize then (s.(batch := [], drops := 0), Some(Taken(batch, s.drops, [])))
    else (s.(batch := batch), None)
  }

  /** `flush` and `timerFlush`: take everything. */
  function TakeAll(s: Shared): (Shared, Taken) {
    (EMPTY, Taken(s.batch, s.drops, s.metrics))
  }

  class Exporter {
    const batchSize: int
    var batch: seq<Rec>
    var metricsBatch: seq<Snapshot>
    var pendingDrops: nat

    ghost function State(): Shared
      reads this
    {
      Shared(batch, metricsBatch, pendingDrops)
    }

    constructor (batchSize: int)
      ensures this.batchSize == batchSize && State() == EMPTY
    {
      this.batchSize, batch, metricsBatch, pendingDrops := batchSize, [], [], 0;
    }

    /** `reportDrops`. */
    method ReportDrops(count: nat)
      modifies this
      ensures State() == old(State()).(drops := old(State()).drops + count)
    {
      pendingDrops := pendingDrops + count;
    }

    /** The critical section of `emit(event:)`; the result is handed to the sender queue. */
    method EmitRecord(r: Rec) returns (pending: Option<Taken>)
      modifies this
      ensures (State(), pending) == Append(old(State()), r, batchSize)
    {
      batch := batch + [r];
      var shouldFlush := |batch| >= batchSize;
      if shouldFlush {
        pending := Some(Taken(batch, pendingDrops, []));
        batch := [];
        pendingDrops := 0;
      } else {
        pending := None;
      }
    }

    /** `emit(snapshot:)`. */
    method EmitSnapshot(m: Snapshot)
      modifies this
      ensures State() == old(State()).(metrics := old(State()).metrics + [m])
    {
      metricsBatch := metricsBatch + [m];
    }

    /** The critical section of `flush` and `timerFlush`. */
    method TakePending() returns (t: Taken)
      modifies this
      ensures (State(), t) == TakeAll(old(State()))
    {
      t := Taken(batch, pendingDrops, metricsBatch);
      batch := [];
      metricsBatch := [];
      pendingDrops := 0;
    }
  }
}
