/** The import worker: one keyed command per file row, so that a replay creates nothing twice. */
module Import {
  import opened Prelude
  import opened Text
  import opened Inventory
  import opened Alerts
  import opened Shop
  import opened Idempotency
  import Refunds

  const CHECKPOINT_ROWS := 25
  const FIRST_ROW := 2

  /** A file row after normalisation. */
  datatype RowValues = RowValues(product: Product, initial: int)

  type Ledger = World<Tables, RowValues, nat>

  /** The row's command; its response is the new product. */
  function CreateRow(scope: string, row: RowValues, env: (), t: Tables): Result<(Tables, nat)> {
    var r := CreateProduct(t, row.product, row.initial);
    if r.Ok? then Ok((r.value, |t.products|)) else Err(r.error)
  }

  // ----- Row keys

  datatype Job = Job(organisation: nat, id: string)

  function RowKey(job: Job, row: nat): string {
    "import:" + job.id + ":row:" + Decimal(row)
  }

  function RowCall(job: Job, row: nat, values: RowValues): Call<RowValues, ()> {
    Call(job.organisation, "inventory.create_product", Some(RowKey(job, row)), values, ())
  }

  function RowId(job: Job, row: nat): KeyId {
    KeyId(job.organisation, "inventory.create_product", RowKey(job, row))
  }

  lemma {:induction false} KeyIsClean(job: Job, row: nat, values: RowValues)
    ensures RowCall(job, row, values).Id() == RowId(job, row)
  {
    var key := RowKey(job, row);
    assert key[0] == 'i';
    assert key[|key| - 1] == Decimal(row)[|Decimal(row)| - 1];
  }

  lemma {:induction false} KeysDiffer(job: Job, a: nat, b: nat)
    requires RowId(job, a) == RowId(job, b)
    ensures a == b
  {
    var prefix := "import:" + job.id + ":row:";
    assert Decimal(a) == RowKey(job, a)[|prefix|..] && Decimal(b) == RowKey(job, b)[|prefix|..];
    DecimalInjective(a, b);
  }

  /** So have the rows of different jobs, whose ids are all equally long. */
  lemma {:induction false} JobsDiffer(j: Job, k: Job, a: nat, b: nat)
    requires |j.id| == |k.id| && RowId(j, a) == RowId(k, b)
    ensures j == k && a == b
  {
    assert j.id == RowKey(j, a)[7..7 + |j.id|];
    assert k.id == RowKey(k, b)[7..7 + |j.id|];
    KeysDiffer(j, a, b);
  }

  // ----- Anything that can happen to the database

  /**
   * A worker tries a row, with whatever normalisation makes of it then; or other calls change the
   * tables and add records, a row's own key not excepted. No call changes a record that exists
   * (Idempotency.RecordsStay).
   */
  datatype Event = TryRow(row: nat, reading: Result<RowValues>) | Elsewhere(t: Tables, records: map<KeyId, Record<RowValues, nat>>)

  function Handle(w: Ledger, job: Job, e: Event): Ledger {
    match e
    case TryRow(row, reading) => if reading.Err? then w else After(w, CreateRow, RowCall(job, row, reading.value))
    case Elsewhere(t, records) => World(t, records + w.records)
  }

  function History(w: Ledger, job: Job, events: seq<Event>): Ledger {
    if events == [] then w else Handle(History(w, job, events[..|events| - 1]), job, events[|events| - 1])
  }

  predicate Tries(e: Event, row: nat) {
    e.TryRow? && e.row == row
  }

  /** Products that the attempts at one row added. */
  function Made(w: Ledger, job: Job, events: seq<Event>, row: nat): int {
    if events == [] then 0
    else
      var init := events[..|events| - 1];
      var before := History(w, job, init);
      Made(w, job, init, row)
      + (if Tries(events[|events| - 1], row)
         then |Handle(before, job, events[|events| - 1]).state.products| - |before.state.products| else 0)
  }

  /** Ledger rows that the attempts at one row added. */
  function Entered(w: Ledger, job: Job, events: seq<Event>, row: nat): int {
    if events == [] then 0
    else
      var init := events[..|events| - 1];
      var before := History(w, job, init);
      Entered(w, job, init, row)
      + (if Tries(events[|events| - 1], row)
         then |Handle(before, job, events[|events| - 1]).state.movements| - |before.state.movements| else 0)
  }

  /** The first success at a row lists its product and books its initial load; nothing else adds anything. */
  lemma {:induction false} TryEffect(w: Ledger, job: Job, row: nat, reading: Result<RowValues>)
    ensures var r := Handle(w, job, TryRow(row, reading));
            if reading.Ok? && RowId(job, row) !in w.records && RowId(job, row) in r.records then
              && r.state.products == w.state.products + [reading.value.product]
              && r.records[RowId(job, row)].response == Some(|w.state.products|)
              && r.state.movements == w.state.movements
                 + (if reading.value.initial == 0 then []
                    else [Movement(|w.state.products|, Entry, reading.value.initial, reading.value.initial, NoReference)])
            else r == w
  {
    hide Strip, RowKey, Sync, Desired, Decimal;
    if reading.Ok? {
      KeyIsClean(job, row, reading.value);
      var c := RowCall(job, row, reading.value);
      hide RowId, RowCall, Call.Id;
      CreatedRow(c.scope, reading.value, (), w.state);
      hide CreateRow;
    }
  }

  lemma {:induction false} CreatedRow(scope: string, row: RowValues, env: (), t: Tables)
    ensures CreateRow(scope, row, env, t).Ok? ==>
            var r := CreateRow(scope, row, env, t).value;
            && r.0.products == t.products + [row.product] && r.1 == |t.products|
            && r.0.movements == t.movements
               + (if row.initial == 0 then []
                  else [Movement(|t.products|, Entry, row.initial, row.initial, NoReference)])
  {
    hide Sync, Desired;
  }

  lemma {:induction false} TryRecords(w: Ledger, job: Job, row: nat, reading: Result<RowValues>, other: nat)
    ensures var r := Handle(w, job, TryRow(row, reading));
            && (other != row ==> (RowId(job, other) in r.records <==> RowId(job, other) in w.records))
            && (RowId(job, other) in w.records ==>
                  RowId(job, other) in r.records && r.records[RowId(job, other)] == w.records[RowId(job, other)])
  {
    hide RowId, RowCall, Call.Id, Call.WellKeyed, CreateRow;
    if reading.Ok? {
      KeyIsClean(job, row, reading.value);
      if RowId(job, other) == RowId(job, row) {
        KeysDiffer(job, other, row);
      }
    }
  }

  /** Somebody else's call used the row's own key. */
  predicate UsesKey(e: Event, job: Job, row: nat) {
    e.Elsewhere? && RowId(job, row) in e.records
  }

  /**
   * Whatever the workers and the rest of the shop do, and in whatever order, one file row adds at
   * most one product and at most one initial load, and none once its key is recorded, by whomever.
   * Unless somebody else uses its key it adds exactly one product if it is recorded in the meantime.
   */
  lemma {:induction false} RowMadeOnce(w: Ledger, job: Job, events: seq<Event>, row: nat)
    ensures 0 <= Entered(w, job, events, row) <= Made(w, job, events, row)
    ensures Made(w, job, events, row) <=
            if RowId(job, row) in History(w, job, events).records && RowId(job, row) !in w.records then 1 else 0
    ensures (forall k {:trigger events[k]} :: 0 <= k < |events| ==> !UsesKey(events[k], job, row)) ==>
              Made(w, job, events, row) ==
              if RowId(job, row) in History(w, job, events).records && RowId(job, row) !in w.records then 1 else 0
    ensures RowId(job, row) in w.records ==> RowId(job, row) in History(w, job, events).records
  {
    hide Handle, RowId, UsesKey;
    if events != [] {
      var init := events[..|events| - 1];
      var last := events[|events| - 1];
      assert forall k {:trigger init[k]} :: 0 <= k < |init| ==> init[k] == events[k];
      RowMadeOnce(w, job, init, row);
      var before := History(w, job, init);
      if last.TryRow? {
        TryEffect(before, job, last.row, last.reading);
        TryRecords(before, job, last.row, last.reading, row);
      } else {
        ElsewhereKeeps(before, job, last, row);
      }
    }
  }

  lemma {:induction false} ElsewhereKeeps(w: Ledger, job: Job, e: Event, row: nat)
    requires e.Elsewhere?
    ensures RowId(job, row) in w.records ==> RowId(job, row) in Handle(w, job, e).records
    ensures !UsesKey(e, job, row) ==> (RowId(job, row) in Handle(w, job, e).records <==> RowId(job, row) in w.records)
  {
    hide RowId;
  }

  // ----- One pass over the file

  function Pass(readings: seq<Result<RowValues>>, n: nat): (events: seq<Event>)
    requires n <= |readings|
    ensures |events| == n && forall i :: 0 <= i < n ==> events[i] == TryRow(i + FIRST_ROW, readings[i])
  {
    seq(n, i requires 0 <= i < n => TryRow(i + FIRST_ROW, readings[i]))
  }

  predicate RowSucceeds(w: Ledger, job: Job, row: nat, reading: Result<RowValues>) {
    reading.Ok? && Execute(w, CreateRow, RowCall(job, row, reading.value)).Ok?
  }

  /** Rows among the first n that a pass counts as created, replayed ones included. */
  function Created(w: Ledger, job: Job, readings: seq<Result<RowValues>>, n: nat): (c: nat)
    requires n <= |readings|
    ensures c <= n
  {
    if n == 0 then 0
    else
      Created(w, job, readings, n - 1)
      + (if RowSucceeds(History(w, job, Pass(readings, n - 1)), job, n - 1 + FIRST_ROW, readings[n - 1]) then 1 else 0)
  }

  lemma {:induction false} PassMore(w: Ledger, job: Job, readings: seq<Result<RowValues>>, n: nat)
    requires n < |readings|
    ensures History(w, job, Pass(readings, n + 1)) ==
            Handle(History(w, job, Pass(readings, n)), job, TryRow(n + FIRST_ROW, readings[n]))
  {
    assert Pass(readings, n + 1)[..n] == Pass(readings, n);
  }

  datatype JobStatus =
    | Analysing | AwaitingMapping | Queued | InProgress
    | Done | DoneWithErrors | Failed

  /** How a run of the worker ends: by itself, killed after some rows, or with an unexpected exception. */
  datatype Ending = Finishes | Killed(after: nat) | Crashes(after: nat)

  /** The last row at which a pass saves its counts: every twenty-fifth and the last. Zero stands for none yet. */
  function LastSaved(rows: nat, all: nat): nat {
    if rows == all then all else rows - rows % CHECKPOINT_ROWS
  }

  lemma {:induction false} SavedStep(offset: nat, all: nat)
    requires offset < all
    ensures LastSaved(offset + 1, all) ==
            if (offset + 1) % CHECKPOINT_ROWS == 0 || offset + 1 == all then offset + 1 else LastSaved(offset, all)
  {
  }

  lemma {:induction false} NothingSaved(all: nat)
    ensures LastSaved(0, all) == 0
  {
  }

  /** `Counted` is kept by every write of the job row, so it holds of every checkpoint. */
  class Worker {
    const job: Job
    const ring: Keyring<Tables, RowValues, (), nat>
    var status: JobStatus
    var total: nat
    var processed: nat
    var created: nat
    var errors: nat
    var progress: nat
    var errorCode: Option<Error>

    constructor (job: Job, ring: Keyring<Tables, RowValues, (), nat>)
      ensures this.job == job && this.ring == ring && status == Analysing && Counted()
    {
      this.job, this.ring := job, ring;
      status, total, processed, created, errors, progress, errorCode := Analysing, 0, 0, 0, 0, 0, None;
    }

    /** What every saved job row satisfies. */
    predicate Counted()
      reads this
    {
      created + errors == processed && progress <= 100
    }

    method Confirm(hasMapping: bool) returns (ok: bool)
      modifies this
      ensures ok == (old(status) == AwaitingMapping && hasMapping)
      ensures if ok then status == Queued && Counted() && processed == 0 && progress == 0 && errorCode == None
              else unchanged(this)
    {
      if status != AwaitingMapping || !hasMapping {
        return false;
      }
      status := Queued;
      progress, processed, created, errors := 0, 0, 0, 0;
      errorCode := None;
      return true;
    }

    method Retry() returns (ok: bool)
      modifies this
      ensures ok == (old(status) == Failed || old(status) == DoneWithErrors)
      ensures if ok then status == Queued && progress == 0 && errorCode == None
                         && processed == old(processed) && created == old(created) && errors == old(errors)
              else unchanged(this)
    {
      if status != Failed && status != DoneWithErrors {
        return false;
      }
      status := Queued;
      progress := 0;
      errorCode := None;
      return true;
    }

    /** One row: the keyed command, or the complaint of normalisation. */
    method TryOne(row: nat, reading: Result<RowValues>) returns (ok: bool)
      requires ring.serve == CreateRow
      modifies ring
      ensures ring.Contents() == Handle(old(ring.Contents()), job, TryRow(row, reading))
      ensures ok == RowSucceeds(old(ring.Contents()), job, row, reading)
    {
      if reading.Err? {
        return false;
      }
      var r := ring.ExecuteIdempotent(RowCall(job, row, reading.value));
      return r.Ok?;
    }

    method SaveCheckpoint(rows: nat, successes: nat, failures: nat, all: nat)
      requires successes + failures == rows <= all && all > 0
      modifies this`processed, this`created, this`errors, this`progress
      ensures processed == rows && created == successes && errors == failures && Counted() && progress == rows * 100 / all
    {
      processed, created, errors := rows, successes, failures;
      PercentFits(rows, all);
      progress := rows * 100 / all;
    }

    /** The counters are those of the last checkpoint of a pass over some rows, or what they were. */
    ghost predicate SavedAt(rows: nat, w: Ledger, readings: seq<Result<RowValues>>, wasProcessed: nat, wasCreated: nat, wasErrors: nat)
      requires rows <= |readings|
      reads this
    {
      var n := LastSaved(rows, |readings|);
      if n == 0 then processed == wasProcessed && created == wasCreated && errors == wasErrors
      else processed == n && created == Created(w, job, readings, n) && errors == n - created && progress == n * 100 / |readings|
    }

    /** The row loop, as far as it gets. */
    method TryRows(readings: seq<Result<RowValues>>, rows: nat) returns (successes: nat, failures: nat)
      requires rows <= |readings| && Counted() && ring.serve == CreateRow
      modifies this`processed, this`created, this`errors, this`progress, ring
      ensures Counted() && successes + failures == rows
      ensures ring.Contents() == History(old(ring.Contents()), job, Pass(readings, rows))
      ensures successes == Created(old(ring.Contents()), job, readings, rows)
      ensures SavedAt(rows, old(ring.Contents()), readings, old(processed), old(created), old(errors))
    {
      hide History, Pass, Handle, RowSucceeds, Execute, RowId, LastSaved;
      NothingSaved(|readings|);
      successes, failures := 0, 0;
      NoRowsYet(ring.Contents(), job, readings);
      for offset := 0 to rows
        invariant Counted() && successes + failures == offset
        invariant ring.Contents() == History(old(ring.Contents()), job, Pass(readings, offset))
        invariant successes == Created(old(ring.Contents()), job, readings, offset)
        invariant SavedAt(offset, old(ring.Contents()), readings, old(processed), old(created), old(errors))
      {
        PassMore(old(ring.Contents()), job, readings, offset);
        SavedStep(offset, |readings|);
        var ok := TryOne(offset + FIRST_ROW, readings[offset]);
        if ok {
          successes := successes + 1;
        } else {
          failures := failures + 1;
        }
        if (offset + 1) % CHECKPOINT_ROWS == 0 || offset + 1 == |readings| {
          SaveCheckpoint(offset + 1, successes, failures, |readings|);
        }
      }
    }

    /** `trouble` is what reading the file, its mapping or the quota complains about. */
    method Process(trouble: Option<Error>, readings: seq<Result<RowValues>>, ending: Ending) returns (rows: nat)
      requires Counted() && ring.serve == CreateRow
      modifies this, ring
      ensures Counted()
      ensures rows <= |readings|
      ensures ring.Contents() == History(old(ring.Contents()), job, Pass(readings, rows))
      ensures old(status) != Queued && old(status) != InProgress && old(status) != Failed ==>
                unchanged(this) && rows == 0
      ensures status in {Queued, InProgress} ==> ending.Killed?
      ensures old(status) in {Queued, InProgress, Failed} && trouble.Some? ==>
                && rows == 0 && status == Failed && errorCode == trouble
                && processed == old(processed) && created == old(created) && errors == old(errors)
      ensures old(status) in {Queued, InProgress, Failed} && trouble.None? && !ending.Finishes? ==>
                && rows == Min(ending.after, |readings|)
                && SavedAt(rows, old(ring.Contents()), readings, old(processed), old(created), old(errors))
                && (if ending.Crashes? then status == Failed && errorCode == Some(UnexpectedError) else status == InProgress && errorCode == None)
      ensures old(status) in {Queued, InProgress, Failed} && trouble.None? && ending.Finishes? ==>
                && rows == |readings| && processed == |readings| && progress == 100
                && created == Created(old(ring.Contents()), job, readings, |readings|)
                && status == (if created == |readings| then Done else DoneWithErrors)
    {
      hide History, Pass, Handle, RowSucceeds, Execute, RowId, Created, LastSaved;
      rows := 0;
      NoRowsYet(ring.Contents(), job, readings);
      if status !in {Queued, InProgress, Failed} {
        return;
      }
      status := InProgress;
      errorCode := None;
      if trouble.Some? {
        status, errorCode := Failed, trouble;
        return;
      }
      rows := if ending.Finishes? then |readings| else Min(ending.after, |readings|);
      var successes, failures := TryRows(readings, rows);
      if !ending.Finishes? {
        if ending.Crashes? {
          status, errorCode := Failed, Some(UnexpectedError);
        }
        return;
      }
      total, processed, created, errors, progress := |readings|, |readings|, successes, failures, 100;
      status := if failures > 0 then DoneWithErrors else Done;
    }
  }

  lemma {:induction false} NoRowsYet(w: Ledger, job: Job, readings: seq<Result<RowValues>>)
    ensures History(w, job, Pass(readings, 0)) == w
  {
  }

  lemma {:induction false} PercentFits(rows: nat, all: nat)
    requires 0 < all && rows <= all
    ensures 0 <= rows * 100 / all <= 100
  {
    var percent := rows * 100 / all;
    assert all * percent <= rows * 100;
    Refunds.MulCancel(percent, 100, all);
  }
}
