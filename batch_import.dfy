/**
 * The batch importer (`process_data` in batch_process.py).
 *
 * Rows of review text are classified one by one. Each success becomes a new
 * review in an in-memory buffer; a full buffer of ten is added to the database
 * session and committed as one transaction, then cleared; a row whose
 * classification raises is logged by its index and skipped. After the last row
 * a non-empty remainder is committed too.
 */
module BatchImport {
  import opened Classifier

  /** Records per in-loop commit. */
  const BatchSize: nat := 10

  /** A `models.Review` as the importer builds it; the store assigns `id` and `created_at`. */
  datatype NewReview = NewReview(content: string, sentiment: string, confidence: real)

  /** The record built from a successful analysis. */
  function ToRecord(a: Analysis): (r: NewReview)
    ensures r.content == a.text && r.sentiment == a.sentiment.Label() && r.confidence == a.confidence
  {
    NewReview(a.text, a.sentiment.Label(), a.confidence)
  }

  /**
   * The rows that are processed: `df.head(limit)` when `limit` is truthy, the
   * whole frame when it is `None` or `0`. As with a Python slice `rows[:n]`,
   * a negative limit drops that many rows from the end.
   */
  function Head(rows: seq<string>, limit: Option<int>): (r: seq<string>)
    ensures r <= rows
    ensures limit.None? || limit.value == 0 ==> r == rows
    ensures limit.Some? && limit.value > 0 ==>
      |r| == if limit.value < |rows| then limit.value else |rows|
    ensures limit.Some? && limit.value < 0 ==>
      |r| == if -limit.value < |rows| then |rows| + limit.value else 0
  {
    match limit
    case None => rows
    case Some(n) =>
      if n == 0 then rows
      else if n > 0 then (if n < |rows| then rows[..n] else rows)
      else if -n < |rows| then rows[..|rows| + n]
      else []
  }

  /** What one row contributes: its record if its analysis succeeds, nothing if it raised. */
  function RecordOf(classifier: Pipeline, text: string): (r: seq<NewReview>)
    ensures |r| <= 1
  {
    match Analyze(classifier, text)
    case None => []
    case Some(a) => [ToRecord(a)]
  }

  /** The records for the successfully analyzed rows, in input order. */
  function Imported(classifier: Pipeline, rows: seq<string>): (r: seq<NewReview>)
    ensures |r| <= |rows|
  {
    if rows == [] then []
    else Imported(classifier, rows[..|rows| - 1]) + RecordOf(classifier, rows[|rows| - 1])
  }

  /** The positions of the rows that were analyzed successfully. */
  function SuccessIndices(classifier: Pipeline, rows: seq<string>): (r: seq<nat>)
    ensures |r| <= |rows|
    ensures forall k :: 0 <= k < |r| ==> r[k] < |rows|
  {
    if rows == [] then []
    else
      var earlier := SuccessIndices(classifier, rows[..|rows| - 1]);
      if Analyze(classifier, rows[|rows| - 1]).Some? then earlier + [|rows| - 1] else earlier
  }

  /** The row indices the importer logs as errors. */
  function FailedIndices(classifier: Pipeline, rows: seq<string>): (r: seq<nat>)
    ensures |r| <= |rows|
    ensures forall k :: 0 <= k < |r| ==> r[k] < |rows|
  {
    if rows == [] then []
    else
      var earlier := FailedIndices(classifier, rows[..|rows| - 1]);
      if Analyze(classifier, rows[|rows| - 1]).None? then earlier + [|rows| - 1] else earlier
  }

  /**
   * The logged indices are increasing and are exactly the rows whose
   * analysis raised.
   */
  lemma {:induction false} FailedIndicesExact(classifier: Pipeline, rows: seq<string>)
    ensures forall k :: 0 <= k < |FailedIndices(classifier, rows)| ==> FailedIndices(classifier, rows)[k] < |rows|
    ensures forall k :: 0 <= k < |FailedIndices(classifier, rows)| ==>
      Analyze(classifier, rows[FailedIndices(classifier, rows)[k]]).None?
    ensures forall j, k :: 0 <= j < k < |FailedIndices(classifier, rows)| ==>
      FailedIndices(classifier, rows)[j] < FailedIndices(classifier, rows)[k]
    ensures forall i :: 0 <= i < |rows| && Analyze(classifier, rows[i]).None? ==>
      i in FailedIndices(classifier, rows)
  {
    FailedIndicesSound(classifier, rows);
    FailedIndicesIncreasing(classifier, rows);
    FailedIndicesComplete(classifier, rows);
  }

  /** Each listed index is a row whose analysis raised. */
  lemma {:induction false} FailedIndicesSound(classifier: Pipeline, rows: seq<string>)
    ensures forall k :: 0 <= k < |FailedIndices(classifier, rows)| ==>
      Analyze(classifier, rows[FailedIndices(classifier, rows)[k]]).None?
  {
    if rows != [] {
      var init := rows[..|rows| - 1];
      FailedIndicesSound(classifier, init);
      assert forall i :: 0 <= i < |init| ==> init[i] == rows[i];
    }
  }

  /** The listed indices are strictly increasing. */
  lemma {:induction false} FailedIndicesIncreasing(classifier: Pipeline, rows: seq<string>)
    ensures forall j, k :: 0 <= j < k < |FailedIndices(classifier, rows)| ==>
      FailedIndices(classifier, rows)[j] < FailedIndices(classifier, rows)[k]
  {
    if rows != [] {
      FailedIndicesIncreasing(classifier, rows[..|rows| - 1]);
    }
  }

  /** Every row whose analysis raised is listed. */
  lemma {:induction false} FailedIndicesComplete(classifier: Pipeline, rows: seq<string>)
    ensures forall i :: 0 <= i < |rows| && Analyze(classifier, rows[i]).None? ==>
      i in FailedIndices(classifier, rows)
  {
    if rows != [] {
      var init := rows[..|rows| - 1];
      FailedIndicesComplete(classifier, init);
      assert forall i :: 0 <= i < |init| ==> init[i] == rows[i];
    }
  }


  /** Conservation of rows: every processed row is either imported or logged as failed. */
  lemma {:induction false} RowsAccounted(classifier: Pipeline, rows: seq<string>)
    ensures |FailedIndices(classifier, rows)| + |Imported(classifier, rows)| == |rows|
  {
    if rows != [] {
      RowsAccounted(classifier, rows[..|rows| - 1]);
    }
  }

  /** The successful rows are listed once each, in increasing order. */
  lemma {:induction false} SuccessIndicesExact(classifier: Pipeline, rows: seq<string>)
    ensures forall k :: 0 <= k < |SuccessIndices(classifier, rows)| ==> SuccessIndices(classifier, rows)[k] < |rows|
    ensures forall k :: 0 <= k < |SuccessIndices(classifier, rows)| ==>
      Analyze(classifier, rows[SuccessIndices(classifier, rows)[k]]).Some?
    ensures forall j, k :: 0 <= j < k < |SuccessIndices(classifier, rows)| ==>
      SuccessIndices(classifier, rows)[j] < SuccessIndices(classifier, rows)[k]
    ensures forall i :: 0 <= i < |rows| && Analyze(classifier, rows[i]).Some? ==>
      i in SuccessIndices(classifier, rows)
  {
    SuccessIndicesSound(classifier, rows);
    SuccessIndicesIncreasing(classifier, rows);
    SuccessIndicesComplete(classifier, rows);
  }

  /** Each listed index is a row whose analysis succeeded. */
  lemma {:induction false} SuccessIndicesSound(classifier: Pipeline, rows: seq<string>)
    ensures forall k :: 0 <= k < |SuccessIndices(classifier, rows)| ==>
      Analyze(classifier, rows[SuccessIndices(classifier, rows)[k]]).Some?
  {
    if rows != [] {
      var init := rows[..|rows| - 1];
      SuccessIndicesSound(classifier, init);
      assert forall i :: 0 <= i < |init| ==> init[i] == rows[i];
    }
  }

  /** The listed indices are strictly increasing. */
  lemma {:induction false} SuccessIndicesIncreasing(classifier: Pipeline, rows: seq<string>)
    ensures forall j, k :: 0 <= j < k < |SuccessIndices(classifier, rows)| ==>
      SuccessIndices(classifier, rows)[j] < SuccessIndices(classifier, rows)[k]
  {
    if rows != [] {
      SuccessIndicesIncreasing(classifier, rows[..|rows| - 1]);
    }
  }

  /** Every row whose analysis succeeded is listed. */
  lemma {:induction false} SuccessIndicesComplete(classifier: Pipeline, rows: seq<string>)
    ensures forall i :: 0 <= i < |rows| && Analyze(classifier, rows[i]).Some? ==>
      i in SuccessIndices(classifier, rows)
  {
    if rows != [] {
      var init := rows[..|rows| - 1];
      SuccessIndicesComplete(classifier, init);
      assert forall i :: 0 <= i < |init| ==> init[i] == rows[i];
    }
  }


  /**
   * Nothing is invented, dropped or reordered: the k-th imported record is
   * the record of the k-th successful row, with that row's full text as
   * content and the analyzer's sentiment and confidence.
   */
  lemma {:induction false} ImportedFromRows(classifier: Pipeline, rows: seq<string>)
    ensures |Imported(classifier, rows)| == |SuccessIndices(classifier, rows)|
    ensures forall k :: 0 <= k < |Imported(classifier, rows)| ==>
      && SuccessIndices(classifier, rows)[k] < |rows|
      && Analyze(classifier, rows[SuccessIndices(classifier, rows)[k]]).Some?
      && Imported(classifier, rows)[k]
           == ToRecord(Analyze(classifier, rows[SuccessIndices(classifier, rows)[k]]).value)
  {
    SuccessIndicesExact(classifier, rows);
    if rows != [] {
      var init := rows[..|rows| - 1];
      var last := rows[|rows| - 1];
      ImportedFromRows(classifier, init);
      var before := Imported(classifier, init);
      var idx := SuccessIndices(classifier, init);
      assert forall i :: 0 <= i < |init| ==> init[i] == rows[i];
      match Analyze(classifier, last)
      case None =>
        assert RecordOf(classifier, last) == [];
        assert Imported(classifier, rows) == before;
      case Some(a) =>
        assert RecordOf(classifier, last) == [ToRecord(a)];
        assert Imported(classifier, rows) == before + [ToRecord(a)];
        assert SuccessIndices(classifier, rows) == idx + [|rows| - 1];
    }
  }

  /** Every stored sentiment is one of the two sentiment strings. */
  lemma {:induction false} ImportedSentiments(classifier: Pipeline, rows: seq<string>)
    ensures forall x :: x in Imported(classifier, rows) ==>
      x.sentiment == PositiveLabel || x.sentiment == NegativeLabel
  {
    if rows != [] {
      ImportedSentiments(classifier, rows[..|rows| - 1]);
    }
  }

  /** One more row: its record, if its analysis succeeds, follows the earlier ones. */
  lemma ImportedStep(classifier: Pipeline, rows: seq<string>, i: nat)
    requires i < |rows|
    ensures Imported(classifier, rows[..i + 1]) == Imported(classifier, rows[..i]) + RecordOf(classifier, rows[i])
  {
    assert rows[..i + 1][..i] == rows[..i];
    assert rows[..i + 1][i] == rows[i];
  }

  /** One more row: its index is logged exactly when its analysis fails. */
  lemma FailedStep(classifier: Pipeline, rows: seq<string>, i: nat)
    requires i < |rows|
    ensures FailedIndices(classifier, rows[..i + 1])
      == FailedIndices(classifier, rows[..i]) + (if Analyze(classifier, rows[i]).None? then [i] else [])
  {
    assert rows[..i + 1][..i] == rows[..i];
    assert rows[..i + 1][i] == rows[i];
  }

  /**
   * The commits the importer makes for a run whose successes are `s`: full
   * batches of ten while at least ten remain, then the remainder, if any.
   */
  function Batches(s: seq<NewReview>): (r: seq<seq<NewReview>>)
    ensures |r| <= |s|
    ensures forall k :: 0 <= k < |r| ==> 0 < |r[k]| <= BatchSize
    decreases |s|
  {
    if s == [] then []
    else if |s| < BatchSize then [s]
    else [s[..BatchSize]] + Batches(s[BatchSize..])
  }

  /** The concatenation of a sequence of batches. */
  function Flatten(bs: seq<seq<NewReview>>): (r: seq<NewReview>)
  {
    if bs == [] then [] else bs[0] + Flatten(bs[1..])
  }

  /** The size of each batch. */
  function Sizes(bs: seq<seq<NewReview>>): (r: seq<nat>)
    ensures |r| == |bs|
    ensures forall k :: 0 <= k < |bs| ==> r[k] == |bs[k]|
  {
    if bs == [] then [] else [|bs[0]|] + Sizes(bs[1..])
  }

  /** Conservation: the commits, concatenated in order, are exactly the successes. */
  lemma {:induction false} BatchesFlatten(s: seq<NewReview>)
    ensures Flatten(Batches(s)) == s
    decreases |s|
  {
    if s != [] && |s| >= BatchSize {
      BatchesFlatten(s[BatchSize..]);
      assert s == s[..BatchSize] + s[BatchSize..];
    }
  }

  /**
   * Every commit but the last holds exactly ten records, the last one between
   * one and ten, and there are ceil(|s| / 10) commits.
   */
  lemma {:induction false} BatchesSizes(s: seq<NewReview>)
    ensures |Batches(s)| == (|s| + BatchSize - 1) / BatchSize
    ensures forall k :: 0 <= k < |Batches(s)| - 1 ==> |Batches(s)[k]| == BatchSize
    ensures forall k :: 0 <= k < |Batches(s)| ==> 0 < |Batches(s)[k]| <= BatchSize
    ensures |Batches(s)| > 0 ==> |Batches(s)[|Batches(s)| - 1]| == |s| - (|Batches(s)| - 1) * BatchSize
    decreases |s|
  {
    if s != [] && |s| >= BatchSize {
      BatchesSizes(s[BatchSize..]);
    }
  }

  /** The three flush patterns: 10, 11 and 25 successes. */
  lemma BatchSizeExamples(s10: seq<NewReview>, s11: seq<NewReview>, s25: seq<NewReview>)
    requires |s10| == 10 && |s11| == 11 && |s25| == 25
    ensures Sizes(Batches(s10)) == [10]
    ensures Sizes(Batches(s11)) == [10, 1]
    ensures Sizes(Batches(s25)) == [10, 10, 5]
  {
    BatchesSizes(s10);
    BatchesSizes(s11);
    BatchesSizes(s25);
  }

  /** The concatenation of two logs, one after the other. */
  lemma {:induction false} FlattenConcat(a: seq<seq<NewReview>>, b: seq<seq<NewReview>>)
    ensures Flatten(a + b) == Flatten(a) + Flatten(b)
  {
    if a == [] {
      assert a + b == b;
    } else {
      assert (a + b)[1..] == a[1..] + b;
      FlattenConcat(a[1..], b);
    }
  }

  /** A full batch in front of more records is committed on its own, first. */
  lemma FullBatchFirst(batch: seq<NewReview>, rest: seq<NewReview>)
    requires |batch| == BatchSize
    ensures Batches(batch + rest) == [batch] + Batches(rest)
  {
    assert (batch + rest)[..BatchSize] == batch;
    assert (batch + rest)[BatchSize..] == rest;
  }

  /**
   * A log of full batches followed by a short buffer is the batching of
   * their concatenation, with the buffer as last batch if it is non-empty.
   */
  lemma {:induction false} BatchesOfFull(log: seq<seq<NewReview>>, buffer: seq<NewReview>)
    requires forall k :: 0 <= k < |log| ==> |log[k]| == BatchSize
    requires |buffer| < BatchSize
    ensures Batches(Flatten(log) + buffer) == log + (if buffer == [] then [] else [buffer])
  {
    if log == [] {
      assert Flatten(log) + buffer == buffer;
    } else {
      var rest := Flatten(log[1..]) + buffer;
      var last := if buffer == [] then [] else [buffer];
      calc {
        Batches(Flatten(log) + buffer);
        { SeqAssociative(log[0], Flatten(log[1..]), buffer); }
        Batches(log[0] + rest);
        { FullBatchFirst(log[0], rest); }
        [log[0]] + Batches(rest);
        { BatchesOfFull(log[1..], buffer); }
        [log[0]] + (log[1..] + last);
        { SeqAssociative([log[0]], log[1..], last); }
        ([log[0]] + log[1..]) + last;
        { assert log == [log[0]] + log[1..]; }
        log + last;
      }
    }
  }

  /** The commits one row's step makes, and the buffer it leaves. */
  datatype Step = Step(commits: seq<seq<NewReview>>, buffer: seq<NewReview>)

  /**
   * One row's effect on the buffer (batch_process.py, lines 53-59): its records
   * join the buffer; a buffer that reaches ten is committed and emptied.
   */
  function Buffered(buffer: seq<NewReview>, records: seq<NewReview>): (r: Step)
    ensures |r.buffer| < BatchSize
    ensures forall k :: 0 <= k < |r.commits| ==> |r.commits[k]| >= BatchSize
    ensures Flatten(r.commits) + r.buffer == buffer + records
  {
    var next := buffer + records;
    if |next| >= BatchSize then Step([next], []) else Step([], next)
  }

  /**
   * One step from a buffer that is not full: any commit holds exactly ten
   * records, and a row that yields no record changes neither the buffer nor
   * the store.
   */
  lemma BufferedBounds(buffer: seq<NewReview>, records: seq<NewReview>)
    requires |buffer| < BatchSize && |records| <= 1
    ensures forall k :: 0 <= k < |Buffered(buffer, records).commits| ==> |Buffered(buffer, records).commits[k]| == BatchSize
    ensures records == [] ==> Buffered(buffer, records) == Step([], buffer)
  {
    assert records == [] ==> buffer + records == buffer;
  }


  /**
   * The state of the import after the rows `seen`: every commit so far holds
   * exactly ten records, the commits followed by the buffer are the records of
   * the successful rows, and the buffer is not full.
   */
  ghost predicate Loaded(classifier: Pipeline, seen: seq<string>, log: seq<seq<NewReview>>, buffer: seq<NewReview>)
  {
    && Flatten(log) + buffer == Imported(classifier, seen)
    && (forall k :: 0 <= k < |log| ==> |log[k]| == BatchSize)
    && |buffer| < BatchSize
  }

  /** Processing one more row: the commits followed by the buffer are still the records so far. */
  lemma LoadedRecords(classifier: Pipeline, rows: seq<string>, i: nat, log: seq<seq<NewReview>>, buffer: seq<NewReview>)
    requires i < |rows|
    requires Flatten(log) + buffer == Imported(classifier, rows[..i])
    ensures var step := Buffered(buffer, RecordOf(classifier, rows[i]));
      Flatten(log + step.commits) + step.buffer == Imported(classifier, rows[..i + 1])
  {
    var records := RecordOf(classifier, rows[i]);
    var step := Buffered(buffer, records);
    var done := Flatten(log);
    var more := Flatten(step.commits);
    FlattenConcat(log, step.commits);
    calc {
      Flatten(log + step.commits) + step.buffer;
      (done + more) + step.buffer;
      { SeqAssociative(done, more, step.buffer); }
      done + (more + step.buffer);
      done + (buffer + records);
      { SeqAssociative(done, buffer, records); }
      (done + buffer) + records;
      Imported(classifier, rows[..i]) + records;
      { ImportedStep(classifier, rows, i); }
      Imported(classifier, rows[..i + 1]);
    }
  }

  /** Concatenation regroups freely. */
  lemma SeqAssociative<T>(a: seq<T>, b: seq<T>, c: seq<T>)
    ensures (a + b) + c == a + (b + c)
  {
  }

  /** Processing one more row: every commit still holds exactly ten records. */
  lemma LoadedSizes(buffer: seq<NewReview>, records: seq<NewReview>, log: seq<seq<NewReview>>)
    requires |buffer| < BatchSize && |records| <= 1
    requires forall k :: 0 <= k < |log| ==> |log[k]| == BatchSize
    ensures forall k :: 0 <= k < |log + Buffered(buffer, records).commits| ==>
      |(log + Buffered(buffer, records).commits)[k]| == BatchSize
  {
    var step := Buffered(buffer, records);
    BufferedBounds(buffer, records);
    forall k | 0 <= k < |log + step.commits|
      ensures |(log + step.commits)[k]| == BatchSize
    {
      if k >= |log| {
        assert (log + step.commits)[k] == step.commits[k - |log|];
      }
    }
  }

  /** Processing one more row keeps the import state. */
  lemma LoadedStep(classifier: Pipeline, rows: seq<string>, i: nat, log: seq<seq<NewReview>>, buffer: seq<NewReview>)
    requires i < |rows|
    requires Loaded(classifier, rows[..i], log, buffer)
    ensures var step := Buffered(buffer, RecordOf(classifier, rows[i]));
      Loaded(classifier, rows[..i + 1], log + step.commits, step.buffer)
  {
    LoadedRecords(classifier, rows, i, log, buffer);
    LoadedSizes(buffer, RecordOf(classifier, rows[i]), log);
  }



  /** After the last row, the log and a non-empty remainder are the batches of the successes. */
  lemma LoadedDone(classifier: Pipeline, rows: seq<string>, log: seq<seq<NewReview>>, buffer: seq<NewReview>)
    requires Loaded(classifier, rows[..|rows|], log, buffer)
    ensures Batches(Imported(classifier, rows)) == log + (if buffer == [] then [] else [buffer])
  {
    assert rows[..|rows|] == rows;
    BatchesOfFull(log, buffer);
  }


  /**
   * A database session: what `add_all` has staged and the log of committed
   * transactions, each the list of records it inserted.
   */
  class Session {
    var pending: seq<NewReview>
    var committed: seq<seq<NewReview>>

    /** A fresh session over a store that already holds `log`. */
    constructor (log: seq<seq<NewReview>>)
      ensures pending == [] && committed == log
    {
      pending := [];
      committed := log;
    }

    /** `db.add_all(records)`: stage the records; nothing is committed yet. */
    method AddAll(records: seq<NewReview>)
      modifies this
      ensures pending == old(pending) + records
      ensures committed == old(committed)
    {
      pending := pending + records;
    }

    /** `db.commit()`: everything staged becomes one committed transaction. */
    method Commit()
      modifies this
      ensures committed == old(committed) + [old(pending)]
      ensures pending == []
    {
      committed := committed + [pending];
      pending := [];
    }
  }

  /** `db.add_all(buffer)` followed by `db.commit()`: the buffer becomes one transaction. */
  method Flush(db: Session, buffer: seq<NewReview>)
    requires db.pending == []
    modifies db
    ensures db.pending == []
    ensures db.committed == old(db.committed) + [buffer]
  {
    db.AddAll(buffer);
    assert db.pending == buffer;
    db.Commit();
  }

  /**
   * The body of the loop for one row, the `try` block: analyze the text; on
   * success append its record to the buffer and commit a full buffer. Reports
   * whether the analysis raised.
   */
  method ImportRow(db: Session, classifier: Pipeline, text: string, buffer: seq<NewReview>)
    returns (next: seq<NewReview>, raised: bool)
    requires db.pending == []
    requires |buffer| < BatchSize
    modifies db
    ensures db.pending == []
    ensures raised == Analyze(classifier, text).None?
    ensures db.committed == old(db.committed) + Buffered(buffer, RecordOf(classifier, text)).commits
    ensures next == Buffered(buffer, RecordOf(classifier, text)).buffer
  {
    match Analyze(classifier, text)
    case None =>
      assert buffer + [] == buffer;
      assert old(db.committed) + [] == old(db.committed);
      next, raised := buffer, true;
    case Some(analysis) =>
      var newReview := ToRecord(analysis);
      next, raised := buffer + [newReview], false;
      if |next| >= BatchSize {
        Flush(db, next);
        next := [];
      }
  }

  /**
   * `process_data(limit)` over the rows of the input file. Returns the logged
   * error indices; the session's log gains exactly the batches of the
   * successful records.
   */
  method ProcessData(db: Session, classifier: Pipeline, rows: seq<string>, limit: Option<int>)
    returns (failed: seq<nat>)
    requires db.pending == []
    modifies db
    ensures db.pending == []
    ensures db.committed == old(db.committed) + Batches(Imported(classifier, Head(rows, limit)))
    ensures failed == FailedIndices(classifier, Head(rows, limit))
  {
    var df := Head(rows, limit);
    var buffer: seq<NewReview> := [];
    ghost var start := db.committed;
    ghost var log: seq<seq<NewReview>> := [];
    failed := [];
    for index := 0 to |df|
      invariant db.pending == []
      invariant db.committed == start + log
      invariant Loaded(classifier, df[..index], log, buffer)
      invariant failed == FailedIndices(classifier, df[..index])
    {
      LoadedStep(classifier, df, index, log, buffer);
      FailedStep(classifier, df, index);
      ghost var step := Buffered(buffer, RecordOf(classifier, df[index]));
      var raised;
      buffer, raised := ImportRow(db, classifier, df[index], buffer);
      SeqAssociative(start, log, step.commits);
      log := log + step.commits;
      if raised {
        failed := failed + [index];
      }
    }
    LoadedDone(classifier, df, log, buffer);
    assert df[..|df|] == df;
    if buffer != [] {
      Flush(db, buffer);
      SeqAssociative(start, log, [buffer]);
    } else {
      assert log + [] == log;
    }
  }
}
