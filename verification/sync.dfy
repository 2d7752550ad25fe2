/**
 The capabilities synchroniser's driver: a left fold over the sheet's data rows that, per
 row, skips, validates, fetches the current record, applies the row and writes it back,
 keeping every failure inside the row that caused it.
 */
module Sync {

  import opened Results
  import opened Cells
  import opened Capabilities
  import opened Validation
  import opened Mutation

  /**
   What the remote product store does wrong, by sheet row index: a fetch that fails, with the
   error's text, and an update that fails, with the error's text. The store keeps no other
   state than the last record written to it.
   */
  datatype Faults = Faults(fetch: map<int, string>, update: map<int, string>)

  const NoFaults: Faults := Faults(map[], map[])

  /** The synchroniser's accumulators, and the record the remote store holds. */
  datatype Progress = Progress(
    skipped: nat,
    updated: seq<Cell>,
    errors: map<int, seq<string>>,
    store: ProductCapabilities)

  /** The returned triple (skipped, number updated, errors), and the store's final record. */
  datatype Summary = Summary(
    skipped: nat,
    updated: nat,
    errors: map<int, seq<string>>,
    store: ProductCapabilities)

  /**
   A run ended by a failing fetch: the error's text, and the record the store holds then.
   Each row's write is committed on its own, so the store keeps the writes of every row
   before the one that failed.
   */
  datatype Abort = Abort(message: string, store: ProductCapabilities)

  /**
   One row at sheet index `rowIdx`. A failing fetch is not caught by the row and ends the
   whole run; every other failure becomes the row's error list.
   */
  function Step(p: Progress, rowIdx: int, row: Row, faults: Faults): (r: Result<Progress, Abort>)
    // a skipped row only counts
    ensures row.action == Skip ==> r == Success(p.(skipped := p.skipped + 1))
    ensures r.Success? && row.action != Skip ==> r.value.skipped == p.skipped
    // only a row that got as far as fetching can abort the run
    ensures r.Failure? ==> row.action != Skip && rowIdx in faults.fetch
    // an abort leaves the store as the earlier rows left it
    ensures r.Failure? ==> r.error == Abort(faults.fetch[rowIdx], p.store)
    // errors are kept per row: nothing but this row's entry changes, and a skipped row has none
    ensures r.Success? ==>
              || r.value.errors == p.errors
              || (rowIdx in r.value.errors && row.action != Skip
                  && r.value.errors == p.errors[rowIdx := r.value.errors[rowIdx]])
    // the updated list grows by this row's capability, or not at all, and never with an error
    ensures r.Success? ==> r.value.updated == p.updated || r.value.updated == p.updated + [row.capability]
    ensures r.Success? && r.value.updated != p.updated ==>
              r.value.errors == p.errors && row.action == Update
  {
    if row.action == Skip then
      Success(p.(skipped := p.skipped + 1))
    else
      var rowErrors := ValidateRow(row.capability, row.value);
      if rowErrors != [] then
        Success(p.(errors := p.errors[rowIdx := rowErrors]))
      else if rowIdx in faults.fetch then
        Failure(Abort(faults.fetch[rowIdx], p.store))
      else if row.action != Update then
        Success(p)
      else
        var cap := CapabilityOf(row.capability).value;
        Success(Commit(p, rowIdx, row.capability, Apply(cap, row.value, p.store), faults))
  }

  /** Records the mutation of an `update` row, writing it back when it asks for a write. */
  function Commit(p: Progress, rowIdx: int, capability: Cell, m: Mutation, faults: Faults): (q: Progress)
    ensures q.skipped == p.skipped
    ensures || (q.errors == p.errors && q.updated == p.updated + [capability])
            || (q.updated == p.updated && q.store == p.store && rowIdx in q.errors
                && q.errors == p.errors[rowIdx := q.errors[rowIdx]] && |q.errors[rowIdx]| == 1)
  {
    match m
    case Violation(message) =>
      p.(errors := p.errors[rowIdx := [message]])
    case Mutated(caps, persist) =>
      if persist && rowIdx in faults.update then
        p.(errors := p.errors[rowIdx := [faults.update[rowIdx]]])
      else
        p.(updated := p.updated + [capability], store := if persist then caps else p.store)
  }

  /** What a row that is not skipped does, by the stage it reaches. */
  lemma StepOutcome(p: Progress, rowIdx: int, row: Row, faults: Faults)
    requires row.action != Skip
    ensures var r := Step(p, rowIdx, row, faults);
            var errs := ValidateRow(row.capability, row.value);
            // an invalid row is reported with its validation errors and never reaches the store
            && (errs != [] ==> r == Success(p.(errors := p.errors[rowIdx := errs])))
            // a valid row fetches; a failing fetch ends the run
            && (errs == [] && rowIdx in faults.fetch ==> r == Failure(Abort(faults.fetch[rowIdx], p.store)))
            // a valid row whose action is neither `-` nor `update` changes nothing
            && (errs == [] && rowIdx !in faults.fetch && row.action != Update ==> r == Success(p))
            && (errs == [] && rowIdx !in faults.fetch && row.action == Update ==>
                  var m := Apply(CapabilityOf(row.capability).value, row.value, p.store);
                  // a dependency violation is the row's only error and nothing is written
                  && (m.Violation? ==> r == Success(p.(errors := p.errors[rowIdx := [m.message]])))
                  // a failing write is the row's only error and the store keeps its record
                  && (m.Mutated? && m.persist && rowIdx in faults.update ==>
                        r == Success(p.(errors := p.errors[rowIdx := [faults.update[rowIdx]]])))
                  // otherwise the capability counts as updated, and the store holds the
                  // mutated record if, and only if, the mutation asked for a write
                  && (m.Mutated? && !(m.persist && rowIdx in faults.update) ==>
                        r == Success(p.(updated := p.updated + [row.capability],
                                        store := if m.persist then m.caps else p.store))))
  {
  }

  /** The rows in order, the first at sheet index `rowIdx`; the first fetch failure ends the run. */
  function Run(p: Progress, rowIdx: int, rows: seq<Row>, faults: Faults): Result<Progress, Abort>
    decreases |rows|
  {
    if rows == [] then Success(p)
    else
      match Step(p, rowIdx, rows[0], faults)
      case Failure(e) => Failure(e)
      case Success(q) => Run(q, rowIdx + 1, rows[1..], faults)
  }

  /** The synchroniser over the sheet's data rows, against a store holding `store`. */
  function Synchronize(rows: seq<Row>, store: ProductCapabilities, faults: Faults): Result<Summary, Abort> {
    match Run(Progress(0, [], map[], store), FirstDataRow, rows, faults)
    case Failure(e) => Failure(e)
    case Success(p) => Success(Summary(p.skipped, |p.updated|, p.errors, p.store))
  }

  /** The number of rows marked `-`. */
  function CountSkips(rows: seq<Row>): nat {
    if rows == [] then 0 else (if rows[0].action == Skip then 1 else 0) + CountSkips(rows[1..])
  }

  /**
   No row's failure stops the rows after it: running a sheet with one more row is running the
   shorter sheet and then that row against whatever state the shorter sheet left.
   */
  lemma RunAppend(p: Progress, rowIdx: int, rows: seq<Row>, row: Row, faults: Faults)
    ensures Run(p, rowIdx, rows + [row], faults) == ThenStep(Run(p, rowIdx, rows, faults), rowIdx + |rows|, row, faults)
  {
    var step := RowStep(faults);
    RunIsFold(p, rowIdx, rows + [row], faults);
    RunIsFold(p, rowIdx, rows, faults);
    FoldAppend(step, p, rowIdx, rows, row);
    match Run(p, rowIdx, rows, faults)
    case Failure(_) =>
    case Success(q) => assert step(q, rowIdx + |rows|, row) == Step(q, rowIdx + |rows|, row, faults);
  }

  /** The step of one row, as a value. */
  function RowStep(faults: Faults): (Progress, int, Row) -> Result<Progress, Abort> {
    (p: Progress, rowIdx: int, row: Row) => Step(p, rowIdx, row, faults)
  }

  /** Any step folded over the rows in order, stopping at the first failure. */
  function Fold(step: (Progress, int, Row) -> Result<Progress, Abort>, p: Progress, rowIdx: int, rows: seq<Row>): Result<Progress, Abort>
    decreases |rows|
  {
    if rows == [] then Success(p)
    else
      match step(p, rowIdx, rows[0])
      case Failure(e) => Failure(e)
      case Success(q) => Fold(step, q, rowIdx + 1, rows[1..])
  }

  /** The run is the fold of the row step. */
  lemma {:induction false} RunIsFold(p: Progress, rowIdx: int, rows: seq<Row>, faults: Faults)
    ensures Run(p, rowIdx, rows, faults) == Fold(RowStep(faults), p, rowIdx, rows)
    decreases |rows|
  {
    if rows != [] {
      var step := RowStep(faults);
      assert step(p, rowIdx, rows[0]) == Step(p, rowIdx, rows[0], faults);
      match Step(p, rowIdx, rows[0], faults)
      case Failure(_) =>
      case Success(q) => RunIsFold(q, rowIdx + 1, rows[1..], faults);
    }
  }

  /** The fold over one more row is the fold over the rows and then that row's step. */
  lemma {:induction false} FoldAppend(step: (Progress, int, Row) -> Result<Progress, Abort>, p: Progress, rowIdx: int, rows: seq<Row>, row: Row)
    ensures Fold(step, p, rowIdx, rows + [row])
            == match Fold(step, p, rowIdx, rows)
               case Failure(e) => Failure(e)
               case Success(q) => step(q, rowIdx + |rows|, row)
    decreases |rows|
  {
    if rows == [] {
      assert rows + [row] == [row];
      assert [row][1..] == [];
    } else {
      assert (rows + [row])[0] == rows[0];
      assert (rows + [row])[1..] == rows[1..] + [row];
      match step(p, rowIdx, rows[0])
      case Failure(_) =>
      case Success(q) => FoldAppend(step, q, rowIdx + 1, rows[1..], row);
    }
  }

  /** The run over one row is that row's step. */
  lemma RunOne(p: Progress, rowIdx: int, row: Row, faults: Faults)
    ensures Run(p, rowIdx, [row], faults) == ThenStep(Success(p), rowIdx, row, faults)
  {
    assert [row][1..] == [];
  }

  /** A run goes on from the state its first row left. */
  lemma RunFirst(p: Progress, rowIdx: int, rows: seq<Row>, faults: Faults)
    requires rows != []
    ensures Step(p, rowIdx, rows[0], faults).Failure? ==>
              Run(p, rowIdx, rows, faults) == Failure(Step(p, rowIdx, rows[0], faults).error)
    ensures Step(p, rowIdx, rows[0], faults).Success? ==>
              Run(p, rowIdx, rows, faults) == Run(Step(p, rowIdx, rows[0], faults).value, rowIdx + 1, rows[1..], faults)
  {
  }

  /**
   A run that aborts does so at some row k, after the rows before it ran to completion: the
   abort carries that row's fetch error and the record those earlier rows left in the store.
   */
  lemma RunAbort(p: Progress, rowIdx: int, rows: seq<Row>, faults: Faults)
    requires Run(p, rowIdx, rows, faults).Failure?
    ensures exists k :: 0 <= k < |rows| && Run(p, rowIdx, rows[..k], faults).Success?
                        && rowIdx + k in faults.fetch
                        && Run(p, rowIdx, rows, faults).error
                           == Abort(faults.fetch[rowIdx + k], Run(p, rowIdx, rows[..k], faults).value.store)
  {
    var step := RowStep(faults);
    RunIsFold(p, rowIdx, rows, faults);
    FoldAbort(step, p, rowIdx, rows);
    var k :| 0 <= k < |rows| && Fold(step, p, rowIdx, rows[..k]).Success?
             && step(Fold(step, p, rowIdx, rows[..k]).value, rowIdx + k, rows[k]) == Fold(step, p, rowIdx, rows);
    RunIsFold(p, rowIdx, rows[..k], faults);
    var q := Run(p, rowIdx, rows[..k], faults).value;
    assert step(q, rowIdx + k, rows[k]) == Step(q, rowIdx + k, rows[k], faults);
  }

  /** A fold that fails does so at the step of some row k, after the rows before k went through. */
  lemma {:induction false} FoldAbort(step: (Progress, int, Row) -> Result<Progress, Abort>, p: Progress, rowIdx: int, rows: seq<Row>)
    requires Fold(step, p, rowIdx, rows).Failure?
    ensures exists k :: 0 <= k < |rows| && Fold(step, p, rowIdx, rows[..k]).Success?
                        && step(Fold(step, p, rowIdx, rows[..k]).value, rowIdx + k, rows[k]) == Fold(step, p, rowIdx, rows)
    decreases |rows|
  {
    assert rows[..0] == [];
    match step(p, rowIdx, rows[0])
    case Failure(_) =>
      assert Fold(step, p, rowIdx, rows[..0]) == Success(p);
    case Success(q) =>
      FoldAbort(step, q, rowIdx + 1, rows[1..]);
      var k :| 0 <= k < |rows[1..]| && Fold(step, q, rowIdx + 1, rows[1..][..k]).Success?
               && step(Fold(step, q, rowIdx + 1, rows[1..][..k]).value, rowIdx + 1 + k, rows[1..][k])
                  == Fold(step, q, rowIdx + 1, rows[1..]);
      assert rows[..k + 1][0] == rows[0];
      assert rows[..k + 1][1..] == rows[1..][..k];
      assert Fold(step, p, rowIdx, rows[..k + 1]) == Fold(step, q, rowIdx + 1, rows[1..][..k]);
      assert rows[k + 1] == rows[1..][k];
  }

  /** Continues a run with one more row, unless the run already ended. */
  function ThenStep(r: Result<Progress, Abort>, rowIdx: int, row: Row, faults: Faults): Result<Progress, Abort> {
    match r
    case Failure(e) => Failure(e)
    case Success(q) => Step(q, rowIdx, row, faults)
  }

  /** Every `-` row, and nothing else, is counted as skipped. */
  lemma {:induction false} RunCountsSkips(p: Progress, rowIdx: int, rows: seq<Row>, faults: Faults)
    requires Run(p, rowIdx, rows, faults).Success?
    ensures Run(p, rowIdx, rows, faults).value.skipped == p.skipped + CountSkips(rows)
    decreases |rows|
  {
    if rows != [] {
      var q := Step(p, rowIdx, rows[0], faults).value;
      RunCountsSkips(q, rowIdx + 1, rows[1..], faults);
    }
  }

  /** The sheet indices of the rows, starting at `rowIdx`, that are not marked `-`. */
  function ActiveIndices(rowIdx: int, rows: seq<Row>): (s: set<int>)
    ensures forall k :: k in s ==> rowIdx <= k < rowIdx + |rows|
    decreases |rows|
  {
    if rows == [] then {}
    else (if rows[0].action != Skip then {rowIdx} else {}) + ActiveIndices(rowIdx + 1, rows[1..])
  }

  /**
   Errors are keyed by the index of the row that caused them: a completed run adds entries only
   for its own rows that are not skipped, and leaves the entries of earlier rows alone.
   */
  lemma {:induction false} RunErrorsPerRow(p: Progress, rowIdx: int, rows: seq<Row>, faults: Faults)
    requires forall k :: k in p.errors ==> k < rowIdx
    requires Run(p, rowIdx, rows, faults).Success?
    ensures var q := Run(p, rowIdx, rows, faults).value;
            && q.errors.Keys <= p.errors.Keys + ActiveIndices(rowIdx, rows)
            && forall k :: k in p.errors ==> k in q.errors && q.errors[k] == p.errors[k]
    decreases |rows|
  {
    if rows != [] {
      var q := Step(p, rowIdx, rows[0], faults).value;
      RunErrorsPerRow(q, rowIdx + 1, rows[1..], faults);
    }
  }

  /**
   Each row is counted at most once: as skipped, as updated, or as an error entry.
   */
  lemma {:induction false} RunAccounting(p: Progress, rowIdx: int, rows: seq<Row>, faults: Faults)
    requires forall k :: k in p.errors ==> k < rowIdx
    requires Run(p, rowIdx, rows, faults).Success?
    ensures var q := Run(p, rowIdx, rows, faults).value;
            (q.skipped - p.skipped) + (|q.updated| - |p.updated|) + (|q.errors| - |p.errors|) <= |rows|
    ensures var q := Run(p, rowIdx, rows, faults).value;
            p.skipped <= q.skipped && |p.updated| <= |q.updated| && |p.errors| <= |q.errors|
    decreases |rows|
  {
    if rows != [] {
      var q := Step(p, rowIdx, rows[0], faults).value;
      assert rowIdx !in p.errors;
      if q.errors != p.errors {
        assert q.errors.Keys == p.errors.Keys + {rowIdx};
        assert |q.errors| == |p.errors| + 1;
        assert q.skipped == p.skipped && q.updated == p.updated;
      }
      RunAccounting(q, rowIdx + 1, rows[1..], faults);
    }
  }

  /** Rows marked `-` are only counted: they are not validated and never reach the store. */
  lemma {:induction false} RunAllSkipped(p: Progress, rowIdx: int, rows: seq<Row>, faults: Faults)
    requires forall k :: 0 <= k < |rows| ==> rows[k].action == Skip
    ensures Run(p, rowIdx, rows, faults) == Success(p.(skipped := p.skipped + |rows|))
    decreases |rows|
  {
    if rows != [] {
      RunAllSkipped(p.(skipped := p.skipped + 1), rowIdx + 1, rows[1..], faults);
    }
  }
}
