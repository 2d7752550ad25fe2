/**
 How the export and the synchroniser fit together: every exported row passes the validator,
 applying a row shows up in the exported value of that capability and nowhere else (save
 that disabling the schema also disables both pay-as-you-go flags), and syncing an exported
 sheet with every action set to `update` reproduces the exported record. All three hold for
 the corrected export; the export as written breaks them when `ppu` is present.
 */
module RoundTrip {

  import opened Results
  import opened Cells
  import opened Capabilities
  import opened Validation
  import opened Mutation
  import opened Sync
  import opened Export

  /** Every row the export writes for a well-formed record passes the validator. */
  lemma ExportRowsValidate(c: ProductCapabilities)
    requires WellFormed(c)
    ensures forall k :: 0 <= k < |ExportRows(c)| ==>
              ValidateRow(ExportRows(c)[k].capability, ExportRows(c)[k].value) == []
  {
    forall k | 0 <= k < |ExportRows(c)|
      ensures ValidateRow(ExportRows(c)[k].capability, ExportRows(c)[k].value) == []
    {
      var cap := AllCapabilities[k];
      assert CapabilityOf(Str(Name(cap))) == Some(cap);
      ValueInDomain(cap, c);
    }
  }

  /**
   As written, the export puts the record's own boolean in the dynamic-items and
   future-charges cells whenever `ppu` is present. The validator only takes Enabled or
   Disabled there, so once the action is set to `update` each of those rows is reported as
   an error, whatever state the run has reached, and the flag is never written back.
   */
  lemma ExportAsWrittenDynamicRejected(c: ProductCapabilities, p: Progress, faults: Faults)
    requires c.ppu.Some?
    ensures var row := ExportRowsAsWritten(c)[1].(action := Update);
            var msg := Name(PpuDynamic) + " may be Enabled or Disabled, but not "
                       + (if c.ppu.value.dynamic then "True" else "False");
            && ValidateRow(row.capability, row.value) == [msg]
            && Step(p, FirstDataRow + 1, row, faults) == Success(p.(errors := p.errors[FirstDataRow + 1 := [msg]]))
  {
    var row := ExportRowsAsWritten(c)[1].(action := Update);
    assert AllCapabilities[1] == PpuDynamic;
    assert row == Row(Str(Name(PpuDynamic)), Update, Bool(c.ppu.value.dynamic));
    assert CapabilityOf(row.capability) == Some(PpuDynamic);
    assert !PyIn(row.value, SwitchValues);
  }

  /** The same holds for the future-charges row. */
  lemma ExportAsWrittenFutureRejected(c: ProductCapabilities, p: Progress, faults: Faults)
    requires c.ppu.Some?
    ensures var row := ExportRowsAsWritten(c)[2].(action := Update);
            var msg := Name(PpuFuture) + " may be Enabled or Disabled, but not "
                       + (if c.ppu.value.future then "True" else "False");
            && ValidateRow(row.capability, row.value) == [msg]
            && Step(p, FirstDataRow + 2, row, faults) == Success(p.(errors := p.errors[FirstDataRow + 2 := [msg]]))
  {
    var row := ExportRowsAsWritten(c)[2].(action := Update);
    assert AllCapabilities[2] == PpuFuture;
    assert row == Row(Str(Name(PpuFuture)), Update, Bool(c.ppu.value.future));
    assert CapabilityOf(row.capability) == Some(PpuFuture);
    assert !PyIn(row.value, SwitchValues);
  }

  /** The corrected export writes Enabled or Disabled there, which the validator accepts. */
  lemma ExportCorrectedAccepted(c: ProductCapabilities)
    ensures ValidateRow(ExportRows(c)[1].capability, ExportRows(c)[1].value) == []
    ensures ValidateRow(ExportRows(c)[2].capability, ExportRows(c)[2].value) == []
  {
    var rows := ExportRows(c);
    assert AllCapabilities[1] == PpuDynamic && AllCapabilities[2] == PpuFuture;
    assert CapabilityOf(rows[1].capability) == Some(PpuDynamic);
    assert CapabilityOf(rows[2].capability) == Some(PpuFuture);
  }

  /**
   Applying a valid row is visible in the export exactly where it should be: the capability's
   own cell now holds the row's value, and every other cell is unchanged, except that
   disabling the schema also turns both pay-as-you-go flags off.
   */
  lemma ApplyShowsInExport(cap: Capability, value: Cell, c: ProductCapabilities)
    requires PyIn(value, Domain(Some(cap)))
    requires Apply(cap, value, c).Mutated?
    ensures var d := Apply(cap, value, c).caps;
            && CapabilityValue(cap, d) == value
            && forall other :: other != cap ==>
                 if cap == PpuSchema && value == Disabled && (other == PpuDynamic || other == PpuFuture)
                 then CapabilityValue(other, d) == Disabled
                 else CapabilityValue(other, d) == CapabilityValue(other, c)
  {
    if cap != PpuSchema && cap != ResellerLevel {
      var k :| 0 <= k < |SwitchValues| && PyEq(value, SwitchValues[k]);
      PyEqString(value, SwitchValues[k].s);
    }
  }

  /** Applying a valid row to a well-formed record gives a well-formed record. */
  lemma ApplyKeepsWellFormed(cap: Capability, value: Cell, c: ProductCapabilities)
    requires WellFormed(c)
    requires PyIn(value, Domain(Some(cap)))
    requires Apply(cap, value, c).Mutated?
    ensures WellFormed(Apply(cap, value, c).caps)
  {
  }

  // ----- syncing a whole exported sheet -----

  /** The rows with their action set to `update`. */
  function AsUpdates(rows: seq<Row>): (updates: seq<Row>)
    ensures |updates| == |rows|
    ensures forall k :: 0 <= k < |rows| ==> updates[k] == rows[k].(action := Update)
  {
    seq(|rows|, k requires 0 <= k < |rows| => rows[k].(action := Update))
  }

  predicate IsValidUpdate(row: Row) {
    row.action == Update && ValidateRow(row.capability, row.value) == []
  }

  /**
   The record after applying the rows one after the other, unless one of them names no
   capability or violates a dependency.
   */
  function Replay(store: ProductCapabilities, rows: seq<Row>): Option<ProductCapabilities>
    decreases |rows|
  {
    if rows == [] then Some(store)
    else
      match CapabilityOf(rows[0].capability)
      case None => None
      case Some(cap) =>
        match Apply(cap, rows[0].value, store)
        case Violation(_) => None
        case Mutated(d, _) => Replay(d, rows[1..])
  }

  function NamesOf(rows: seq<Row>): (names: seq<Cell>)
    ensures |names| == |rows|
  {
    seq(|rows|, k requires 0 <= k < |rows| => rows[k].capability)
  }

  /** One valid `update` row against a store that never fails. */
  lemma StepValidUpdate(p: Progress, rowIdx: int, row: Row)
    requires IsValidUpdate(row)
    requires Replay(p.store, [row]).Some?
    ensures Step(p, rowIdx, row, NoFaults)
            == Success(p.(updated := p.updated + [row.capability], store := Replay(p.store, [row]).value))
  {
    StepOutcome(p, rowIdx, row, NoFaults);
    assert [row][1..] == [];
  }

  /**
   With a store that never fails, a run of valid `update` rows whose mutations all succeed
   counts every row as updated, reports nothing, and leaves the store holding the replayed
   record: each row sees what the rows before it wrote.
   */
  lemma {:induction false} RunReplays(p: Progress, rowIdx: int, rows: seq<Row>)
    requires forall k :: 0 <= k < |rows| ==> IsValidUpdate(rows[k])
    requires Replay(p.store, rows).Some?
    ensures Run(p, rowIdx, rows, NoFaults)
            == Success(p.(updated := p.updated + NamesOf(rows), store := Replay(p.store, rows).value))
    decreases |rows|
  {
    if rows != [] {
      ReplayFirst(p.store, rows);
      var q := p.(updated := p.updated + [rows[0].capability], store := Replay(p.store, [rows[0]]).value);
      assert forall k :: 0 <= k < |rows[1..]| ==> rows[1..][k] == rows[k + 1];
      RunReplays(q, rowIdx + 1, rows[1..]);
      RunFirstValid(p, rowIdx, rows);
      NamesOfFirst(p.updated, rows);
    } else {
      assert p.updated + NamesOf(rows) == p.updated;
    }
  }

  /** The names of a non-empty run of rows: the first row's, then the rest. */
  lemma NamesOfFirst(updated: seq<Cell>, rows: seq<Row>)
    requires rows != []
    ensures updated + [rows[0].capability] + NamesOf(rows[1..]) == updated + NamesOf(rows)
  {
    assert [rows[0].capability] + NamesOf(rows[1..]) == NamesOf(rows);
  }

  /** A run whose first row is a valid update goes on from the state that row leaves. */
  lemma RunFirstValid(p: Progress, rowIdx: int, rows: seq<Row>)
    requires rows != [] && IsValidUpdate(rows[0])
    requires Replay(p.store, [rows[0]]).Some?
    ensures Run(p, rowIdx, rows, NoFaults)
            == Run(p.(updated := p.updated + [rows[0].capability], store := Replay(p.store, [rows[0]]).value),
                   rowIdx + 1, rows[1..], NoFaults)
  {
    StepValidUpdate(p, rowIdx, rows[0]);
    RunFirst(p, rowIdx, rows, NoFaults);
  }

  /** Replaying a sequence is replaying its first row, then the rest. */
  lemma ReplayFirst(store: ProductCapabilities, rows: seq<Row>)
    requires rows != [] && Replay(store, rows).Some?
    ensures Replay(store, [rows[0]]).Some?
    ensures Replay(store, rows) == Replay(Replay(store, [rows[0]]).value, rows[1..])
  {
    assert [rows[0]][1..] == [];
  }

  /** The record with the exported row of `cap` applied. */
  function ApplyExported(cap: Capability, c: ProductCapabilities, store: ProductCapabilities): ProductCapabilities {
    match Apply(cap, CapabilityValue(cap, c), store)
    case Mutated(d, _) => d
    case Violation(_) => store
  }

  /** Replaying the exported sheet from its row k on: the row's own update, then the rest. */
  lemma ReplayExportedRow(c: ProductCapabilities, store: ProductCapabilities, k: nat)
    requires k < |AllCapabilities|
    requires Apply(AllCapabilities[k], CapabilityValue(AllCapabilities[k], c), store).Mutated?
    ensures var rows := AsUpdates(ExportRows(c));
            Replay(store, rows[k..]) == Replay(ApplyExported(AllCapabilities[k], c, store), rows[k + 1..])
  {
    var rows := AsUpdates(ExportRows(c));
    assert rows[k] == Row(Str(Name(AllCapabilities[k])), Update, CapabilityValue(AllCapabilities[k], c));
    assert CapabilityOf(rows[k].capability) == Some(AllCapabilities[k]);
    assert rows[k..][0] == rows[k];
    assert rows[k..][1..] == rows[k + 1..];
  }

  /**
   The three pay-as-you-go rows of a well-formed record, in export order, make any record's
   `ppu` equal to the exported one: the schema row recreates or removes it first.
   */
  lemma ReplayExportedPpu(c: ProductCapabilities, c0: ProductCapabilities)
    requires WellFormed(c)
    ensures Apply(PpuSchema, CapabilityValue(PpuSchema, c), c0).Mutated?
    ensures var s1 := ApplyExported(PpuSchema, c, c0);
            Apply(PpuDynamic, CapabilityValue(PpuDynamic, c), s1).Mutated?
    ensures var s2 := ApplyExported(PpuDynamic, c, ApplyExported(PpuSchema, c, c0));
            Apply(PpuFuture, CapabilityValue(PpuFuture, c), s2).Mutated?
    ensures ApplyExported(PpuFuture, c, ApplyExported(PpuDynamic, c, ApplyExported(PpuSchema, c, c0)))
            == c0.(ppu := c.ppu)
  {
  }

  /** The six remaining rows then copy the other fields. */
  lemma ReplayExportedFields(c: ProductCapabilities, s: ProductCapabilities)
    requires WellFormed(c) && s.ppu == c.ppu
    ensures
      var s4 := ApplyExported(ReservationConsumption, c, s);
      var s5 := ApplyExported(DraftValidation, c, s4);
      var s6 := ApplyExported(InquiringValidation, c, s5);
      var s7 := ApplyExported(ResellerLevel, c, s6);
      var s8 := ApplyExported(TierSync, c, s7);
      ApplyExported(AdministrativeHold, c, s8) == c
  {
  }

  /** The record after the first k exported rows have been applied to `c0`. */
  function Replayed(c: ProductCapabilities, c0: ProductCapabilities, k: nat): ProductCapabilities
    requires k <= |AllCapabilities|
  {
    if k == 0 then c0 else ApplyExported(AllCapabilities[k - 1], c, Replayed(c, c0, k - 1))
  }

  /** No exported row of a well-formed record is refused at any point of the replay. */
  lemma ReplayedMutates(c: ProductCapabilities, c0: ProductCapabilities, k: nat)
    requires WellFormed(c) && k < |AllCapabilities|
    ensures Apply(AllCapabilities[k], CapabilityValue(AllCapabilities[k], c), Replayed(c, c0, k)).Mutated?
  {
    if k == 1 || k == 2 {
      ReplayExportedPpu(c, c0);
      assert Replayed(c, c0, 1) == ApplyExported(PpuSchema, c, c0);
    }
  }

  /** Replaying the exported rows from row k on completes the replay of all nine. */
  lemma {:induction false} ReplayFrom(c: ProductCapabilities, c0: ProductCapabilities, k: nat)
    requires WellFormed(c) && k <= |AllCapabilities|
    ensures Replay(Replayed(c, c0, k), AsUpdates(ExportRows(c))[k..]) == Some(Replayed(c, c0, |AllCapabilities|))
    decreases |AllCapabilities| - k
  {
    var rows := AsUpdates(ExportRows(c));
    if k < |AllCapabilities| {
      ReplayedMutates(c, c0, k);
      ReplayExportedRow(c, Replayed(c, c0, k), k);
      ReplayFrom(c, c0, k + 1);
    } else {
      assert rows[k..] == [];
    }
  }

  /** After the first three exported rows, only the `ppu` part has been replaced. */
  lemma ReplayedPpu(c: ProductCapabilities, c0: ProductCapabilities)
    requires WellFormed(c)
    ensures Replayed(c, c0, 3) == c0.(ppu := c.ppu)
  {
    ReplayExportedPpu(c, c0);
    assert Replayed(c, c0, 1) == ApplyExported(PpuSchema, c, c0);
    assert Replayed(c, c0, 2) == ApplyExported(PpuDynamic, c, Replayed(c, c0, 1));
  }

  /** All nine exported rows together rebuild the exported record. */
  lemma ReplayedAll(c: ProductCapabilities, c0: ProductCapabilities)
    requires WellFormed(c)
    ensures Replayed(c, c0, |AllCapabilities|) == c
  {
    ReplayedPpu(c, c0);
    var s3 := Replayed(c, c0, 3);
    ReplayExportedFields(c, s3);
    assert Replayed(c, c0, 4) == ApplyExported(ReservationConsumption, c, s3);
    assert Replayed(c, c0, 5) == ApplyExported(DraftValidation, c, Replayed(c, c0, 4));
    assert Replayed(c, c0, 6) == ApplyExported(InquiringValidation, c, Replayed(c, c0, 5));
    assert Replayed(c, c0, 7) == ApplyExported(ResellerLevel, c, Replayed(c, c0, 6));
    assert Replayed(c, c0, 8) == ApplyExported(TierSync, c, Replayed(c, c0, 7));
  }

  /**
   Replaying the exported rows of a well-formed record onto any record gives the exported
   record.
   */
  lemma ReplayExport(c: ProductCapabilities, c0: ProductCapabilities)
    requires WellFormed(c)
    ensures Replay(c0, AsUpdates(ExportRows(c))) == Some(c)
  {
    ReplayFrom(c, c0, 0);
    ReplayedAll(c, c0);
    assert AsUpdates(ExportRows(c))[0..] == AsUpdates(ExportRows(c));
  }

  /**
   The round trip: export a well-formed record, set every action to `update`, and sync the
   sheet against a store holding any record. All nine rows count as updated, none is
   skipped or reported, and the store ends up holding the exported record.
   */
  lemma SyncReproducesExport(c: ProductCapabilities, c0: ProductCapabilities)
    requires WellFormed(c)
    ensures Synchronize(AsUpdates(ExportRows(c)), c0, NoFaults) == Success(Summary(0, 9, map[], c))
  {
    var rows := AsUpdates(ExportRows(c));
    ExportRowsValidate(c);
    ReplayExport(c, c0);
    RunReplays(Progress(0, [], map[], c0), FirstDataRow, rows);
  }

  /**
   An exported sheet synced as it is skips all nine rows and never touches the store, both as
   the export writes it and with the corrected flag cells.
   */
  lemma SyncUntouchedExport(c: ProductCapabilities, c0: ProductCapabilities, faults: Faults)
    ensures Synchronize(ExportRowsAsWritten(c), c0, faults) == Success(Summary(9, 0, map[], c0))
    ensures Synchronize(ExportRows(c), c0, faults) == Success(Summary(9, 0, map[], c0))
  {
    var written := ExportRowsAsWritten(c);
    assert forall k :: 0 <= k < |written| ==> written[k].action == Skip;
    RunAllSkipped(Progress(0, [], map[], c0), FirstDataRow, written, faults);
    RunAllSkipped(Progress(0, [], map[], c0), FirstDataRow, ExportRows(c), faults);
  }
}
