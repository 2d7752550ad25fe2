/**
 Worked runs of the synchroniser on small sheets, against a store holding an arbitrary
 record `c0`: one row at a time, the order of dependent rows, and the two kinds of store
 failure.
 */
module Scenarios {

  import opened Results
  import opened Cells
  import opened Capabilities
  import opened Validation
  import opened Mutation
  import opened Sync

  /** A row naming `cap` whose value is the k-th entry of the capability's domain passes validation. */
  lemma ValidRow(cap: Capability, value: Cell, k: nat)
    requires k < |Domain(Some(cap))| && PyEq(value, Domain(Some(cap))[k])
    ensures ValidateRow(Str(Name(cap)), value) == []
  {
    assert CapabilityOf(Str(Name(cap))) == Some(cap);
  }

  /** Enabling the administrative hold updates one capability and writes the flag. */
  lemma HoldEnabled(c0: ProductCapabilities)
    ensures Synchronize([Row(Str(Name(AdministrativeHold)), Update, Enabled)], c0, NoFaults)
            == Success(Summary(0, 1, map[], c0.(subscription := Subscription(true))))
  {
    var row := Row(Str(Name(AdministrativeHold)), Update, Enabled);
    var p0 := Progress(0, [], map[], c0);
    ValidRow(AdministrativeHold, Enabled, 1);
    assert CapabilityOf(row.capability) == Some(AdministrativeHold);
    StepOutcome(p0, FirstDataRow, row, NoFaults);
    RunOne(p0, FirstDataRow, row, NoFaults);
  }

  /** Reseller level 3 is out of range: the row's one error, and the store untouched. */
  lemma ResellerLevelOutOfRange(c0: ProductCapabilities)
    ensures Synchronize([Row(Str(Name(ResellerLevel)), Update, Int(3))], c0, NoFaults)
            == Success(Summary(0, 0, map[2 := ["3" + " is not valid for Reseller Authorization level capability"]], c0))
  {
    var row := Row(Str(Name(ResellerLevel)), Update, Int(3));
    var p0 := Progress(0, [], map[], c0);
    assert CapabilityOf(row.capability) == Some(ResellerLevel);
    assert !PyIn(Int(3), LevelValues);
    assert Show(Int(3)) == "3";
    assert DomainError(row.capability, row.value) == "3" + " is not valid for Reseller Authorization level capability";
    assert ValidateRow(row.capability, row.value) == ["3" + " is not valid for Reseller Authorization level capability"];
    StepOutcome(p0, FirstDataRow, row, NoFaults);
    RunOne(p0, FirstDataRow, row, NoFaults);
  }

  /** Setting a schema first lets the next row enable dynamic items. */
  lemma SchemaThenDynamic(c0: ProductCapabilities)
    requires c0.ppu.None?
    ensures Synchronize([Row(Str(Name(PpuSchema)), Update, Str("QT")),
                         Row(Str(Name(PpuDynamic)), Update, Enabled)], c0, NoFaults)
            == Success(Summary(0, 2, map[], c0.(ppu := Some(Ppu(Str("QT"), true, false)))))
  {
    var schema := Row(Str(Name(PpuSchema)), Update, Str("QT"));
    var dynamic := Row(Str(Name(PpuDynamic)), Update, Enabled);
    var p0 := Progress(0, [], map[], c0);
    ValidRow(PpuSchema, Str("QT"), 1);
    assert CapabilityOf(schema.capability) == Some(PpuSchema);
    StepOutcome(p0, FirstDataRow, schema, NoFaults);
    var c1 := c0.(ppu := Some(Ppu(Str("QT"), false, false)));
    var p1 := p0.(updated := [schema.capability], store := c1);
    assert Apply(PpuSchema, Str("QT"), c0) == Mutated(c1, true);
    assert p0.updated + [schema.capability] == [schema.capability];
    assert Step(p0, FirstDataRow, schema, NoFaults) == Success(p1);
    ValidRow(PpuDynamic, Enabled, 1);
    assert CapabilityOf(dynamic.capability) == Some(PpuDynamic);
    StepOutcome(p1, FirstDataRow + 1, dynamic, NoFaults);
    RunAppend(p0, FirstDataRow, [schema], dynamic, NoFaults);
    RunOne(p0, FirstDataRow, schema, NoFaults);
    assert [schema] + [dynamic] == [schema, dynamic];
  }

  /**
   In the other order the dynamic-items row meets no `ppu` and is reported, while the schema
   row after it still goes through: row order matters and errors do not stop the run.
   */
  lemma DynamicBeforeSchema(c0: ProductCapabilities)
    requires c0.ppu.None?
    ensures Synchronize([Row(Str(Name(PpuDynamic)), Update, Enabled),
                         Row(Str(Name(PpuSchema)), Update, Str("QT"))], c0, NoFaults)
            == Success(Summary(0, 1, map[2 := [DynamicWithoutPpu]], c0.(ppu := Some(Ppu(Str("QT"), false, false)))))
  {
    var dynamic := Row(Str(Name(PpuDynamic)), Update, Enabled);
    var schema := Row(Str(Name(PpuSchema)), Update, Str("QT"));
    var p0 := Progress(0, [], map[], c0);
    ValidRow(PpuDynamic, Enabled, 1);
    assert CapabilityOf(dynamic.capability) == Some(PpuDynamic);
    StepOutcome(p0, FirstDataRow, dynamic, NoFaults);
    var p1 := p0.(errors := map[FirstDataRow := [DynamicWithoutPpu]]);
    assert Step(p0, FirstDataRow, dynamic, NoFaults) == Success(p1);
    ValidRow(PpuSchema, Str("QT"), 1);
    assert CapabilityOf(schema.capability) == Some(PpuSchema);
    StepOutcome(p1, FirstDataRow + 1, schema, NoFaults);
    RunAppend(p0, FirstDataRow, [dynamic], schema, NoFaults);
    RunOne(p0, FirstDataRow, dynamic, NoFaults);
    assert [dynamic] + [schema] == [dynamic, schema];
  }

  /** A failing write is the row's error; the store keeps its record and nothing counts as updated. */
  lemma WriteFailure(c0: ProductCapabilities, message: string)
    ensures Synchronize([Row(Str(Name(AdministrativeHold)), Update, Enabled)], c0, Faults(map[], map[2 := message]))
            == Success(Summary(0, 0, map[2 := [message]], c0))
  {
    var row := Row(Str(Name(AdministrativeHold)), Update, Enabled);
    var p0 := Progress(0, [], map[], c0);
    ValidRow(AdministrativeHold, Enabled, 1);
    assert CapabilityOf(row.capability) == Some(AdministrativeHold);
    StepOutcome(p0, FirstDataRow, row, Faults(map[], map[2 := message]));
    RunOne(p0, FirstDataRow, row, Faults(map[], map[2 := message]));
  }

  /**
   A failing fetch on the second row ends the whole run with that failure, and the hold the
   first row wrote stays written.
   */
  lemma FetchFailure(c0: ProductCapabilities, message: string)
    ensures Synchronize([Row(Str(Name(AdministrativeHold)), Update, Enabled),
                         Row(Str(Name(TierSync)), Update, Enabled)], c0, Faults(map[3 := message], map[]))
            == Failure(Abort(message, c0.(subscription := Subscription(true))))
  {
    var faults := Faults(map[3 := message], map[]);
    var hold := Row(Str(Name(AdministrativeHold)), Update, Enabled);
    var tiers := Row(Str(Name(TierSync)), Update, Enabled);
    var p0 := Progress(0, [], map[], c0);
    ValidRow(AdministrativeHold, Enabled, 1);
    assert CapabilityOf(hold.capability) == Some(AdministrativeHold);
    StepOutcome(p0, FirstDataRow, hold, faults);
    ValidRow(TierSync, Enabled, 1);
    var p1 := Step(p0, FirstDataRow, hold, faults).value;
    StepOutcome(p1, FirstDataRow + 1, tiers, faults);
    RunAppend(p0, FirstDataRow, [hold], tiers, faults);
    RunOne(p0, FirstDataRow, hold, faults);
    assert [hold] + [tiers] == [hold, tiers];
  }
}
