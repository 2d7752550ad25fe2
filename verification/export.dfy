/**
 The pure helpers of the product export: the last header column of each sheet, the item
 period and commitment labels, and the projection of a capabilities record onto the nine
 rows of the Capabilities sheet.
 */
module Export {

  import opened Results
  import opened Cells
  import opened Capabilities

  /** The last header column of each kind of sheet. */
  const SheetLastColumn: map<string, char> := map[
    "items" := 'M', "params" := 'L', "media" := 'F',
    "capabilities" := 'C', "static_links" := 'D', "templates" := 'F']

  /** The last header column of a sheet; an unknown kind of sheet gets 'Z'. */
  function ColumnLimit(wsType: string): (col: char)
    ensures col == (if wsType in SheetLastColumn then SheetLastColumn[wsType] else 'Z')
    ensures 'A' <= col <= 'Z'
    // the Capabilities header spans exactly the columns a synchronised row is read from
    ensures wsType == "capabilities" ==> col as int - 'A' as int + 1 == RowColumns
  {
    if wsType == "items" then 'M'
    else if wsType == "params" then 'L'
    else if wsType == "media" then 'F'
    else if wsType == "capabilities" then 'C'
    else if wsType == "static_links" then 'D'
    else if wsType == "templates" then 'F'
    else 'Z'
  }

  // ----- item period and commitment -----

  datatype Commitment = Commitment(count: int, multiplier: string)

  /** The fields of an item the labels read; None is a missing key. */
  datatype Item = Item(period: Option<string>, commitment: Option<Commitment>)

  /** The commitment column shows "-" when there is no multi-period billing commitment. */
  predicate NoCommitment(item: Item) {
    || item.period.None? || item.period.value == ""
    || item.commitment.None?
    || item.commitment.value.count == 1
    || item.commitment.value.multiplier != "billing_period"
  }

  /** The number of years a commitment stands for: monthly periods come twelve to a year. */
  function CommitmentYears(item: Item): int
    requires !NoCommitment(item)
  {
    if item.period.value == "monthly" then item.commitment.value.count / 12
    else item.commitment.value.count
  }

  predicate EndsWith(s: string, suffix: string) {
    |suffix| <= |s| && s[|s| - |suffix|..] == suffix
  }

  /** Reads "<n> year" or "<n> years" back as n. */
  function ParseCommitmentLabel(text: string): Option<int> {
    if EndsWith(text, " years") then ParseInt(text[..|text| - 6])
    else if EndsWith(text, " year") then ParseInt(text[..|text| - 5])
    else None
  }

  /**
   The commitment text of an item: "-", or a number of years. Python's `//` floors; with the
   positive divisor 12 that is the same as Dafny's `/`.
   */
  function CommitmentLabel(item: Item): (text: string)
    ensures text == "-" <==> NoCommitment(item)
    ensures text != "-" ==> ParseCommitmentLabel(text) == Some(CommitmentYears(item))
    ensures text != "-" ==>
              (text[|text| - 1] == 's' <==> item.period != Some("monthly") || CommitmentYears(item) > 1)
    // the number is written in canonical decimal, with no leading zeros
    ensures text != "-" ==>
              text == IntToString(CommitmentYears(item)) + (if text[|text| - 1] == 's' then " years" else " year")
  {
    match item.period
    case None => "-"
    case Some(period) =>
      if period == "" then "-"
      else
        match item.commitment
        case None => "-"
        case Some(c) =>
          if c.count == 1 then "-"
          else if c.multiplier == "billing_period" then
            if period == "monthly" then
              var years := c.count / 12;
              YearsLabelParses(years, years > 1);
              YearsLabel(years, years > 1)
            else
              YearsLabelParses(c.count, true);
              YearsLabel(c.count, true)
          else "-"
  }

  /** "<n> year", with an "s" when `plural`. */
  function YearsLabel(n: int, plural: bool): string {
    IntToString(n) + " year" + (if plural then "s" else "")
  }

  /** A years label is never "-", reads back as its number, and ends in "s" exactly when plural. */
  lemma YearsLabelParses(n: int, plural: bool)
    ensures YearsLabel(n, plural) != "-"
    ensures ParseCommitmentLabel(YearsLabel(n, plural)) == Some(n)
    ensures YearsLabel(n, plural)[|YearsLabel(n, plural)| - 1] == 's' <==> plural
    ensures YearsLabel(n, plural) == IntToString(n) + (if plural then " years" else " year")
  {
    if plural {
      YearsLabelPlural(n);
    } else {
      YearsLabelSingular(n);
    }
    ParseIntToString(n);
  }

  /** "<n> years" ends in " years" after the number. */
  lemma YearsLabelPlural(n: int)
    ensures var text := YearsLabel(n, true);
            |text| > 6 && text[|text| - 1] == 's'
            && EndsWith(text, " years") && text[..|text| - 6] == IntToString(n)
  {
    var text := YearsLabel(n, true);
    assert text == IntToString(n) + " years";
  }

  /** "<n> year" ends in " year", and not in " years", after the number. */
  lemma YearsLabelSingular(n: int)
    ensures var text := YearsLabel(n, false);
            |text| > 5 && text[|text| - 1] == 'r'
            && !EndsWith(text, " years") && EndsWith(text, " year") && text[..|text| - 5] == IntToString(n)
  {
    var text := YearsLabel(n, false);
    assert text == IntToString(n) + " year";
    assert text[|text| - 1] == 'r';
  }

  /** The values the commitment column's dropdown offers. */
  const CommitmentChoices: seq<string> := ["-", "1 year", "2 years", "3 years", "4 years", "5 years"]

  /** A monthly commitment of one to five whole years gets a text the dropdown offers. */
  lemma MonthlyCommitmentInDropdown(item: Item)
    requires item.period == Some("monthly") && item.commitment.Some?
    requires item.commitment.value.multiplier == "billing_period"
    requires 12 <= item.commitment.value.count < 72
    ensures CommitmentLabel(item) in CommitmentChoices
  {
    var years := item.commitment.value.count / 12;
    assert CommitmentLabel(item) == YearsLabel(years, years > 1);
    assert NatToString(1) == "1" && NatToString(2) == "2" && NatToString(3) == "3";
    assert NatToString(4) == "4" && NatToString(5) == "5";
    assert YearsLabel(years, years > 1) == CommitmentChoices[years];
  }

  /** The part of `s` after its last underscore, all of `s` when it has none: `s.rsplit('_')[-1]`. */
  function AfterLastUnderscore(s: string): (t: string)
    ensures |t| <= |s| && s[|s| - |t|..] == t
    ensures forall k :: 0 <= k < |t| ==> t[k] != '_'
    ensures |t| < |s| ==> s[|s| - |t| - 1] == '_'
    decreases |s|
  {
    if s == [] then []
    else if s[|s| - 1] == '_' then []
    else AfterLastUnderscore(s[..|s| - 1]) + [s[|s| - 1]]
  }

  predicate StartsWith(s: string, prefix: string) {
    |prefix| <= |s| && s[..|prefix|] == prefix
  }

  /** The period column: a missing period is monthly, and "years_<n>" reads "<n> years". */
  function PeriodLabel(period: Option<string>): (text: string)
    ensures period.None? ==> text == "monthly"
    ensures period.Some? && !StartsWith(period.value, "years_") ==> text == period.value
  {
    var p := match period case None => "monthly" case Some(v) => v;
    if StartsWith(p, "years_") then AfterLastUnderscore(p) + " years" else p
  }

  /** A period "years_<n>" is shown as "<n> years". */
  lemma {:induction false} PeriodLabelYears(n: string)
    requires forall k :: 0 <= k < |n| ==> n[k] != '_'
    ensures PeriodLabel(Some("years_" + n)) == n + " years"
  {
    var p := "years_" + n;
    assert StartsWith(p, "years_");
    var t := AfterLastUnderscore(p);
    assert p[5] == '_';
    assert t == p[|p| - |t|..];
    assert t == n;
  }

  /** A label "<t> years" with no underscore in t does not look like a "years_<n>" period. */
  lemma {:induction false} YearsLabelIsNotPeriod(t: string)
    requires forall k :: 0 <= k < |t| ==> t[k] != '_'
    ensures !StartsWith(t + " years", "years_")
  {
    var text := t + " years";
    if |t| >= 6 {
      assert text[5] == t[5];
    } else {
      assert text[5] == " years"[5 - |t|];
    }
    assert text[5] != '_';
    assert "years_"[5] == '_';
  }

  /** A label is its own label: rewriting the period column again changes nothing. */
  lemma PeriodLabelFixedPoint(period: Option<string>)
    ensures PeriodLabel(Some(PeriodLabel(period))) == PeriodLabel(period)
  {
    var p := match period case None => "monthly" case Some(v) => v;
    if StartsWith(p, "years_") {
      YearsLabelIsNotPeriod(AfterLastUnderscore(p));
    } else {
      assert PeriodLabel(period) == p;
    }
  }

  /** The values the period column's dropdown offers. */
  const PeriodChoices: seq<string> :=
    ["onetime", "monthly", "yearly", "2 years", "3 years", "4 years", "5 years"]

  /** The single-word periods, and a missing one, get a label the dropdown offers. */
  lemma PeriodLabelInDropdown(period: Option<string>)
    requires period.None? || period.value in ["onetime", "monthly", "yearly"]
    ensures PeriodLabel(period) in PeriodChoices
  {
    if period.Some? {
      assert period.value[5] != '_';
      assert PeriodLabel(period) == period.value;
    }
  }

  /** So are the multi-year periods "years_2" to "years_5": "years_<d>" reads "<d> years". */
  lemma YearsPeriodInDropdown(d: char)
    requires '2' <= d <= '5'
    ensures PeriodLabel(Some("years_" + [d])) == [d] + " years"
    ensures PeriodLabel(Some("years_" + [d])) in PeriodChoices
  {
    PeriodLabelYears([d]);
    assert [d] + " years" == PeriodChoices[(d as int - '0' as int) + 1];
  }

  // ----- the Capabilities sheet -----

  /**
   The value cell of one capability's row, as the export is evidently meant to write it: the
   two pay-as-you-go flags as Enabled/Disabled like the other on/off cells (the export as
   written is ExportRowsAsWritten below).
   */
  function CapabilityValue(cap: Capability, c: ProductCapabilities): (v: Cell)
    // the schema and the level are copied, or Disabled when the record has none
    ensures cap == PpuSchema ==> v == (if c.ppu.Some? then c.ppu.value.schema else Disabled)
    ensures cap == ResellerLevel ==> v == (if c.tiers.configs.Some? then c.tiers.configs.value.level else Disabled)
    // every other cell is Enabled or Disabled, and Enabled exactly when its flag is set
    ensures cap != PpuSchema && cap != ResellerLevel ==> v == Enabled || v == Disabled
    ensures cap == PpuDynamic ==> (v == Enabled <==> c.ppu.Some? && c.ppu.value.dynamic)
    ensures cap == PpuFuture ==> (v == Enabled <==> c.ppu.Some? && c.ppu.value.future)
    ensures cap == ReservationConsumption ==> (v == Enabled <==> c.reservation.consumption)
    ensures cap == DraftValidation ==> (v == Enabled <==> c.cart.validation)
    ensures cap == InquiringValidation ==> (v == Enabled <==> c.inquiring.validation)
    ensures cap == TierSync ==> (v == Enabled <==> c.tiers.updates)
    ensures cap == AdministrativeHold ==> (v == Enabled <==> c.subscription.hold)
  {
    match cap
    case PpuSchema => if c.ppu.Some? then c.ppu.value.schema else Disabled
    case PpuDynamic => Switch(c.ppu.Some? && c.ppu.value.dynamic)
    case PpuFuture => Switch(c.ppu.Some? && c.ppu.value.future)
    case ReservationConsumption => Switch(c.reservation.consumption)
    case DraftValidation => Switch(c.cart.validation)
    case InquiringValidation => Switch(c.inquiring.validation)
    case ResellerLevel => if c.tiers.configs.Some? then c.tiers.configs.value.level else Disabled
    case TierSync => Switch(c.tiers.updates)
    case AdministrativeHold => Switch(c.subscription.hold)
  }

  /** A well-formed record exports a value inside its capability's validator domain. */
  lemma ValueInDomain(cap: Capability, c: ProductCapabilities)
    requires WellFormed(c)
    ensures PyIn(CapabilityValue(cap, c), Domain(Some(cap)))
  {
    match cap
    case PpuSchema =>
      if c.ppu.None? {
        assert PyEq(Disabled, SchemaValues[0]);
      }
    case ResellerLevel =>
      if c.tiers.configs.None? {
        assert PyEq(Disabled, LevelValues[0]);
      }
    case _ =>
  }

  /** Every value cell of a well-formed record lies in its capability's validator domain. */
  lemma ValuesInDomain(c: ProductCapabilities)
    ensures WellFormed(c) ==> forall cap :: PyIn(CapabilityValue(cap, c), Domain(Some(cap)))
  {
    if WellFormed(c) {
      forall cap ensures PyIn(CapabilityValue(cap, c), Domain(Some(cap))) {
        ValueInDomain(cap, c);
      }
    }
  }

  /**
   The Capabilities sheet's data rows: one per capability in catalog order, each with the
   action "-"; row k is written at sheet index FirstDataRow + k.
   */
  function ExportRows(c: ProductCapabilities): (rows: seq<Row>)
    ensures |rows| == |AllCapabilities| == 9
    ensures forall k :: 0 <= k < |rows| ==>
              && rows[k].capability == Str(Name(AllCapabilities[k]))
              && rows[k].action == Skip
              && rows[k].value == CapabilityValue(AllCapabilities[k], c)
    // a well-formed record exports only values the validator accepts
    ensures WellFormed(c) ==> forall k :: 0 <= k < |rows| ==> PyIn(rows[k].value, Domain(Some(AllCapabilities[k])))
  {
    ValuesInDomain(c);
    seq(|AllCapabilities|, k requires 0 <= k < |AllCapabilities| => ExportRow(AllCapabilities[k], c))
  }

  /** The exported row of one capability. */
  function ExportRow(cap: Capability, c: ProductCapabilities): Row {
    Row(Str(Name(cap)), Skip, CapabilityValue(cap, c))
  }

  /**
   The exported rows cell by cell, in terms of the record's fields: the schema and the level
   rows copy their field or read Disabled, and every other row reads Enabled exactly when its
   flag is set, and Disabled otherwise.
   */
  lemma ExportedFields(c: ProductCapabilities)
    ensures var rows := ExportRows(c);
            && rows[0].value == (if c.ppu.Some? then c.ppu.value.schema else Disabled)
            && rows[6].value == (if c.tiers.configs.Some? then c.tiers.configs.value.level else Disabled)
            && (forall k :: 0 <= k < |rows| && k != 0 && k != 6 ==> rows[k].value in {Enabled, Disabled})
            && (rows[1].value == Enabled <==> c.ppu.Some? && c.ppu.value.dynamic)
            && (rows[2].value == Enabled <==> c.ppu.Some? && c.ppu.value.future)
            && (rows[3].value == Enabled <==> c.reservation.consumption)
            && (rows[4].value == Enabled <==> c.cart.validation)
            && (rows[5].value == Enabled <==> c.inquiring.validation)
            && (rows[7].value == Enabled <==> c.tiers.updates)
            && (rows[8].value == Enabled <==> c.subscription.hold)
  {
    ExportedSwitchesOnOff(c);
    ExportedPpuFlags(c);
    ExportedOtherFlags(c);
  }

  /** Every row but the schema and the level rows reads Enabled or Disabled. */
  lemma ExportedSwitchesOnOff(c: ProductCapabilities)
    ensures var rows := ExportRows(c);
            forall k :: 0 <= k < |rows| && k != 0 && k != 6 ==> rows[k].value in {Enabled, Disabled}
  {
    var rows := ExportRows(c);
    forall k | 0 <= k < |rows| && k != 0 && k != 6
      ensures rows[k].value in {Enabled, Disabled}
    {
      assert AllCapabilities[k] != PpuSchema && AllCapabilities[k] != ResellerLevel;
    }
  }

  /** The pay-as-you-go rows of the corrected export. */
  lemma ExportedPpuFlags(c: ProductCapabilities)
    ensures var rows := ExportRows(c);
            && rows[0].value == (if c.ppu.Some? then c.ppu.value.schema else Disabled)
            && (rows[1].value == Enabled <==> c.ppu.Some? && c.ppu.value.dynamic)
            && (rows[2].value == Enabled <==> c.ppu.Some? && c.ppu.value.future)
  {
    assert AllCapabilities[0] == PpuSchema;
    assert AllCapabilities[1] == PpuDynamic;
    assert AllCapabilities[2] == PpuFuture;
  }

  /** The remaining rows of the corrected export. */
  lemma ExportedOtherFlags(c: ProductCapabilities)
    ensures var rows := ExportRows(c);
            && rows[6].value == (if c.tiers.configs.Some? then c.tiers.configs.value.level else Disabled)
            && (rows[3].value == Enabled <==> c.reservation.consumption)
            && (rows[4].value == Enabled <==> c.cart.validation)
            && (rows[5].value == Enabled <==> c.inquiring.validation)
            && (rows[7].value == Enabled <==> c.tiers.updates)
            && (rows[8].value == Enabled <==> c.subscription.hold)
  {
    assert AllCapabilities[3] == ReservationConsumption;
    assert AllCapabilities[4] == DraftValidation;
    assert AllCapabilities[5] == InquiringValidation;
    assert AllCapabilities[6] == ResellerLevel;
    assert AllCapabilities[7] == TierSync;
    assert AllCapabilities[8] == AdministrativeHold;
  }

  /**
   The rows as the export writes them: the two pay-as-you-go flag cells hold the record's
   boolean itself when `ppu` is present; every other row is the one above.
   */
  function ExportRowsAsWritten(c: ProductCapabilities): (rows: seq<Row>)
    ensures |rows| == |ExportRows(c)|
    ensures forall k :: 0 <= k < |rows| && k != 1 && k != 2 ==> rows[k] == ExportRows(c)[k]
    ensures rows[1] == ExportRows(c)[1].(value := if c.ppu.Some? then Bool(c.ppu.value.dynamic) else Disabled)
    ensures rows[2] == ExportRows(c)[2].(value := if c.ppu.Some? then Bool(c.ppu.value.future) else Disabled)
  {
    var rows := ExportRows(c);
    match c.ppu
    case None => rows
    case Some(p) => rows[1 := rows[1].(value := Bool(p.dynamic))][2 := rows[2].(value := Bool(p.future))]
  }

  /**
   The cells of column B that get the action dropdown: one per exported row, B2 to B10.
   */
  method ActionValidationCells() returns (cells: seq<string>)
    ensures |cells| == |AllCapabilities|
    ensures forall k :: 0 <= k < |cells| ==> cells[k] == "B" + NatToString(FirstDataRow + k)
  {
    cells := [];
    var idx := 2;
    while idx < 11
      invariant 2 <= idx <= 11
      invariant |cells| == idx - 2
      invariant forall k :: 0 <= k < |cells| ==> cells[k] == "B" + NatToString(FirstDataRow + k)
    {
      cells := cells + ["B" + NatToString(idx)];
      idx := idx + 1;
    }
  }
}
