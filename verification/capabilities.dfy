/**
 The product capabilities record that the remote product store holds, the catalog of the
 nine capability names the Capabilities sheet uses, and the value domain of each.
 */
module Capabilities {

  import opened Results
  import opened Cells

  /** Pay-as-you-go settings; `schema` holds the cell value the synchroniser stored. */
  datatype Ppu = Ppu(schema: Cell, dynamic: bool, future: bool)

  datatype Reservation = Reservation(consumption: bool)

  datatype Cart = Cart(validation: bool)

  datatype Inquiring = Inquiring(validation: bool)

  /** Reseller authorization; `level` holds the cell value the synchroniser stored. */
  datatype TierConfig = TierConfig(level: Cell)

  datatype Tiers = Tiers(configs: Option<TierConfig>, updates: bool)

  datatype Subscription = Subscription(hold: bool)

  /** The `capabilities` sub-record of a product; an absent `ppu` or `configs` is Python's None. */
  datatype ProductCapabilities = ProductCapabilities(
    ppu: Option<Ppu>,
    reservation: Reservation,
    cart: Cart,
    inquiring: Inquiring,
    tiers: Tiers,
    subscription: Subscription)

  /** One data row of the Capabilities sheet: columns A, B and C. */
  datatype Row = Row(capability: Cell, action: Cell, value: Cell)

  /** Row 1 of every sheet is its header; data starts on row 2. */
  const FirstDataRow: nat := 2

  /** The synchroniser reads columns 1 to 3 of each data row. */
  const RowColumns: nat := 3

  /** The action that leaves a row alone, and the one that writes it. */
  const Skip: Cell := Str("-")
  const Update: Cell := Str("update")

  /** The nine capabilities of the Capabilities sheet. */
  datatype Capability =
    | PpuSchema | PpuDynamic | PpuFuture | ReservationConsumption | DraftValidation
    | InquiringValidation | ResellerLevel | TierSync | AdministrativeHold

  /** The name each capability has in column A. */
  function Name(cap: Capability): string {
    match cap
    case PpuSchema => "Pay-as-you-go support and schema"
    case PpuDynamic => "Pay-as-you-go dynamic items support"
    case PpuFuture => "Pay-as-you-go future charges support"
    case ReservationConsumption => "Consumption reporting for Reservation Items"
    case DraftValidation => "Dynamic Validation of the Draft Requests"
    case InquiringValidation => "Dynamic Validation of the Inquiring Form"
    case ResellerLevel => "Reseller Authorization Level"
    case TierSync => "Tier Accounts Sync"
    case AdministrativeHold => "Administrative Hold"
  }

  /** The capabilities in the order the export writes them. */
  const AllCapabilities: seq<Capability> := [
    PpuSchema, PpuDynamic, PpuFuture, ReservationConsumption, DraftValidation,
    InquiringValidation, ResellerLevel, TierSync, AdministrativeHold]

  /**
   The capability a column A cell names, if any: Python's `capability == '<name>'` for each
   of the nine names, so only a string cell can name one.
   */
  function CapabilityOf(c: Cell): (r: Option<Capability>)
    ensures r.Some? ==> c == Str(Name(r.value))
    ensures forall cap :: c == Str(Name(cap)) ==> r == Some(cap)
  {
    if c == Str(Name(PpuSchema)) then Some(PpuSchema)
    else if c == Str(Name(PpuDynamic)) then Some(PpuDynamic)
    else if c == Str(Name(PpuFuture)) then Some(PpuFuture)
    else if c == Str(Name(ReservationConsumption)) then Some(ReservationConsumption)
    else if c == Str(Name(DraftValidation)) then Some(DraftValidation)
    else if c == Str(Name(InquiringValidation)) then Some(InquiringValidation)
    else if c == Str(Name(ResellerLevel)) then Some(ResellerLevel)
    else if c == Str(Name(TierSync)) then Some(TierSync)
    else if c == Str(Name(AdministrativeHold)) then Some(AdministrativeHold)
    else None
  }

  /** Python's `capability in CAPABILITIES`. */
  predicate IsKnown(capability: Cell) {
    CapabilityOf(capability).Some?
  }

  const Disabled: Cell := Str("Disabled")
  const Enabled: Cell := Str("Enabled")

  /** Values accepted for the pay-as-you-go schema. */
  const SchemaValues: seq<Cell> := [Disabled, Str("QT"), Str("TR"), Str("PR"), Str("CR")]

  /** Values accepted for the reseller authorization level. */
  const LevelValues: seq<Cell> := [Disabled, Int(1), Int(2)]

  /** Values accepted for every on/off capability. */
  const SwitchValues: seq<Cell> := [Disabled, Enabled]

  /** The value domain of each capability, as a table; an unknown name gets the on/off domain. */
  function Domain(cap: Option<Capability>): seq<Cell> {
    match cap
    case Some(PpuSchema) => SchemaValues
    case Some(ResellerLevel) => LevelValues
    case _ => SwitchValues
  }

  /** The cell written for an on/off flag. */
  function Switch(on: bool): (c: Cell)
    ensures PyIn(c, SwitchValues)
    ensures c == Enabled <==> on
  {
    if on then
      assert PyEq(Enabled, SwitchValues[1]);
      Enabled
    else
      assert PyEq(Disabled, SwitchValues[0]);
      Disabled
  }

  /**
   A record the synchroniser can itself produce from valid rows: a present `ppu` holds a
   supported, non-Disabled schema, and a present tier config holds level 1 or 2.
   */
  predicate WellFormed(c: ProductCapabilities) {
    && (c.ppu.Some? ==> PyIn(c.ppu.value.schema, SchemaValues) && c.ppu.value.schema != Disabled)
    && (c.tiers.configs.Some? ==>
          PyIn(c.tiers.configs.value.level, LevelValues) && c.tiers.configs.value.level != Disabled)
  }
}
