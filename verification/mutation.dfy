/**
 The per-capability update of one validated row against the freshly fetched capabilities
 record: the new record and whether it must be written back, or the dependency violation
 the synchroniser raises.
 */
module Mutation {

  import opened Results
  import opened Cells
  import opened Capabilities

  datatype Mutation = Mutated(caps: ProductCapabilities, persist: bool) | Violation(message: string)

  const DynamicWithoutPpu: string :=
    "Dynamic items support can't be enabled without Pay-as-you-go support"
  const FutureWithoutPpu: string :=
    "Report of future charges can't be enabled without Pay-as-you-go support"

  /** The two pay-as-you-go flags that depend on `ppu` being present. */
  predicate IsPpuFlag(cap: Capability) {
    cap == PpuDynamic || cap == PpuFuture
  }

  /** Sets the pay-as-you-go schema: creates `ppu` with both flags off, or keeps the flags. */
  function SetSchema(value: Cell, c: ProductCapabilities): ProductCapabilities {
    if value != Disabled then
      match c.ppu
      case None => c.(ppu := Some(Ppu(value, false, false)))
      case Some(p) => c.(ppu := Some(p.(schema := value)))
    else
      c.(ppu := None)
  }

  /**
   The cascade of capability branches: only the branch of `cap` fires. Rows reach it only
   once validated, so `cap` is one of the nine capabilities.
   */
  function Apply(cap: Capability, value: Cell, c: ProductCapabilities): (m: Mutation)
    ensures m.Violation? <==> IsPpuFlag(cap) && c.ppu.None? && value == Enabled
    ensures m.Violation? ==> m.message == (if cap == PpuDynamic then DynamicWithoutPpu else FutureWithoutPpu)
    ensures m.Mutated? && !m.persist <==> IsPpuFlag(cap) && c.ppu.None? && value != Enabled
    ensures m.Mutated? && !m.persist ==> m.caps == c
    // each branch leaves every field it does not own as it was
    ensures m.Mutated? && cap != PpuSchema && !IsPpuFlag(cap) ==> m.caps.ppu == c.ppu
    ensures m.Mutated? && cap != PpuSchema ==> (m.caps.ppu.Some? <==> c.ppu.Some?)
    ensures m.Mutated? && cap != PpuSchema && c.ppu.Some? && m.caps.ppu.Some? ==>
              m.caps.ppu.value.schema == c.ppu.value.schema
    ensures m.Mutated? && cap != PpuDynamic && c.ppu.Some? && m.caps.ppu.Some? ==>
              m.caps.ppu.value.dynamic == c.ppu.value.dynamic
    ensures m.Mutated? && cap != PpuFuture && c.ppu.Some? && m.caps.ppu.Some? ==>
              m.caps.ppu.value.future == c.ppu.value.future
    ensures m.Mutated? && cap != ReservationConsumption ==> m.caps.reservation == c.reservation
    ensures m.Mutated? && cap != DraftValidation ==> m.caps.cart == c.cart
    ensures m.Mutated? && cap != InquiringValidation ==> m.caps.inquiring == c.inquiring
    ensures m.Mutated? && cap != ResellerLevel ==> m.caps.tiers.configs == c.tiers.configs
    ensures m.Mutated? && cap != TierSync ==> m.caps.tiers.updates == c.tiers.updates
    ensures m.Mutated? && cap != AdministrativeHold ==> m.caps.subscription == c.subscription
  {
    match cap
    case PpuSchema =>
      Mutated(SetSchema(value, c), true)
    case PpuDynamic =>
      (match c.ppu
       case None => if value == Enabled then Violation(DynamicWithoutPpu) else Mutated(c, false)
       case Some(p) => Mutated(c.(ppu := Some(p.(dynamic := value == Enabled))), true))
    case PpuFuture =>
      (match c.ppu
       case None => if value == Enabled then Violation(FutureWithoutPpu) else Mutated(c, false)
       case Some(p) => Mutated(c.(ppu := Some(p.(future := value == Enabled))), true))
    case ReservationConsumption =>
      Mutated(c.(reservation := Reservation(value == Enabled)), true)
    case DraftValidation =>
      Mutated(c.(cart := Cart(value == Enabled)), true)
    case InquiringValidation =>
      Mutated(c.(inquiring := Inquiring(value == Enabled)), true)
    case ResellerLevel =>
      var configs := if value == Disabled then None else Some(TierConfig(value));
      Mutated(c.(tiers := c.tiers.(configs := configs)), true)
    case TierSync =>
      Mutated(c.(tiers := c.tiers.(updates := value == Enabled)), true)
    case AdministrativeHold =>
      Mutated(c.(subscription := Subscription(value == Enabled)), true)
  }

  /** Applying the same row to its own result changes nothing further. */
  lemma ApplyIdempotent(cap: Capability, value: Cell, c: ProductCapabilities)
    requires Apply(cap, value, c).Mutated?
    ensures Apply(cap, value, Apply(cap, value, c).caps).Mutated?
    ensures Apply(cap, value, Apply(cap, value, c).caps).caps
            == Apply(cap, value, c).caps
  {
  }

  /** Setting the schema: a new `ppu` has both flags off, an existing one keeps them, Disabled erases it. */
  lemma SchemaRow(value: Cell, c: ProductCapabilities)
    ensures Apply(PpuSchema, value, c) == Mutated(Apply(PpuSchema, value, c).caps, true)
    ensures var d := Apply(PpuSchema, value, c).caps;
            && (value == Disabled ==> d.ppu.None?)
            && (value != Disabled && c.ppu.None? ==> d.ppu == Some(Ppu(value, false, false)))
            && (value != Disabled && c.ppu.Some? ==>
                  d.ppu == Some(Ppu(value, c.ppu.value.dynamic, c.ppu.value.future)))
  {
  }

  /** On/off capabilities become true exactly when the value is Enabled. */
  lemma SwitchRow(cap: Capability, value: Cell, c: ProductCapabilities)
    requires cap in {ReservationConsumption, DraftValidation, InquiringValidation, TierSync, AdministrativeHold}
             || (IsPpuFlag(cap) && c.ppu.Some?)
    ensures Apply(cap, value, c).Mutated? && Apply(cap, value, c).persist
    ensures var d := Apply(cap, value, c).caps;
            && (cap == ReservationConsumption ==> (d.reservation.consumption <==> value == Enabled))
            && (cap == DraftValidation ==> (d.cart.validation <==> value == Enabled))
            && (cap == InquiringValidation ==> (d.inquiring.validation <==> value == Enabled))
            && (cap == TierSync ==> (d.tiers.updates <==> value == Enabled))
            && (cap == AdministrativeHold ==> (d.subscription.hold <==> value == Enabled))
            && (cap == PpuDynamic ==> d.ppu.Some? && (d.ppu.value.dynamic <==> value == Enabled))
            && (cap == PpuFuture ==> d.ppu.Some? && (d.ppu.value.future <==> value == Enabled))
  {
  }

  /** The reseller level: Disabled removes the tier config, any other value becomes its level. */
  lemma LevelRow(value: Cell, c: ProductCapabilities)
    ensures Apply(ResellerLevel, value, c).Mutated?
    ensures Apply(ResellerLevel, value, c).caps.tiers.configs
            == (if value == Disabled then None else Some(TierConfig(value)))
  {
  }
}
