/** The row validator of the capabilities synchroniser. */
module Validation {

  import opened Results
  import opened Cells
  import opened Capabilities

  /** The message reported for a value outside its capability's domain. */
  function DomainError(capability: Cell, value: Cell): string {
    match CapabilityOf(capability)
    case Some(PpuSchema) => "Schema " + Show(value) + " is not supported"
    case Some(ResellerLevel) => Show(value) + " is not valid for Reseller Authorization level capability"
    case _ => Show(capability) + " may be Enabled or Disabled, but not " + Show(value)
  }

  function UnknownError(capability: Cell): string {
    "Capability " + Show(capability) + " is not valid capability"
  }

  /**
   The errors of one row, in the order they are reported. An unknown name is reported and
   checking goes on; the schema and the reseller level return straight after their own
   check, so a bad value in them is reported once.
   */
  function ValidateRow(capability: Cell, value: Cell): (errors: seq<string>)
    ensures errors == [] <==> IsKnown(capability) && PyIn(value, Domain(CapabilityOf(capability)))
    ensures !IsKnown(capability) ==> |errors| >= 1 && errors[0] == UnknownError(capability)
    ensures !PyIn(value, Domain(CapabilityOf(capability))) ==>
              |errors| >= 1 && errors[|errors| - 1] == DomainError(capability, value)
    ensures |errors| == (if IsKnown(capability) then 0 else 1)
                      + (if PyIn(value, Domain(CapabilityOf(capability))) then 0 else 1)
  {
    var unknown := if IsKnown(capability) then [] else [UnknownError(capability)];
    if capability == Str(Name(PpuSchema)) then
      if !PyIn(value, SchemaValues) then unknown + [DomainError(capability, value)] else unknown
    else if capability == Str(Name(ResellerLevel)) && !PyIn(value, LevelValues) then
      unknown + [DomainError(capability, value)]
    else if !PyIn(value, SwitchValues) && capability != Str(Name(ResellerLevel)) then
      unknown + [DomainError(capability, value)]
    else
      unknown
  }
}
