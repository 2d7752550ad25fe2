# Capabilities synchroniser of connect-cli, in Dafny

This project models the part of connect-cli that writes a product's *capabilities* back
from the "Capabilities" sheet of a product workbook. It also models the pure helpers of the
product export that write that sheet and the item labels.

Capabilities are pay-as-you-go support and its two flags, reservation consumption
reporting, the dynamic validation flags, the reseller authorization level, tier account
sync and the administrative hold.

- `cells.dfy`, modules `Results` and `Cells`:
  - an untyped spreadsheet cell: a string, an integer, a boolean or empty;
  - Python's `==` on cells, where `True == 1`, and `in` on a tuple of cells;
  - Python's `str()` of a cell, and the decimal rendering and parsing of integers.
- `capabilities.dfy`, module `Capabilities`:
  - the nested capabilities record of a product, with `ppu` and the tier config optional;
  - the nine capability names, which sheet row carries each, and the value domain of each.
- `validation.dfy`, module `Validation`: `_validate_row`, the error messages of one row, in order.
- `mutation.dfy`, module `Mutation`: the cascade of capability branches in `sync`. It
  returns the new record and whether it must be written back, or the dependency violation
  (a flag enabled while `ppu` is absent).
- `sync.dfy`, module `Sync`: the `sync` loop as a left fold over the data rows. The remote
  product store is the record it holds, plus a table of failures by row index: a failing
  fetch and a failing update. The result is the triple (skipped, updated, errors by row) and
  the record the store ends with. A failing fetch ends the run with its message and the
  record the store holds at that point.
- `export.dfy`, module `Export`:
  - `_get_col_limit_by_ws_type`;
  - `_calculate_commitment`;
  - the period rewrite of `_fill_item_row`;
  - the projection of `_dump_capabilities` onto nine rows, and its action dropdown cells.
- `roundtrip.dfy`, module `RoundTrip`, states how the export and the synchroniser fit.
  The first three points hold for the corrected export (see Findings); the export as
  written breaks them whenever `ppu` is present. The fourth holds for both.
  - every exported row of a well-formed record passes the validator;
  - applying a row changes that capability's exported cell and no other, except that
    disabling the schema also turns both pay-as-you-go flag cells to Disabled;
  - syncing an exported sheet with every action set to `update` reproduces the exported
    record, whatever record the store held, on a store that never fails;
  - syncing it unchanged skips all nine rows.
- `scenarios.dfy`, module `Scenarios`: small worked runs:
  - a single row;
  - an out-of-range level;
  - the two orders of a schema row and a dynamic-items row;
  - a failing write;
  - a failing fetch.

Notes on what the code does:

- The product is fetched (`capabilities_sync.py:41`) outside the `try` block. A failing fetch
  therefore ends the whole run as a `Failure`; it is not recorded as that row's error. Each
  earlier row's write was committed on its own and stays in the store. A failing `update`
  and a dependency violation are recorded as the row's one error.
- A valid row whose action is neither `-` nor `update` is fetched and then ignored.
- `tiers.configs.level` and `ppu.schema` hold the raw cell value the synchroniser wrote:
  `{'level': data.value}`. They are therefore cells, not an integer or an enumeration. The
  validator accepts `True` as level 1, because `True == 1` in Python.

## Model

| member | source | states |
|---|---|---|
| Cells.ParseIntToString | cnctcli/actions/products/export.py:191-197 | The decimal text of any integer reads back as that integer, so a years count printed by `format` is recoverable. |
| Capabilities.CapabilityOf | cnctcli/actions/products/export.py:512-569 | A cell names a capability exactly when it is the string of that capability's sheet name; the nine names are distinct. |
| Capabilities.Switch | cnctcli/actions/products/export.py:531-536 | An on/off cell is always Enabled or Disabled, and it is Enabled exactly when the flag is set. |
| Validation.ValidateRow | cnctcli/actions/products/capabilities_sync.py:134-154 | A row has no error if and only if its name is known and its value is in the capability's domain. An unknown name puts "Capability X is not valid capability" first. A value outside the domain puts the schema, level or Enabled/Disabled message last. There are exactly as many errors as failed conditions, so an unknown name with a bad value gives two. |
| Mutation.Apply | cnctcli/actions/products/capabilities_sync.py:46-119 | A row is refused with the exact "can't be enabled without Pay-as-you-go support" message if and only if it enables a pay-as-you-go flag while `ppu` is absent. A flag row that is not Enabled while `ppu` is absent changes nothing and asks for no write. Each branch leaves every field it does not own unchanged. This includes the schema, which only the schema row changes. |
| Mutation.ApplyIdempotent | cnctcli/actions/products/capabilities_sync.py:46-119 | Applying the same row to its own result gives the same record again. |
| Mutation.SchemaRow | cnctcli/actions/products/capabilities_sync.py:46-57 | A schema row always asks for a write. Disabled removes `ppu`. Any other value creates `ppu` with both flags off when it was absent, or changes only the schema when it was present. |
| Mutation.SwitchRow | cnctcli/actions/products/capabilities_sync.py:58-119 | Each on/off capability, and each pay-as-you-go flag while `ppu` is present, becomes true if and only if the value is Enabled, and asks for a write. |
| Mutation.LevelRow | cnctcli/actions/products/capabilities_sync.py:103-109 | Disabled removes the tier config; any other value becomes the config's level. |
| Sync.Step | cnctcli/actions/products/capabilities_sync.py:29-125 | A `-` row adds exactly one to skipped and nothing else. Only a row that is not skipped can end the run, and only through a failing fetch, which carries the fetch's message and the store as it was before the row. Errors change only at this row's index. The updated list grows by this row's name or not at all, and never together with an error. |
| Sync.Commit | cnctcli/actions/products/capabilities_sync.py:120-125 | An update row is either counted as updated with no error, or gets exactly one error and leaves the store and the updated list as they were. |
| Sync.StepOutcome | cnctcli/actions/products/capabilities_sync.py:35-125 | For each stage a row reaches, the step's exact result: invalid, fetch failed, other action, violation, failed write, or updated. In the updated case the store holds the new record if and only if a write was asked for, so a "nothing to disable" flag row counts as updated without a write. |
| Sync.RunAbort | cnctcli/actions/products/capabilities_sync.py:29-125 | A run that ends in a failure does so at some row k whose fetch failed. The rows before k ran to completion, and the failure carries row k's fetch message and the record those rows left in the store, so earlier writes are not undone. |
| Sync.RunAppend | cnctcli/actions/products/capabilities_sync.py:29-125 | Running one more row is running the shorter sheet and then that row from the state it left, so no row's error stops the rows after it. |
| Sync.RunCountsSkips | cnctcli/actions/products/capabilities_sync.py:32-34 | A completed run's skipped count is exactly the number of `-` rows. |
| Sync.RunErrorsPerRow | cnctcli/actions/products/capabilities_sync.py:37-39 | A completed run adds error entries only at the indices of its own rows that are not skipped, and keeps every earlier entry. |
| Sync.RunAccounting | cnctcli/actions/products/capabilities_sync.py:127-131 | Each row adds at most one to skipped, the updated count or the error entries, so their sum never exceeds the number of rows, and none decreases. |
| Sync.RunAllSkipped | cnctcli/actions/products/capabilities_sync.py:32-34 | A sheet of `-` rows is only counted, whatever the store would do. |
| Export.ColumnLimit | cnctcli/actions/products/export.py:123-136 | items, params, media, capabilities, static_links and templates map to M, L, F, C, D and F; any other sheet gets Z; the result is a column letter. Capabilities gets C, so its header spans the three columns A to C that the synchroniser reads. |
| Export.CommitmentLabel | cnctcli/actions/products/export.py:176-200 | The text is "-" if and only if the period is missing or empty, the commitment is missing, the count is 1 or the multiplier is not `billing_period`. Otherwise it reads back as count // 12 for a monthly period and as count for others. It ends in "s" unless the period is monthly and count // 12 is at most 1. The text is exactly the canonical decimal of that number, with no leading zeros, followed by " years" or " year". |
| Export.YearsLabelParses | cnctcli/actions/products/export.py:192-197 | "<n> year" and "<n> years" are never "-", parse back to n, end in "s" exactly when plural, and are the decimal of n followed by " years" or " year". |
| Export.MonthlyCommitmentInDropdown | cnctcli/actions/products/export.py:659-663 | A monthly commitment of 12 to 71 periods gets a text the commitment dropdown offers. |
| Export.AfterLastUnderscore | cnctcli/actions/products/export.py:321 | `rsplit('_')[-1]`: the longest suffix without an underscore, preceded by an underscore unless it is the whole string. |
| Export.PeriodLabel | cnctcli/actions/products/export.py:319-322 | A missing period reads "monthly"; a period not starting with "years_" is kept. |
| Export.PeriodLabelYears | cnctcli/actions/products/export.py:320-321 | "years_N" reads "N years", for N without an underscore. |
| Export.PeriodLabelFixedPoint | cnctcli/actions/products/export.py:319-322 | Rewriting a label again changes nothing. |
| Export.PeriodLabelInDropdown | cnctcli/actions/products/export.py:647-651 | A missing period, "onetime", "monthly" and "yearly" get a label the period dropdown offers. |
| Export.YearsPeriodInDropdown | cnctcli/actions/products/export.py:647-651 | "years_2" to "years_5" read "2 years" to "5 years", which the period dropdown offers. |
| Export.CapabilityValue | cnctcli/actions/products/export.py:512-574 | The schema cell holds the schema, or Disabled when `ppu` is absent. The level cell holds the level, or Disabled when there is no tier config. Every other cell is Enabled or Disabled, and it is Enabled exactly when its flag is set. This is the corrected export (see Findings). |
| Export.ExportRows | cnctcli/actions/products/export.py:512-574 | Nine rows, one per capability in the fixed sheet order. Each row has the capability's sheet name, the action "-", and that capability's value cell as stated for CapabilityValue. For a well-formed record every value lies in its capability's validator domain. This is the corrected export (see Findings). |
| Export.ExportedFields | cnctcli/actions/products/export.py:512-574 | Row by row, in terms of the record's fields: row 0 holds the schema, or Disabled without `ppu`. Row 6 holds the level, or Disabled without a tier config. Every other row is Enabled or Disabled. Rows 1 to 5, 7 and 8 read Enabled exactly when dynamic items, future charges, reservation consumption, draft validation, inquiring validation, tier sync and the hold are set, in that order. This is the corrected export (see Findings). |
| Export.ExportRowsAsWritten | cnctcli/actions/products/export.py:518-526 | The export as written. When `ppu` is present, the dynamic-items and future-charges rows hold the record's raw booleans. Otherwise, and in every other row, it equals ExportRows. |
| Export.ActionValidationCells | cnctcli/actions/products/export.py:575-578 | The action dropdown covers exactly B2 to B10, one cell per exported row. |
| Export.ValueInDomain | cnctcli/actions/products/export.py:512-574 | With the corrected export (see Findings), a well-formed record exports a value inside each capability's validator domain. |
| Export.ValuesInDomain | cnctcli/actions/products/export.py:512-574 | The same, for all nine capabilities at once. |
| RoundTrip.ExportRowsValidate | cnctcli/actions/products/capabilities_sync.py:134-154 | With the corrected export (see Findings), every row exported from a well-formed record passes the validator. |
| RoundTrip.ExportAsWrittenDynamicRejected | cnctcli/actions/products/export.py:518-521 | With `ppu` present, the exported dynamic-items row set to `update` is refused with "... may be Enabled or Disabled, but not True" (or False), in any state of a run. |
| RoundTrip.ExportAsWrittenFutureRejected | cnctcli/actions/products/export.py:524-527 | The same for the future-charges row. |
| RoundTrip.ExportCorrectedAccepted | cnctcli/actions/products/export.py:518-527 | For any record, well formed or not, the corrected export puts Enabled or Disabled in those two cells, and both rows pass the validator. |
| RoundTrip.ApplyShowsInExport | cnctcli/actions/products/capabilities_sync.py:46-119 | With the corrected export (see Findings), after a valid row the capability's exported cell holds the row's value. Every other cell is unchanged, except that disabling the schema turns both flags off. |
| RoundTrip.ApplyKeepsWellFormed | cnctcli/actions/products/capabilities_sync.py:46-119 | A valid row keeps a record well formed. |
| RoundTrip.StepValidUpdate | cnctcli/actions/products/capabilities_sync.py:41-122 | A valid update row that does not violate a dependency, against a store that never fails, is counted as updated and leaves the store holding the row applied to the fresh record. |
| RoundTrip.RunReplays | cnctcli/actions/products/capabilities_sync.py:41-122 | Against a store that never fails, a run of valid update rows none of which meets a dependency violation counts every row as updated, reports nothing, and leaves the store holding the rows applied in order: each row sees what the earlier rows wrote. |
| RoundTrip.ReplayExport | cnctcli/actions/products/capabilities_sync.py:46-119 | With the corrected export (see Findings), applying the nine exported rows of a well-formed record, in sheet order, to any record gives the exported record. |
| RoundTrip.SyncReproducesExport | cnctcli/actions/products/capabilities_sync.py:20-131 | With the corrected export (see Findings), syncing an exported sheet with every action set to `update` returns (0, 9, no errors) and leaves the store holding the exported record, whatever it held before, on a store that never fails. |
| RoundTrip.SyncUntouchedExport | cnctcli/actions/products/capabilities_sync.py:32-34 | Syncing the sheet the export writes, unchanged, returns (9, 0, no errors) and never touches the store, under any store failures. The same holds for the corrected export. |
| Scenarios.HoldEnabled | cnctcli/actions/products/capabilities_sync.py:115-122 | One "Administrative Hold" Enabled row gives (0, 1, no errors) and a store with the hold set. |
| Scenarios.ResellerLevelOutOfRange | cnctcli/actions/products/capabilities_sync.py:146-150 | Level 3 gives the one error "3 is not valid for Reseller Authorization level capability" at row 2 and leaves the store alone. |
| Scenarios.SchemaThenDynamic | cnctcli/actions/products/capabilities_sync.py:41-70 | Schema QT followed by dynamic Enabled, on a record without `ppu`, updates both and ends with `ppu` = (QT, dynamic on, future off). |
| Scenarios.DynamicBeforeSchema | cnctcli/actions/products/capabilities_sync.py:58-64 | In the other order the dynamic row is refused at row 2, and the schema row after it still creates `ppu`. |
| Scenarios.WriteFailure | cnctcli/actions/products/capabilities_sync.py:120-125 | A failing update is the row's one error; nothing counts as updated and the store keeps its record. |
| Scenarios.FetchFailure | cnctcli/actions/products/capabilities_sync.py:41-125 | A failing fetch at the second row ends the whole run with that failure. The store keeps the hold the first row wrote. |

## Left out

- Workbook access through openpyxl, cell styling, column widths and the DataValidation objects are spreadsheet I/O. A row is modelled as its three cells at an index from 2 on.
- The dropdown of the schema cell offers "Disabled,QT,TR,PR" and lacks CR (export.py:494). It is a DataValidation object, so it is not modelled.
- The ConnectClient calls are modelled as a store holding one record, with failures by row index. Their error types and HTTP status formatting are not modelled. Only the failure's text is modelled.
- `cleanup_product_for_update` and the base class `ProductSynchronizer` are not part of this model. Cleanup is taken as the identity on the capabilities record.
- A capabilities record that lacks a sub-record would raise KeyError in `sync`. This is not modelled: the record always has every sub-record.
- Optional fields merge "absent" with "null", and a flag is a plain boolean. The code does not treat the two alike in every place:
  - export.py:560 tests `'configs' in tiers` and then subscripts `tiers['configs']['level']`. A present `configs: null` raises TypeError there, and capabilities_sync.py:105 writes exactly that null when the level is set to Disabled. The model exports Disabled instead. RoundTrip.ApplyShowsInExport (the Disabled-level case), RoundTrip.ReplayExport and RoundTrip.SyncReproducesExport rely on this reading. They therefore assume the store returns a product whose tier config was nulled without the `configs` key.
  - export.py:319-320 reads `item.get('period', 'monthly')` and calls `startswith` on it. A present `period: null` raises AttributeError. The model reads it as missing, so it gives "monthly".
- No other writer changes the store between two rows of a run: each fetch returns what the previous row left. RoundTrip.RunReplays and RoundTrip.SyncReproducesExport rely on this.
- The tqdm progress bars, `_dump_image`, the file-system checks, the other sheets, `_get_json_object_for_param` and `datetime.now` are I/O or library formatting.
- Float cells are not modelled.
- Export.CommitmentLabel: a monthly commitment of fewer than 12 periods gives "0 year". The model keeps this, and the contract pins the text to the decimal of the year count, so it states "0 year" too.

## Findings

| source | as written | input that shows it | evidently intended | confidence | as-written member | corrected member |
|---|---|---|---|---|---|---|
| cnctcli/actions/products/export.py:518-526 | The dynamic-items and future-charges cells receive the raw `ppu['dynamic']` / `ppu['future']` booleans when `ppu` is present. | A product with `ppu` present: the sheet shows True/False. Setting that row's action to `update` makes the synchroniser report "Pay-as-you-go dynamic items support may be Enabled or Disabled, but not True" and never write the flag. | Enabled/Disabled, as the other flag cells and their dropdown use. | not executed | RoundTrip.ExportAsWrittenDynamicRejected | RoundTrip.SyncReproducesExport |
