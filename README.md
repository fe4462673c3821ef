# Acupuncture bed store: a verified model

This project models the core of a clinic front-end that records acupuncture
needle counts per treatment bed. It covers two parts:

- **The bed data store** (`BedDataContext`). It holds two pieces of state:
  `beds`, a map from a bed id to the record active on that bed (or none), and
  `history`, a newest-first list of every record ever saved.
  - `updateBedData` files a record on a bed and puts it at the front of the history.
  - `clearBedData` empties a bed. It also stamps a removal time on the history
    entries of the cleared episode, which are found by the composite key
    `(scanTimestamp, patientId)`.
- **The intake form** (`NeedleRecordForm`). It holds the needle counts for seven
  body regions, the extras (moxibustion, cupping, electroacupuncture pairs,
  remarks) and the chosen bed. On submission it builds the record and hands it to
  the store.

Files:
- `constants.dfy` holds the region set and the bed count.
- `types.dfy` holds the record shape.
- `bed_data_context.dfy` holds the store. It is a class `BedDataStore` with the
  two fields, and pure functions for the new values: `NewRecord`, `WithRemoval`
  and `MarkRemoved`.
- `needle_record_form.dfy` holds the form. It is a class `Form` with its handlers,
  and functions for the initial counts, the total and the bed options.

Timestamps are opaque strings. The clock value (`new Date().toISOString()`) is a
method parameter. The store invariant `WellFormed` says three things:
- every record active on bed `b` is filed under `b` and has no removal time;
- the episode of every active record appears in the history;
- every history entry has its needling time equal to its scan time.

Both store operations preserve it.

`clearBedData` maps over the whole history (context/BedDataContext.tsx:48-50).
So it rewrites every entry that shares the active record's
`(scanTimestamp, patientId)`, not just one. It replaces each such entry with a
copy of the active record, including its `bedId` and counts. `MarkRemovedAt`
states this behaviour. `CollidingEntryTakesActiveRecord` pins down what happens
when two episodes share a key. `ClearAmendsOnlyItsEpisode` shows that exactly one
entry changes when all keys are distinct.

## Model

| member | source | states |
|---|---|---|
| Constants.BodyPartsListEachOnce | constants.ts:1-9 | every body region occurs in BODY_PARTS, and exactly once |
| Constants.TagInjective | constants.ts:2-8 | distinct regions have distinct `counts` keys |
| BedDataContext.NewRecord | context/BedDataContext.tsx:20-26 | the filed record carries the caller's fields unchanged (projecting them back gives the input), the given `bedId`, `acupunctureTimestamp = scanTimestamp` and no removal time |
| BedDataContext.WithRemoval | context/BedDataContext.tsx:42-45 | the amended record is the active record with only `removalTimestamp` set to the removal time; same episode key |
| BedDataContext.MarkRemoved | context/BedDataContext.tsx:48-50 | the history map preserves length |
| BedDataContext.MarkRemovedAt | context/BedDataContext.tsx:48-50 | its key test `SameEpisode` is line 49; position by position: every entry matching the active record's `(scanTimestamp, patientId)` becomes the amended active record, and every other entry is unchanged in place |
| BedDataContext.CollidingEntryTakesActiveRecord | context/BedDataContext.tsx:42-50 | an entry of another bed with the same key is overwritten with the active record's bed and counts and gets the removal time |
| BedDataContext.ClearAmendsOnlyItsEpisode | context/BedDataContext.tsx:47-50 | with distinct keys in the history, clearing changes exactly the one matching entry |
| BedDataContext.MarkRemovedIdempotent | context/BedDataContext.tsx:48-50 | an algebraic fact about the history rewrite rather than a reachable store sequence: rewriting again with the same active record and time leaves the history as it is |
| BedDataContext.UpdatePreservesWellFormed | context/BedDataContext.tsx:20-33 | saving a record keeps the store invariant |
| BedDataContext.ClearPreservesWellFormed | context/BedDataContext.tsx:36-56 | clearing an occupied bed keeps the store invariant |
| BedDataContext.ClearStampsActiveEpisode | context/BedDataContext.tsx:36-50 | in a well-formed store, clearing an occupied bed leaves some history entry equal to the active record with the removal time |
| BedDataContext.BedDataStore.constructor | context/BedDataContext.tsx:17-18 | the store starts with no beds and an empty history, and is well formed |
| BedDataContext.BedDataStore.UpdateBedData | context/BedDataContext.tsx:20-34 | `beds[bedId]` becomes the new record and every other bed is unchanged; an occupied bed is overwritten with no error path; the history is the new record followed by the exact old history (length +1), so the displaced record's entry, removal time included, is left as it was; the invariant is kept |
| BedDataContext.BedDataStore.ClearBedData | context/BedDataContext.tsx:36-57 | on a missing or empty bed nothing changes; otherwise the bed becomes empty, other beds are unchanged, and the history is the old history with the episode's entries amended; the length is kept and the invariant is kept |
| NeedleRecordForm.ZeroCounts | components/NeedleRecordForm.tsx:11-14 | the fold over a list of regions has exactly those regions as keys, each mapped to 0 |
| NeedleRecordForm.InitialCounts | components/NeedleRecordForm.tsx:11-14 | the initial counts contain all seven regions, each 0 |
| NeedleRecordForm.BodyPartsComplete | constants.ts:1-9 | every region is listed in BODY_PARTS, so folding over it yields a complete counts map |
| NeedleRecordForm.TotalOfInitialCounts | components/NeedleRecordForm.tsx:11-14 | a fresh form totals 0 |
| NeedleRecordForm.Total | components/NeedleRecordForm.tsx:32 | the sum of the seven regions' counts in BODY_PARTS order: every region's count is included, and the total is 0 exactly when every count is 0 |
| NeedleRecordForm.SumOverPermutation | components/NeedleRecordForm.tsx:32 | summing counts over two orderings of the same regions gives the same result |
| NeedleRecordForm.TotalIndependentOfOrder | components/NeedleRecordForm.tsx:32 | summing the counts object's values in any key order gives `Total`, the sum over all seven regions |
| NeedleRecordForm.TotalAtMost | components/NeedleRecordForm.tsx:83 | with every region picked from 0..30, the total is at most 210 |
| NeedleRecordForm.TotalAfterCountChange | components/NeedleRecordForm.tsx:26-28 | setting one region's count keeps the map complete and moves the total by exactly the new value minus the old one |
| NeedleRecordForm.DecimalStringInjective | components/NeedleRecordForm.tsx:155-157 | distinct bed numbers render as distinct option values |
| NeedleRecordForm.BedOptions | components/NeedleRecordForm.tsx:155-157 | the bed selector offers BED_COUNT = 20 options |
| NeedleRecordForm.BedOptionsDistinct | components/NeedleRecordForm.tsx:155-157 | the 20 options "1".."20" name distinct beds, and the default "1" is the first of them |
| NeedleRecordForm.Form.constructor | components/NeedleRecordForm.tsx:16-24 | a fresh form has zero counts, bed "1", moxibustion 0, no cupping, 0 electroacupuncture pairs, empty remarks and is not submitted |
| NeedleRecordForm.Form.HandleCountChange | components/NeedleRecordForm.tsx:26-28 | sets exactly the one region's count; other regions and fields are unchanged; the total moves by the difference |
| NeedleRecordForm.Form.SelectBed | components/NeedleRecordForm.tsx:149-158 | the chosen bed is one of the offered options and only `selectedBed` changes |
| NeedleRecordForm.Form.SetMoxibustionCount | components/NeedleRecordForm.tsx:106-116 | the moxibustion count is set to a value in 0..10 and nothing else changes |
| NeedleRecordForm.Form.SetCupping | components/NeedleRecordForm.tsx:94-100 | the cupping flag follows the checkbox and nothing else changes |
| NeedleRecordForm.Form.SetElectroacupuncturePairs | components/NeedleRecordForm.tsx:120-130 | the electroacupuncture pairs are set to a value in 0..10 and nothing else changes |
| NeedleRecordForm.Form.SetRemarks | components/NeedleRecordForm.tsx:136-143 | the remarks are set to the typed text and nothing else changes |
| NeedleRecordForm.Form.Payload | components/NeedleRecordForm.tsx:32-43 | the submitted payload passes patient, counts, extras and remarks through unchanged; its total is the sum of its counts and is at most 210 |
| NeedleRecordForm.Form.HandleSubmit | components/NeedleRecordForm.tsx:30-45 | the store files the payload on the selected bed (bed overwritten, history prepended, store invariant kept) and the form becomes submitted |

## Left out

- The camera QR scanner (components/Scanner.tsx) is not part of this model. It is a foreign library call with asynchronous start and stop. Its only output, the decoded `patientId`, is a constructor parameter of `Form`.
- Local-storage persistence (JSON serialisation and browser storage, in `hooks/useLocalStorage`, which is not part of this model) is left out. The two store fields are plain in-memory state. `BedDataStore.constructor` models the defaults `{}` and `[]`. A store loaded from storage may hold anything, so the store methods do not require the invariant; they only promise to keep it if it held.
- The history page's "today" filter is left out. It compares locale- and time-zone-dependent date strings.
- The views (bed display, bed page, home page mode toggle, routing) are left out. They only render.
- The `useBedData` guard that throws outside the provider is left out. It is a React context check.
- The 1.5 s delay before `onComplete` is left out. It is cosmetic timing.
- `clearBedData` reads `beds` from the render closure but writes through updater functions. That is a React scheduling detail; both operations are modelled as sequential and atomic.
- `parseInt` of option values and the clock reads are not modelled. Their results are parameters, and the option ranges (0..30, 0..10, beds "1".."20") are preconditions of the form's setters.
- BedDataContext.ClearStampsActiveEpisode: timestamps are opaque strings, so the promise that the removal time is not earlier than the scan time is not stated.
- The regions' display names are left out. They are labels only.
