# Vendor record store: a Dafny model

This project models how the vendor-evaluation web application keeps vendor records. There are three parts:

- **The SQL vendor table** (`src/lib/database.ts`). It is a 17-column `vendors` table in an in-browser SQLite database.
  - `saveVendorDb` upserts a record by `vendorName`, `removeVendorDb` deletes by name, and `getAllVendorsDb` lists the rows by name.
  - `convertResultsToObjects` turns query results into records.
  - `getDb` opens the database lazily and only once. `persistDb` writes a snapshot of the whole table to local storage. `initialize` calls it after creating the table, and `saveVendorDb` and `removeVendorDb` call it after every save or removal.
- **The local-storage "vendor bank"** (`src/components/vendor/vendor-processor.tsx` and `src/app/search-vendor-report/page.tsx`). This is a JSON list of vendor records.
  - The form saves into it with an upsert on the first entry with the same name.
  - The search page loads the list, removes entries by name, filters it with a case-insensitive search, and keeps the selected vendor in step with the list.
- **The report normalisation** at the end of `generateVendorReportFlow` (`src/ai/flows/generate-vendor-report.ts`).
  - The six fields that mirror the input are forced to the input value or `"N/A"`.
  - The summary fields and `overallResult` fall back from the model's value, to the input's value, to `"N/A"`.

Records are JavaScript objects: `Records.Record` maps property names to a string or `null`, and an absent key is `undefined`. The model is split into these modules:

- `Records` (string operations used by the pages: `trim`, `toLowerCase`, `includes`, logical-or fallback).
- `Seqs` (`filter`, `findIndex`).
- `Schema` (the column list and the statement text built from it).
- `SqlRows` (rows and `ORDER BY`).
- `SnapshotCodec` (the JSON byte-array text of a snapshot).
- `VendorDb` (`database.ts`).
- `VendorBank` (`vendor-processor.tsx`).
- `SearchPage` (`search-vendor-report/page.tsx`).
- `ReportFlow` (`generate-vendor-report.ts`).

The form and shape of the model:

- `database.ts` keeps module-level state that it updates in place. The class `VendorDb.VendorDatabase` models that state with two fields: `dbPromise` (unset, resolved to the live table, or rejected with the rethrown message) and `stored` (the local-storage snapshot). A ghost field, `initializeRuns`, counts the calls to `initialize`.
- Each of its methods is specified by a pure function of the old state (`GetDbStep`, `Save`, `ExecDelete`, `Listing`). The lemmas are about those functions.
- The table is a sequence of rows in insertion order. The subset type `VendorDb.Table` carries the schema's invariants: every row has 17 values, and no two rows share a text key.
- `saveVendorDb` fills `params` in a `forEach` loop, and `VendorDb.BindParams` does so in a `while` loop.
- The bank's save path writes a storage object that `VendorBank.HandleSaveVendor` modifies. The search page's state updates are functions from the old page state to the new one.

## Model

| member | source | states |
|---|---|---|
| Schema.ColumnsAreDistinct | src/lib/database.ts:12-33 | The column list has 17 pairwise distinct names, with `vendorName` first. |
| Schema.UnstoredFieldsHaveNoColumn | src/lib/database.ts:12-33 | `vendorIndustry`, `companySize` and `keyInformation` have no column, so they are never stored. |
| Schema.OnlyKeyIsPrimary | src/lib/database.ts:46-48 | A column definition ends in ` PRIMARY KEY` exactly when it is the first column, `vendorName`. |
| Schema.CreateTableDefinesEveryColumn | src/lib/database.ts:46-50 | The `CREATE TABLE IF NOT EXISTS vendors (...)` text starts with `vendorName TEXT PRIMARY KEY, `, ends with `);`, and contains the definition of every column. |
| Schema.UpdatedColumnsAreNonKey | src/lib/database.ts:134 | The UPDATE sets every column except the key, in column order. |
| Schema.ParamNameInjective | src/lib/database.ts:127-130 | Distinct columns are bound to distinct `$col` parameter names. |
| SqlRows.SortByKey | src/lib/database.ts:118 | `ORDER BY vendorName ASC` returns a permutation of the rows that is ascending by key, with NULL before text. |
| SnapshotCodec.ByteArrayRoundTrip | src/lib/database.ts:100-103 | Decoding the JSON byte-array text that `persistDb` writes, as `initialize` does at line 42, gives back exactly the exported bytes. |
| VendorDb.BindParams | src/lib/database.ts:128-131 | After the loop, there is exactly one `$col` parameter per column, holding the field's string when it is defined and non-null, and null otherwise. |
| VendorDb.ExecUpdate | src/lib/database.ts:133-137 | The UPDATE keeps the table's length and every key. Only rows whose key equals the bound key (by SQL `=`, which never matches NULL) get the bound non-key values. |
| VendorDb.RowToObjectAt | src/lib/database.ts:107-113 | In the object built from a row, the value under column `i` is `row[i]` whenever no later column has the same name. |
| VendorDb.ConvertResultsToObjects | src/lib/database.ts:105-114 | No result set, or no rows, gives `[]`. Otherwise there is one object per row, in row order, whose keys are the columns. Under each column name the value is `row[i]` for the last index `i` that has that name, as later assignments overwrite earlier ones. |
| VendorDb.ListingIsSorted | src/lib/database.ts:116-120 | `getAllVendorsDb` returns one record per row, ascending by `vendorName`. |
| VendorDb.ListingHasEveryRow | src/lib/database.ts:116-120 | Every row of the table appears in the listing. |
| VendorDb.ListingHasOnlyRows | src/lib/database.ts:116-120 | Every listed record is the record of some row of the table. |
| VendorDb.SaveSucceeds | src/lib/database.ts:124-141 | Because of the existence check, a save never runs an INSERT that breaks the primary key. |
| VendorDb.SaveUpdatesExistingRow | src/lib/database.ts:124-137 | Saving an existing key rewrites that row to the bound values at the same index. The key and every other row are unchanged. |
| VendorDb.SaveInsertsNewRow | src/lib/database.ts:124-141 | Saving a new key appends exactly one row, the bound values. |
| VendorDb.SaveLeavesOneRowWithKey | src/lib/database.ts:124-141 | After a save, the bound row is in the table, and it is the only row carrying the key. |
| VendorDb.SaveIdempotent | src/lib/database.ts:122-144 | Saving the same record twice leaves the same table as saving it once. |
| VendorDb.RemoveDropsOnlyKey | src/lib/database.ts:146-150 | Delete leaves no row with the key, keeps every other row as many times as it occurred, and keeps their order. |
| VendorDb.RemoveIdempotent | src/lib/database.ts:148 | Deleting an absent key is a no-op, so deleting twice equals deleting once. |
| VendorDb.StoredRecordShape | src/lib/database.ts:128-131 | A saved record reads back with exactly the 17 columns. Each holds its bound value, and a missing field comes back as null. The unstored fields are absent. |
| VendorDb.SavedRecordReadsBack | src/lib/database.ts:116-144 | After a save, the listing contains the stored form of the record, and no other record carries its name. |
| VendorDb.InitFailureMessageClassifies | src/lib/database.ts:57-84 | A message containing a WASM-loading marker, in any letter case, becomes the fixed guidance text. Any other message is the generic prefix followed by the message itself. |
| VendorDb.InitFailureClearsSnapshot | src/lib/database.ts:35-91 | Initialization fails exactly when the WASM load fails or the stored text makes `JSON.parse` or `Uint8Array.from` throw, and then the snapshot is removed. A missing or empty slot succeeds with an empty table and persists it, and on success the stored snapshot is the resolved table. |
| VendorDb.ReloadRestoresTable | src/lib/database.ts:38-43 | A stored snapshot is opened as the table it holds, and storage is left as it was. |
| VendorDb.GetDbMemoized | src/lib/database.ts:93-98 | After the first `getDb` the promise is settled. Any later call, with any engine outcome, changes nothing, so a failure stays memoized. |
| VendorDb.VendorDatabase.constructor | src/lib/database.ts:8-9 | Module load: `dbPromise` is unset, and storage holds whatever was there. |
| VendorDb.VendorDatabase.PersistDb | src/lib/database.ts:100-103 | The stored snapshot becomes the whole current table. |
| VendorDb.VendorDatabase.RunInitialize | src/lib/database.ts:35-91 | Result and storage are as `Initialize` describes: open the snapshot; or create the empty table and persist it; or remove the snapshot and fail with the classified message. Each call adds one to `initializeRuns`. |
| VendorDb.VendorDatabase.GetDb | src/lib/database.ts:93-98 | Initialize runs only when the promise is unset, and the result is the memoized outcome. `initializeRuns`, which only `RunInitialize` increments, is 1 afterwards: initialize has run exactly once. |
| VendorDb.VendorDatabase.GetAllVendors | src/lib/database.ts:116-120 | Returns `Listing` of the resolved table, or the memoized error. |
| VendorDb.VendorDatabase.SaveVendor | src/lib/database.ts:122-144 | On a resolved table, the table becomes `Save(t, v)` and the snapshot is rewritten to it. On a rejected promise nothing changes and the error is returned. |
| VendorDb.VendorDatabase.RemoveVendor | src/lib/database.ts:146-150 | On a resolved table, the table becomes `ExecDelete(t, name)` and the snapshot is rewritten to it. On a rejected promise the error is returned. |
| VendorBank.InitialInputStateIsBlank | src/components/vendor/vendor-processor.tsx:46-67 | The blank form has the 20 distinct form fields and nothing else, each the empty string. |
| VendorBank.HandleInputChange | src/components/vendor/vendor-processor.tsx:89-92 | The named field gets the new value, and every other field keeps its value. |
| VendorBank.IndexOfName | src/components/vendor/vendor-processor.tsx:117 | `findIndex`: the first index whose `vendorName` is strictly equal to the name, or -1 exactly when there is none. |
| VendorBank.UpsertReplacesFirstMatch | src/components/vendor/vendor-processor.tsx:117-122 | The form replaces the first entry with the same name, at the same index. The length and every other entry are unchanged. |
| VendorBank.UpsertAppendsNew | src/components/vendor/vendor-processor.tsx:117-128 | With no entry of that name, the form is appended at the end, and earlier entries keep their order. |
| VendorBank.UpsertPutsRecordFirst | src/components/vendor/vendor-processor.tsx:117-128 | After an upsert, the first entry with the saved name is the saved record. |
| VendorBank.UpsertIdempotent | src/components/vendor/vendor-processor.tsx:117-128 | Saving the same form twice gives the same list as saving it once. |
| VendorBank.UpsertKeepsNamesDistinct | src/components/vendor/vendor-processor.tsx:117-128 | If names were distinct before a save, they still are after it, and the saved record is the only entry with its name. |
| VendorBank.HandleSaveVendor | src/components/vendor/vendor-processor.tsx:94-139 | A blank or whitespace-only name leaves storage untouched and reports nothing. Otherwise storage holds the upserted list, and the same list goes to `onVendorSaved`. |
| SearchPage.MountAgreesWithSave | src/app/search-vendor-report/page.tsx:19-31 | On mount the page reads the same list the save path reads. An unreadable or non-array slot leaves it empty, and nothing is selected. |
| SearchPage.HandleRemoveVendor | src/app/search-vendor-report/page.tsx:55-67 | The list written to storage is the new in-memory list. The selection is cleared exactly when its name is the removed name. |
| SearchPage.RemoveKeepsExactlyOthers | src/app/search-vendor-report/page.tsx:56 | Removal keeps exactly the entries whose name differs, each as many times as it occurred, in their original order. Every entry with the name is dropped. |
| SearchPage.RemoveIdempotent | src/app/search-vendor-report/page.tsx:56-66 | Removing a name a second time changes neither the page state nor what is written. |
| SearchPage.BlankSearchListsAll | src/app/search-vendor-report/page.tsx:69-72 | A blank or whitespace-only search term lists the whole bank unchanged. |
| SearchPage.SearchListsMatches | src/app/search-vendor-report/page.tsx:73-75 | Any other term lists, in bank order, exactly the entries whose lowercased name contains the lowercased (untrimmed) term, each as many times as it occurs in the bank. |
| SearchPage.SearchIgnoresTermCase | src/app/search-vendor-report/page.tsx:70-75 | Searching for a term and for its lowercase form gives the same list. |
| SearchPage.HandleVendorListUpdate | src/app/search-vendor-report/page.tsx:33-45 | The list is replaced. A selection whose name is still present becomes the first entry with that name. A selection whose name is gone is cleared. No selection stays none. |
| SearchPage.SaveRefreshesSelection | src/app/search-vendor-report/page.tsx:33-40 | After the form saves a record, a selection with the same name shows exactly the saved record. |
| SearchPage.LoadedForm | src/app/search-vendor-report/page.tsx:48 | The loaded form has every form field plus the vendor's own. The vendor's values win, and the missing form fields are empty. |
| SearchPage.HandleLoadVendor | src/app/search-vendor-report/page.tsx:47-53 | Loading selects the overlaid form and leaves the list and search term alone. |
| SearchPage.LoadingCompleteRecordKeepsIt | src/app/search-vendor-report/page.tsx:48 | Loading a record that already has every form field selects that record as it is. |
| Records.TrimEmptyIffBlank | src/components/vendor/vendor-processor.tsx:95 | `!s.trim()` holds exactly when `s` is empty or only JavaScript whitespace. |
| Records.IncludesIffOccurs | src/app/search-vendor-report/page.tsx:74 | `includes` holds exactly when the term occurs at some position of the string. |
| ReportFlow.Fallback | src/ai/flows/generate-vendor-report.ts:147-158 | A model, then input, then `"N/A"` chain never yields the empty string. |
| ReportFlow.NormaliseReport | src/ai/flows/generate-vendor-report.ts:137-159 | The report always carries the six mirror fields, `overallResult`, and exactly the ten summary fields. |
| ReportFlow.CompanyNameFromInput | src/ai/flows/generate-vendor-report.ts:139 | `nameOfCompanyAssessed` is the input's `vendorName` when non-empty, else `"N/A"`. |
| ReportFlow.MirrorFieldsIgnoreAi | src/ai/flows/generate-vendor-report.ts:139-144 | Each mirror field is its input field when non-empty, else `"N/A"`. Two different model outputs give the same value. |
| ReportFlow.SummaryPrecedence | src/ai/flows/generate-vendor-report.ts:146-157 | Each summary field is the model's value if non-empty, else the input's if non-empty, else `"N/A"`. |
| ReportFlow.OverallResultPrecedence | src/ai/flows/generate-vendor-report.ts:158 | `overallResult` follows the same precedence: model, then input, then `"N/A"`. |
| ReportFlow.NormalisedFieldsNonEmpty | src/ai/flows/generate-vendor-report.ts:139-158 | None of the seventeen normalised fields is empty or null. |
| ReportFlow.RiskLevelPassesThrough | src/ai/flows/generate-vendor-report.ts:137-138 | `determinedRiskLevel` (Green, Yellow or Red) and `detailedAnalysis` come from the model's output unchanged. A null output has neither. |
| ReportFlow.ReportWithoutAi | src/ai/flows/generate-vendor-report.ts:137-159 | With a null model output, the report has only the normalised fields, each from the input or `"N/A"`. |

## Left out

- The sql.js engine, the SQLite file format and SQL text parsing are not modelled. The statements are modelled by their effect on the table, and a snapshot holds the table itself. `SnapshotCodec` models only the JSON text of the byte array.
- `ORDER BY` compares text by code point. SQLite's BINARY collation compares UTF-8 bytes, which gives the same order for code points. JavaScript strings are UTF-16, and the difference is not modelled.
- Snapshots written under another schema are not modelled. A loaded snapshot is opened as it is, and no DDL is run against it; the `CREATE TABLE IF NOT EXISTS` text runs only on a fresh database. A stored snapshot is either a table of this schema or text that `JSON.parse` or `Uint8Array.from` rejects. A missing key and the empty string both read as no snapshot, as `if (storedDbRaw)` treats them alike.
- VendorDb.ConvertResultsToObjects: requires every row to be as wide as the column list, as sql.js returns them. A shorter row would read `undefined` for the missing columns.
- VendorDb.InitFailureClearsSnapshot: stored text that parses to an array-like value but is no vendors image (`[]` and `{}` give zero bytes, other bytes are read lazily by SQLite) opens without error. The failure then surfaces in a later `db.exec` ("no such table: vendors", "file is not a database"), and that snapshot is never cleared. The model has no state for such a database.
- VendorDb.InitFailureMessageClassifies: thrown values that are not `Error` instances (the "unknown error" message) are not modelled. Every failure carries an `Error` message.
- Exceptions from `localStorage.setItem` (a full quota) inside `persistDb` are not modelled. Neither is the console logging.
- SnapshotCodec.ByteArrayRoundTrip: the decoder reads JSON arrays of non-negative integers without whitespace or leading zeros, and reduces each one modulo 256, as `Uint8Array.from` does. It therefore also accepts text the encoder never writes, such as `[300]`. For integers beyond 2^53 it differs from `JSON.parse`, which rounds them before the reduction. Other JSON number forms (signs, fractions, exponents, whitespace) are not read.
- Records.ToLower: `toLowerCase` is modelled for ASCII and Latin-1 letters only. Other characters are left as they are.
- VendorBank.StoredVendors: the entries of a parsed array are taken to be vendor objects whose `vendorName` is a string. The model does not cover entries of other shapes, where `toLowerCase` would throw.
- The bank's text is abstracted as the outcome of `JSON.parse` on it (`VendorBank.BankJson`). `JSON.stringify` and `JSON.parse` of a list are taken to round-trip.
- The async calls are modelled as running one after another. `getAllVendorsDb`, `saveVendorDb` and `removeVendorDb` do not serialise them, so interleavings are not modelled.
- React rendering, toasts, `isLoading`, the form's `useEffect` reset, and the `onVendorSaved` callback's own behaviour are not modelled. The save method returns the list it would pass to the callback.
- The model call and Genkit setup are not modelled. The model's output is an input value (`ReportFlow.AiOutput`), or `None` for a null output.
- `src/app/api/save-database/route.ts` (server file I/O), login, navigation and layout are not part of this model.
