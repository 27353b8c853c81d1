# Sur Importaciones admin dashboard: a Dafny model

The Sur Importaciones dashboard is an administration front end for a retail
catalogue kept in a hosted Supabase database: products, categories, brands,
financing plans and their product associations, promotions and the settings
of the public web site. This project models the parts of it that decide
something, with the database treated as in-memory tables whose calls may
fail:

- the spreadsheet product importer (`processMigration` and its helpers): row
  validation, matching by code and then by description, the seven-column
  diff and update payload, find-or-create of categories and brands, and the
  default plan associations of a created product;
- the bulk association of products with a plan, with its counters and its
  abort rule, and the association form, filters and pagination;
- the data hook's default plan selection, the `undefined`-to-`null` update
  normalisation, the plan-activity sync and the upserts of the two
  single-row settings tables;
- the product screen's price auto-completion, filters, pagination and page
  number strip, the five image slots, the upload limit, the carousel and the
  storage path taken from an image URL;
- the promotion dialog and list, the web settings form, the summary screen
  and the shell's section switch.

There is one Dafny module per source file:

- `ExcelMigrator` in excel_migrator.dfy models `app/components/excel-migrator.tsx`
- `ProductosPlanes` in productos_planes.dfy models `app/components/productos-planes-section.tsx`
- `SupabaseData` in supabase_data.dfy models `app/hooks/use-supabase-data.ts`
- `ProductosSection` in productos_section.dfy models `app/components/productos-section.tsx`
- `PromoModal` in promo_modal.dfy models `app/components/promo-modal.tsx`
- `PromosSection` in promos_section.dfy models `app/components/promos-section.tsx`
- `ConfiguracionWeb` in configuracion_web.dfy models `app/components/configuracion-web.tsx`
- `DashboardSection` in dashboard_section.dfy models `app/components/dashboard-section.tsx`
- `Dashboard` in dashboard.dfy models `app/dashboard.tsx`

Four helper modules are shared by them:

- `Wrappers` holds `Option`, JavaScript's three-way
  `undefined`/`null`/value and a JSON-like value with JavaScript truthiness.
- `Text` holds the string built-ins the code relies on: `trim`,
  `toLowerCase`/`toUpperCase` (exact for Latin-1), `includes`, `split`,
  `join` and `parseInt`.
- `Seqs` holds `filter`, `findIndex`, `reduce` and `slice`, and pagination.
- `Schema` holds the row shapes of `lib/supabase.ts`.

Stateful parts of the source are written as they work. The importer's row
loop, the bulk-association loop, the plan-to-categories map, the page
strip's pushes and the summary's in-place sort are `while` loops over the
model's state. Each screen or dialog is a `class` whose fields are the
component's state, and each handler is a method with a `modifies` clause.
Every loop and handler is proved against a specification function, and the
properties the code promises are proved as lemmas about those functions.

The importer's methods run the column comparison and the update payload as
the code writes them. The row-loop functions (`UpdateByCodigo`, `RowOutcome`,
`RowStep`, `Run`) take the comparison as a parameter. `AsWritten` is the
code's strict comparison, and the importer's methods are proved against it.
`Corrected` is the comparison the finding below proposes, and the
convergence lemmas are stated for it.

The model follows the code where the importer's on-screen instructions
differ from it. Those instructions say an update touches only the
description and the price. The code compares, and writes, seven columns:
description, price, category, offer price, discount and the two validity
dates.

## Model

| member | source | states |
|---|---|---|
| ExcelMigrator.ParseExcelBoolean | app/components/excel-migrator.tsx:46-54 | a boolean cell is itself, a number is true when non-zero, a string is true when its trimmed lower-case form is "true", "1", "yes" or "sí", anything else is false |
| ExcelMigrator.ParseExcelBooleanIgnoresCase | app/components/excel-migrator.tsx:49-51 | a text cell reads the same after lower-casing |
| ExcelMigrator.ParseExcelBooleanIgnoresSpace | app/components/excel-migrator.tsx:49-51 | a text cell reads the same after trimming |
| ExcelMigrator.SameKeySameBoolean | app/components/excel-migrator.tsx:49-51 | two texts with the same trimmed lower-case key read as the same boolean |
| ExcelMigrator.DmyOf | app/components/excel-migrator.tsx:75-88 | a date is read as day/month/year exactly when the text splits on "/" into three decimal numbers with month 1-12, day 1-31 and year above 1900; otherwise there is no such reading |
| ExcelMigrator.ParseExcelDate | app/components/excel-migrator.tsx:57-111 | a falsy cell gives no date; a non-empty text goes through the day/month/year, ISO and native readings in that order |
| ExcelMigrator.IsoDatePassesThrough | app/components/excel-migrator.tsx:72-93 | a text that is `YYYY-MM-DD` once trimmed comes back trimmed and unchanged, because it has no "/" |
| ExcelMigrator.ChangedFieldsAsWritten | app/components/excel-migrator.tsx:460-487 | a column is reported as changed exactly when it differs under the comparisons as written, with strict `!==` on category and on the four promotion columns |
| ExcelMigrator.ChangedFields | app/components/excel-migrator.tsx:460-487 | a column is reported as changed exactly when it differs, with a stored `null` equal to an empty cell |
| ExcelMigrator.ChangedFieldsAgree | app/components/excel-migrator.tsx:474-477 | the strict and the loose comparison report the same columns unless a stored `null` meets an empty promotion cell |
| ExcelMigrator.StoredValue | app/components/excel-migrator.tsx:525-547 | the value written for a promotion column is never `undefined` and is loosely equal to the row's value; other columns get the row's value |
| ExcelMigrator.PatchKeys | app/components/excel-migrator.tsx:501-548 | the keys of an update payload, listed in column order: a column is listed exactly when the payload sets it |
| ExcelMigrator.PayloadIsDiff | app/components/excel-migrator.tsx:501-548 | each payload sets exactly the columns its comparison reports, in the same order, and the payload as written carries the row's own values |
| ExcelMigrator.PayloadAsWritten | app/components/excel-migrator.tsx:501-548 | the payload the importer builds; `PayloadIsDiff` proves it sets exactly the columns of the strict diff, in order, with the row's own values, `undefined` included |
| ExcelMigrator.Payload | app/components/excel-migrator.tsx:501-548 | the corrected payload; `PayloadIsDiff` and `PayloadAt` prove it sets exactly the columns of the loose diff, with `null` for an empty cell |
| ExcelMigrator.UpdateWhere | app/components/excel-migrator.tsx:551-556 | `update(payload).eq('id', id)` patches every product with that id and leaves every other product as it was |
| ExcelMigrator.PayloadAt | app/components/excel-migrator.tsx:501-548 | a column is in the corrected payload exactly when it differs, and then with the value to be stored |
| ExcelMigrator.ConvergesAt | app/components/excel-migrator.tsx:501-556 | once the corrected payload is written, the column no longer differs from the row |
| ExcelMigrator.NoChangedFields | app/components/excel-migrator.tsx:487-488 | when no column differs, the list of changed columns is empty |
| ExcelMigrator.UpdateConverges | app/components/excel-migrator.tsx:487-556 | with the corrected payload an update converges: importing the same row again finds no changed column |
| ExcelMigrator.UpdateAsWrittenRepeats | app/components/excel-migrator.tsx:474-477 | as written, a stored `null` offer price met by an empty cell is reported as changed, and is reported again after the update is written |
| ExcelMigrator.CategoriaStep | app/components/excel-migrator.tsx:204-249 | the local category list either stays the same or gains exactly one category at the end; a new category has the requested name and the returned id, and is also appended to the store |
| ExcelMigrator.CategoriaFoundLocally | app/components/excel-migrator.tsx:207-213 | the first local category with the same name, ignoring case, is returned without any store call, whatever would fail |
| ExcelMigrator.CategoriaReused | app/components/excel-migrator.tsx:240-244 | a category created by one row is found by every later row with the same name, without a store call |
| ExcelMigrator.LineaNotReused | app/components/excel-migrator.tsx:217-229 | a new line is not added to the local list, so two new categories under the same new line insert that line twice |
| ExcelMigrator.MarcaStep | app/components/excel-migrator.tsx:251-273 | the store is either unchanged or gains exactly one brand with the requested name, whose id is returned |
| ExcelMigrator.MarcaNotReused | app/components/excel-migrator.tsx:251-268 | a brand missing from the local list is inserted again by each row that names it, with a different id each time |
| ExcelMigrator.NewDefaults | app/components/excel-migrator.tsx:294-298 | one active association row per plan, in plan order, for the given product |
| ExcelMigrator.AssocStepAddsOnePerActivePlan | app/components/excel-migrator.tsx:275-323 | when it succeeds and writes, exactly one active row is appended per active plan, each for the product and that plan; when it fails, the store is unchanged |
| ExcelMigrator.AssocStep | app/components/excel-migrator.tsx:275-323 | the default associations of a created product; `AssocStepAddsOnePerActivePlan` proves one active row per active plan on success and an unchanged store on failure |
| ExcelMigrator.ReimportOfCreated | app/components/excel-migrator.tsx:612-626 | re-importing a row right after it created a product finds no change under the corrected comparison, but finds a change as written as soon as its offer price cell is empty |
| ExcelMigrator.NewProducto | app/components/excel-migrator.tsx:612-626 | the inserted product, with every column the row leaves empty stored as `null`; `ReimportOfCreated` proves the corrected diff finds no change against it |
| ExcelMigrator.CatchAllDescripcion | app/components/excel-migrator.tsx:664-671 | the description the catch-all error reports: the raw cell when truthy, else "Desconocido"; `InsertRow` shows it is used exactly when the product insert fails |
| ExcelMigrator.UpdateByCodigo | app/components/excel-migrator.tsx:430-583 | the category lookup decides first: without a category the row is an error and nothing is written; with one, the row is skipped exactly when the chosen comparison reports no column, fails exactly when the write fails, and is otherwise updated with that comparison's payload written to the matched product and its changed columns reported |
| ExcelMigrator.CreateRow | app/components/excel-migrator.tsx:585-610 | the create branch reports on the row's spreadsheet line and carries the row |
| ExcelMigrator.InsertRow | app/components/excel-migrator.tsx:612-673 | the row is created exactly when the product insert succeeds; the product is then appended with the next id, which the result reports; the local categories stay the same |
| ExcelMigrator.RowOutcome | app/components/excel-migrator.tsx:343-676 | every path of the loop body, under either comparison, reports on spreadsheet line `i + 2` and carries the row |
| ExcelMigrator.RowStep | app/components/excel-migrator.tsx:343-676 | each row appends exactly one result and keeps the earlier results |
| ExcelMigrator.RunSnoc | app/components/excel-migrator.tsx:343 | the loop over one more row is one more loop step |
| ExcelMigrator.RunResults | app/components/excel-migrator.tsx:343-676 | the run gives one result per row, in row order, the k-th on spreadsheet line `k + 2` and carrying row k |
| ExcelMigrator.Run | app/components/excel-migrator.tsx:343-676 | the row loop as a fold over the rows, under either comparison; `RunSnoc` and `RunResults` prove one step per row and one result per row in order |
| ExcelMigrator.ValidationErrors | app/components/excel-migrator.tsx:369-390 | a row with no description or with a price of at most 0 is an error with no lookup and no write; the description is checked first |
| ExcelMigrator.CodeMatchWins | app/components/excel-migrator.tsx:396-403 | a code match decides the row: it is updated, skipped as unchanged, or an error, and never created |
| ExcelMigrator.DescripcionMatchSkips | app/components/excel-migrator.tsx:406-427 | without a code match, a description match skips the row and writes nothing |
| ExcelMigrator.NoMatchCreates | app/components/excel-migrator.tsx:585-662 | with no match the row is created or is an error, and a created row adds exactly one product |
| ExcelMigrator.UpdateSkippedIffUnchanged | app/components/excel-migrator.tsx:487-583 | with a category at hand, an update by code is skipped exactly when the comparison in use reports no column; an update writes that comparison's payload to the matched product and reports the changed columns |
| ExcelMigrator.NullOfferNeverSkippedAsWritten | app/components/excel-migrator.tsx:474-556 | as written, a code-matched row whose product holds a `null` offer price and whose offer cell is empty is never skipped, and is reported as updated with the offer price changed unless the write fails; under the corrected comparison the same row is skipped when nothing else differs |
| ExcelMigrator.CreatedDespiteAssociationFailure | app/components/excel-migrator.tsx:642-651 | a created product stays created when its plan associations fail; only the note says so |
| ExcelMigrator.DuplicateRowsBothCreated | app/components/excel-migrator.tsx:396-415 | the loaded product list is not refreshed during a run, so two rows with the same new description create two products |
| ExcelMigrator.Migrator.constructor | app/components/excel-migrator.tsx:114-121 | the dialog starts closed, with no file and no results |
| ExcelMigrator.Migrator.FindOrCreateCategoria | app/components/excel-migrator.tsx:204-249 | the new local categories, the new store and the returned id are those of `CategoriaStep` |
| ExcelMigrator.Migrator.FindOrCreateMarca | app/components/excel-migrator.tsx:251-273 | the new store and the returned id are those of `MarcaStep` |
| ExcelMigrator.Migrator.CreateDefaultAssociations | app/components/excel-migrator.tsx:275-323 | the new store and the success flag are those of the association step |
| ExcelMigrator.Migrator.UpdateMatched | app/components/excel-migrator.tsx:430-583 | the new state and the result are those of `UpdateByCodigo` with the comparison and payload as written |
| ExcelMigrator.Migrator.CreateNew | app/components/excel-migrator.tsx:585-610 | the new state and the result are those of `CreateRow` |
| ExcelMigrator.Migrator.InsertProducto | app/components/excel-migrator.tsx:612-673 | the new store and the result are those of `InsertRow` |
| ExcelMigrator.Migrator.ProcessRow | app/components/excel-migrator.tsx:343-676 | the new state and the result are those of `RowOutcome` with the comparison as written |
| ExcelMigrator.Migrator.ProcessMigration | app/components/excel-migrator.tsx:325-685 | with no file nothing changes; otherwise the local categories, the store and the results are those of the run over all rows with the comparison as written, and the results are shown |
| ExcelMigrator.Migrator.HandleCloseDialog | app/components/excel-migrator.tsx:707-725 | the dialog closes and resets; the completion callback runs exactly when some result was created or updated and a callback was given |
| ProductosPlanes.MassStep | app/components/productos-planes-section.tsx:137-169 | one iteration counts the product once, as added or skipped; it stops exactly on a failed insert that brings the errors above 5 with nothing added; only a successful insert of a product not yet associated records it |
| ProductosPlanes.MassLoopPrefix | app/components/productos-planes-section.tsx:137 | the loop over one more product runs one more step, unless it has already stopped |
| ProductosPlanes.AlreadyAssociated | app/components/productos-planes-section.tsx:118-128 | the set of products already associated holds exactly the truthy product ids of the plan's rows |
| ProductosPlanes.Ids | app/components/productos-planes-section.tsx:137-138 | the loop visits the products' ids in list order |
| ProductosPlanes.MassStepKeeps | app/components/productos-planes-section.tsx:145-169 | one iteration keeps the loop invariant: the counts add up, every failure is also a skip, and only products missing from the set are inserted, each once |
| ProductosPlanes.MassLoopInvariant | app/components/productos-planes-section.tsx:137-175 | the invariant holds however the inserts go and wherever the abort rule fires |
| ProductosPlanes.MassCompleted | app/components/productos-planes-section.tsx:137-179 | a completed run counts every product exactly once; the added ones are exactly those inserted, none of them already associated and none twice |
| ProductosPlanes.MassLoop | app/components/productos-planes-section.tsx:137-175 | the bulk loop over the products; `MassLoopInvariant`, `MassCompleted`, `MassAbortRule` and `StoppedStaysStopped` state its counting, insertion and abort behaviour |
| ProductosPlanes.MassAssociate | app/components/productos-planes-section.tsx:101-188 | the handler's outcome: no plan, not confirmed, a failed fetch, or the finished run; `PlanesSection.HandleMassAssociate` is proved to produce it |
| ProductosPlanes.MassAbortRule | app/components/productos-planes-section.tsx:165-168 | a run still going has added something or has at most five errors; a stopped run stopped at its sixth error with nothing added |
| ProductosPlanes.AssociatedNeverInserted | app/components/productos-planes-section.tsx:145-149 | a product already associated with the plan is never inserted |
| ProductosPlanes.AssocRows | app/components/productos-planes-section.tsx:151-157 | one active row per inserted product, for the chosen plan and with no combo |
| ProductosPlanes.AssocRowsSnoc | app/components/productos-planes-section.tsx:151-157 | one more inserted product adds exactly its row at the end |
| ProductosPlanes.ParseIdValue | app/components/productos-planes-section.tsx:230-238 | the `parseInt` of a select value is a number or `NaN` |
| ProductosPlanes.SubmitPayload | app/components/productos-planes-section.tsx:228-240 | the payload holds the parsed plan and the flag; a product association sets the parsed product and leaves the combo `undefined`, and a combo association the other way round |
| ProductosPlanes.PayloadSetsOne | app/components/productos-planes-section.tsx:233-240 | a valid form's payload sets exactly one of the product and the combo |
| ProductosPlanes.FormValid | app/components/productos-planes-section.tsx:217-224 | the submit guard: a plan and, for the chosen type, a product or a combo; `PayloadSetsOne` and `PlanesSection.HandleSubmit` use it |
| ProductosPlanes.Suggestions | app/components/productos-planes-section.tsx:436-441 | at most ten suggestions, each a product whose description contains the typed text ignoring case; they are the first matches in list order, all of them when there are ten or fewer |
| ProductosPlanes.EditForm | app/components/productos-planes-section.tsx:190-212 | an association with a truthy combo opens as a combo, any other as a product; the flag and the plan id text are copied |
| ProductosPlanes.EditSubmitRoundTrip | app/components/productos-planes-section.tsx:190-240 | editing and saving a product association unchanged sends back its own plan, flag and product |
| ProductosPlanes.EditSubmitRoundTripCombo | app/components/productos-planes-section.tsx:190-240 | editing and saving a combo association unchanged sends back its own plan, flag and combo |
| ProductosPlanes.FindProducto | app/components/productos-planes-section.tsx:278 | `find` by id: a product found is in the list and has the id, it is the first with that id, and `None` means no product has it |
| ProductosPlanes.FindCombo | app/components/productos-planes-section.tsx:279 | `find` by id: a combo found is in the list and has the id, it is the first with that id, and `None` means no combo has it |
| ProductosPlanes.FindPlan | app/components/productos-planes-section.tsx:280 | `find` by id: a plan found is in the list and has the id, it is the first with that id, and `None` means no plan has it |
| ProductosPlanes.FilteredAssocs | app/components/productos-planes-section.tsx:276-297 | an association is listed exactly when it is in the table and passes the search, product, plan, state and category filters |
| ProductosPlanes.FilteredIsSubseq | app/components/productos-planes-section.tsx:276-297 | the filter keeps the table's order and only drops rows |
| ProductosPlanes.CategoryFilterDropsCombos | app/components/productos-planes-section.tsx:293-295 | with a category chosen, no association without a product is listed |
| ProductosPlanes.NoFiltersKeepsAll | app/components/productos-planes-section.tsx:282-296 | with an empty search and every filter on "all", the whole table is listed |
| ProductosPlanes.CurrentData | app/components/productos-planes-section.tsx:313-316 | a page holds at most 20 rows, and an existing page is the slice from `(page - 1) * 20` to `page * 20`, cut at the end of the list |
| ProductosPlanes.PlanesSection.constructor | app/components/productos-planes-section.tsx:34-65 | the screen starts with no plan chosen for the bulk run, zero counters, an empty form and the dialog closed |
| ProductosPlanes.PlanesSection.HandleMassAssociate | app/components/productos-planes-section.tsx:101-188 | the outcome is that of the bulk run given the chosen plan, the answer and the store; a finished run appends exactly the rows of its inserted products with consecutive ids; a run that never started writes nothing; the counters are untouched when the run never starts, zero after a failed fetch, those of the start of the last iteration when the run stops, and the final ones on completion; the plan choice is cleared once the run has started |
| ProductosPlanes.PlanesSection.AssociateAll | app/components/productos-planes-section.tsx:137-175 | the loop's run is `MassLoop`; the table gains exactly the rows of the inserted products; a completed run shows its final counters |
| ProductosPlanes.MassRunLoop | app/components/productos-planes-section.tsx:137-177 | the loop's run is `MassLoop` over the product ids, the store gains exactly one row per inserted product with consecutive ids, and a completed run shows its final counters |
| ProductosPlanes.MassIteration | app/components/productos-planes-section.tsx:138-169 | one iteration takes one `MassStep` and writes the product it inserts, if any, as the next row |
| ProductosPlanes.PlanesSection.ResetForm | app/components/productos-planes-section.tsx:87-99 | the form is empty, nothing is being edited and the product search is cleared |
| ProductosPlanes.PlanesSection.SetTipo | app/components/productos-planes-section.tsx:382-393 | changing the type clears both ids and the product search and keeps the other fields |
| ProductosPlanes.PlanesSection.SearchInput | app/components/productos-planes-section.tsx:413-422 | typing shows the suggestions when the text is not empty; an empty text also clears the chosen product |
| ProductosPlanes.PlanesSection.PickSuggestion | app/components/productos-planes-section.tsx:446-451 | clicking a suggestion chooses that product's id and name and hides the suggestions |
| ProductosPlanes.PlanesSection.HandleEdit | app/components/productos-planes-section.tsx:190-212 | the dialog opens on the association with its form; the search box and the chosen name show the description of the first product with the row's id when the row has a product id and that product exists, and are empty otherwise |
| ProductosPlanes.PlanesSection.HandleSubmit | app/components/productos-planes-section.tsx:214-255 | an invalid form sends nothing and changes nothing; a valid one sends its payload as an update when editing and as a create otherwise; on success the dialog closes and the form, the edited row and the product search are reset, on failure the dialog, form, edited row and search are kept |
| ProductosPlanes.StoppedStaysStopped | app/components/productos-planes-section.tsx:165-168 | once the abort rule fires, the rest of the products are not processed |
| SupabaseData.Normalise | app/hooks/use-supabase-data.ts:231-237 | the normalised update has the same keys, every `undefined` value becomes `null`, other values are kept, and no value is left `undefined` |
| SupabaseData.NormaliseIdempotent | app/hooks/use-supabase-data.ts:231-237 | normalising twice is the same as normalising once |
| SupabaseData.Serialised | app/hooks/use-supabase-data.ts:241-244 | sending an object as JSON keeps exactly its keys whose value is not `undefined`, with their values |
| SupabaseData.ApplyUpdate | app/hooks/use-supabase-data.ts:241-244 | an update gives each sent column its new value and leaves every other column as it was |
| SupabaseData.NormalisedUpdateWritesEveryKey | app/hooks/use-supabase-data.ts:231-244 | with the normalisation every key of the update is written, an emptied field being cleared to `null`, and columns not mentioned keep their values |
| SupabaseData.RawUpdateKeepsEmptied | app/hooks/use-supabase-data.ts:230-231 | without the normalisation an emptied field would keep its stored value |
| SupabaseData.UpdateRows | app/hooks/use-supabase-data.ts:241-244 | `.update(u).eq('id', id)` changes the row with that id and no other |
| SupabaseData.UpdatePlans | app/hooks/use-supabase-data.ts:316-320 | the plan with the id takes the given name and flag, where given; every other plan is unchanged |
| SupabaseData.SyncActivo | app/hooks/use-supabase-data.ts:330-333 | every default association of the plan takes the new flag; the rest are unchanged |
| SupabaseData.UpdatePlanSyncsDefaults | app/hooks/use-supabase-data.ts:314-351 | a successful update with `activo` updates the plan and gives that flag to every association of the plan, and to no other |
| SupabaseData.UpdatePlanEffect | app/hooks/use-supabase-data.ts:314-351 | the plan update and its association sync; `UpdatePlanSyncsDefaults`, `SyncFailureKeepsUpdate` and `NoActivoNoSync` state its effect |
| SupabaseData.SyncFailureKeepsUpdate | app/hooks/use-supabase-data.ts:335-342 | a failed sync does not fail the update: the plan is still updated and only the associations are left as they were |
| SupabaseData.NoActivoNoSync | app/hooks/use-supabase-data.ts:325-326 | an update without `activo` never touches the associations |
| SupabaseData.CategoryMapSpec | app/hooks/use-supabase-data.ts:802-808 | a plan has an entry in the map exactly when some row names it, and a category is in its list exactly when a row pairs the two |
| SupabaseData.CategoryMap | app/hooks/use-supabase-data.ts:802-808 | the plan-to-categories map; `CategoryMapSpec` proves its entries are exactly the pairs the rows hold |
| SupabaseData.ActivePlanIds | app/hooks/use-supabase-data.ts:787-792 | the ids listed are exactly those of the active plans |
| SupabaseData.PartitionOfActivePlans | app/hooks/use-supabase-data.ts:810-812 | the plans with and without categories are disjoint and together hold every active plan once |
| SupabaseData.TodosSelection | app/hooks/use-supabase-data.ts:817-842 | with `aplica_todos_plan` an active plan is chosen exactly when it has no category, or the product has a category that the plan lists |
| SupabaseData.PlanesParaAsociar | app/hooks/use-supabase-data.ts:814-856 | the plans chosen for a new product; `TodosSelection`, `SoloCategoriaSelection` and `NoFlagSelectsNothing` state which |
| SupabaseData.SoloCategoriaSelection | app/hooks/use-supabase-data.ts:843-856 | otherwise, with `aplica_solo_categoria` and a category, exactly the active plans that list the category are chosen |
| SupabaseData.NoFlagSelectsNothing | app/hooks/use-supabase-data.ts:814-856 | with neither flag, or with `aplica_solo_categoria` but no category, no plan is chosen |
| SupabaseData.DefaultRows | app/hooks/use-supabase-data.ts:861-865 | one row per chosen plan, for the product, in the order of the chosen plans |
| SupabaseData.OnlyEspecialAddsNothing | app/hooks/use-supabase-data.ts:780-784 | a product that only applies to special plans succeeds at once and writes nothing |
| SupabaseData.DefaultsEffectRows | app/hooks/use-supabase-data.ts:772-882 | only the association table and the id counter change; a failure changes nothing; every row appended names the product and a chosen plan, one per chosen plan |
| SupabaseData.DefaultsEffect | app/hooks/use-supabase-data.ts:772-882 | the default associations of a product; `OnlyEspecialAddsNothing` and `DefaultsEffectRows` state what it writes |
| SupabaseData.ConfigUpsert | app/hooks/use-supabase-data.ts:920-960 | the save succeeds exactly when neither the select nor the write fails, and a failure, a failed select included, changes nothing; after a success the first row holds the number and is the row returned, a missing row is created, and other rows are untouched |
| SupabaseData.WebUpsert | app/hooks/use-supabase-data.ts:987-1035 | the save succeeds exactly when neither the select nor the write fails, and a failure, a failed select included, changes nothing; after a success row 1 exists, is the row returned and holds every sent value, and no other row changes |
| SupabaseData.ConfigEffect | app/hooks/use-supabase-data.ts:920-960 | the phone-number upsert; `ConfigUpsert` states its success and failure cases |
| SupabaseData.WebEffect | app/hooks/use-supabase-data.ts:987-1035 | the web-settings upsert; `WebUpsert` states its success and failure cases |
| SupabaseData.DataHook.constructor | app/hooks/use-supabase-data.ts:9-25 | the hook starts with the store's contents and no error |
| SupabaseData.DataHook.UpdateProducto | app/hooks/use-supabase-data.ts:227-258 | on success the product row takes the normalised update and the reloaded list is the store's; on failure nothing changes and the error message is set |
| SupabaseData.DataHook.UpdatePlan | app/hooks/use-supabase-data.ts:314-351 | the result and the new store are those of `UpdatePlanEffect`; the associations are reloaded only after a successful sync; a failure sets the error message |
| SupabaseData.DataHook.CreateDefaultAssociationsForProduct | app/hooks/use-supabase-data.ts:772-882 | the result and the new tables are those of `DefaultsEffect`, nothing else in the store changes, and a failure sets the error message |
| SupabaseData.DataHook.UpdateConfiguracion | app/hooks/use-supabase-data.ts:920-960 | the returned row and the new table are those of `ConfigEffect`, so a failed select writes nothing; the rest of the store stays, the id counter moves only when a row is created, and the hook keeps the returned row or sets the error message |
| SupabaseData.DataHook.UpdateConfiguracionWeb | app/hooks/use-supabase-data.ts:987-1035 | the returned row and the new table are those of `WebEffect`, so a failed select writes nothing; nothing else in the store changes, and the hook keeps the returned row or sets the error message |
| SupabaseData.BuildCategoryMap | app/hooks/use-supabase-data.ts:802-808 | the `forEach` builds exactly `CategoryMap` of the rows |
| ProductosSection.CalcularPrecioOferta | app/components/productos-section.tsx:77-81 | no offer price exactly when the base is not positive or the discount lies outside [0, 100]; otherwise the price less the discount, between 0 and the base |
| ProductosSection.CalcularDescuento | app/components/productos-section.tsx:83-87 | no discount exactly when the base is not positive or the offer price lies outside [0, base]; otherwise the percentage taken off, between 0 and 100 |
| ProductosSection.DiscountOfOffer | app/components/productos-section.tsx:77-87 | the discount of the computed offer price is the discount typed (before the two-decimal rounding) |
| ProductosSection.OfferOfDiscount | app/components/productos-section.tsx:77-87 | the offer price of the computed discount is the offer price typed (before the two-decimal rounding) |
| ProductosSection.OfertaText | app/components/productos-section.tsx:94-98 | with a parsed discount the offer field gets the computed price or stays empty; with an unparsable discount it is empty exactly when the base is not positive, and "NaN" otherwise |
| ProductosSection.FilteredProductos | app/components/productos-section.tsx:139-191 | a product is listed exactly when it is in the list and passes the search, category, brand and state filters |
| ProductosSection.StageIsSubseq | app/components/productos-section.tsx:145-188 | each filter stage, applied or not, keeps the order and only drops products |
| ProductosSection.FilteredIsSubseq | app/components/productos-section.tsx:139-191 | the filtered list keeps the list order |
| ProductosSection.BlankSearchFiltersNothing | app/components/productos-section.tsx:143 | a search of spaces only filters nothing by text, and with every other filter on "all" the whole list is shown |
| ProductosSection.SinCategoriaKeepsUncategorised | app/components/productos-section.tsx:165-169 | "sin_categoria" alone lists exactly the products without a category, in order |
| ProductosSection.CurrentProductos | app/components/productos-section.tsx:194-197 | a page holds at most 15 products, and an existing page is the slice from `(page - 1) * 15` to `page * 15`, cut at the end of the list |
| ProductosSection.EveryProductOnAPage | app/components/productos-section.tsx:194-197 | the product at position i is shown on page `i / 15 + 1`, which is within the page count, at offset `i % 15` |
| ProductosSection.Range | app/components/productos-section.tsx:227-229 | the pages a to b in order, none when b < a |
| ProductosSection.FewPagesAllShown | app/components/productos-section.tsx:226-230 | with five pages or fewer the strip lists every page in order |
| ProductosSection.ManyPagesStrip | app/components/productos-section.tsx:231-252 | with more than five pages the strip starts at 1, ends at the last page, has six or seven entries, rises strictly and shows the current page |
| ProductosSection.PushRange | app/components/productos-section.tsx:227-229 | the `for` loop appends exactly the pages a to b |
| ProductosSection.GetPageNumbers | app/components/productos-section.tsx:222-255 | the method's strip is `PageNumbers`, about which the two lemmas above hold |
| ProductosSection.PageNumbers | app/components/productos-section.tsx:222-255 | the page strip; `FewPagesAllShown` and `ManyPagesStrip` state its shape |
| ProductosSection.ImageSlot | app/components/productos-section.tsx:532-536 | the column of image k holds that image exactly when it exists and is not blank, and is never `null` |
| ProductosSection.ProductImages | app/components/productos-section.tsx:435-444 | an edited product's images are exactly its non-empty image columns, at most five |
| ProductosSection.FilterTruthy | app/components/productos-section.tsx:436-444 | `filter(Boolean)` keeps exactly the non-empty images |
| ProductosSection.FilterTruthyOfSlots | app/components/productos-section.tsx:436-444 | filled columns followed by empty ones load back as the same images |
| ProductosSection.ImagesRoundTrip | app/components/productos-section.tsx:435-536 | saving up to five non-blank images and editing the product again loads the same images in the same order |
| ProductosSection.ColumnsAreSlots | app/components/productos-section.tsx:532-536 | the saved columns are the five slots of the form's images |
| ProductosSection.SlotsOfImages | app/components/productos-section.tsx:532-536 | non-blank images fill the first slots in order and leave the rest `undefined` |
| ProductosSection.SlotAt | app/components/productos-section.tsx:532-536 | slot k holds image k when there is one, and `undefined` otherwise |
| ProductosSection.ImagesToRemove | app/components/productos-section.tsx:485-493 | a save removes exactly the stored images no longer in the form |
| ProductosSection.RemoveIndex | app/components/productos-section.tsx:1172 | removing the image at a valid index drops exactly that one; an invalid index changes nothing |
| ProductosSection.AdjustIndex | app/components/productos-section.tsx:1175-1180 | after a removal the index stays on a valid image, or is 0 when none is left |
| ProductosSection.PrevIndex | app/components/productos-section.tsx:1196-1200 | the left arrow moves to the previous image, from the first to the last |
| ProductosSection.NextIndex | app/components/productos-section.tsx:1210-1214 | the right arrow moves to the next image, from the last to the first |
| ProductosSection.PrevNextInverse | app/components/productos-section.tsx:1196-1214 | going forward then back, or back then forward, shows the same image again |
| ProductosSection.FilesToUpload | app/components/productos-section.tsx:1253-1259 | an upload takes the first `5 - count` files at most, and none at five images |
| ProductosSection.UploadKeepsAtMostFive | app/components/productos-section.tsx:1245-1296 | an upload only appends, and never takes a product with at most five images beyond five |
| ProductosSection.AfterUpload | app/components/productos-section.tsx:1245-1296 | the images after an upload; `UploadKeepsAtMostFive` proves it only appends and keeps at most five |
| ProductosSection.ExtractFromStoragePath | app/components/productos-section.tsx:691-704 | a storage path `.../imagenes/<dir>/<file>` gives back `<dir>/<file>` |
| ProductosSection.SplitOfStoragePath | app/components/productos-section.tsx:695 | splitting the joined path on "/" gives back its segments |
| ProductosSection.FirstSegmentAt | app/components/productos-section.tsx:698 | the first "imagenes" segment is found where it is |
| ProductosSection.ExtractFallback | app/components/productos-section.tsx:706-708 | without an "imagenes" segment the path is `productos/` and its last segment |
| ProductosSection.ExtractShortTail | app/components/productos-section.tsx:697-707 | when the first "imagenes" segment is among the last two, the path also falls back to `productos/` and its last segment |
| ProductosSection.ExtractFilePath | app/components/productos-section.tsx:691-715 | the storage path of an image URL; `ExtractFromStoragePath`, `ExtractFallback` and `ExtractShortTail` cover its three cases |
| ProductosSection.GetColorCode | app/components/productos-section.tsx:358-378 | a known colour code, in any case, gets its name; any other code is shown in upper case |
| ProductosSection.ColorCodeIgnoresCase | app/components/productos-section.tsx:358-378 | the colour name does not depend on the case of the code |
| ProductosSection.ProductosScreen.constructor | app/components/productos-section.tsx:46-72 | the form starts empty, with no image, on image 0 and on page 1 |
| ProductosSection.ProductosScreen.HandlePrecioChange | app/components/productos-section.tsx:89-102 | the price is stored; with a discount filled in and a number typed, the offer price is recomputed, and otherwise it is kept |
| ProductosSection.ProductosScreen.HandleDescuentoChange | app/components/productos-section.tsx:104-119 | the discount is stored; the offer price is recomputed only when the price parses and the discount parses within [0, 100] |
| ProductosSection.ProductosScreen.HandlePrecioOfertaChange | app/components/productos-section.tsx:121-136 | the offer price is stored; the discount is recomputed only when the price parses and the offer price parses as non-negative |
| ProductosSection.ProductosScreen.RemoveCurrentImage | app/components/productos-section.tsx:1150-1180 | the image on show is removed and the index stays on a valid image, or 0 |
| ProductosSection.ProductosScreen.PrevImage | app/components/productos-section.tsx:1196-1200 | the index moves as `PrevIndex` says |
| ProductosSection.ProductosScreen.NextImage | app/components/productos-section.tsx:1210-1214 | the index moves as `NextIndex` says |
| ProductosSection.ProductosScreen.Upload | app/components/productos-section.tsx:1245-1296 | the images after an upload are those of `AfterUpload`: all the accepted files' URLs appended, or nothing when any file is rejected or fails |
| PromoModal.Dedup | app/components/promo-modal.tsx:66 | `new Set(ids)` holds each id once and exactly the ids given |
| PromoModal.Remove | app/components/promo-modal.tsx:107 | deleting an id keeps the set free of repeats and removes exactly that id |
| PromoModal.RemoveAbsent | app/components/promo-modal.tsx:107 | deleting an id that is not selected changes nothing |
| PromoModal.RemoveAppended | app/components/promo-modal.tsx:106-110 | deleting the id just added gives back the set as it was before the add |
| PromoModal.Toggled | app/components/promo-modal.tsx:104-112 | toggling adds the id exactly when it was not selected and leaves every other id's membership alone |
| PromoModal.ToggleTwice | app/components/promo-modal.tsx:104-112 | toggling the same id twice restores the selected set, and its order when the id was absent |
| PromoModal.FilteredProductos | app/components/promo-modal.tsx:114-117 | `None` exactly when the filter throws, which is when some product with a `null` code fails the description test; otherwise the products whose lowercased description or code contains the lowercased term, in loaded order |
| PromoModal.EmptyTermKeepsAll | app/components/promo-modal.tsx:114-117 | an empty search term never reaches a code and lists every loaded product in order |
| PromoModal.OrEmpty | app/components/promo-modal.tsx:60 | a present description is kept; a missing one becomes the empty string |
| PromoModal.FormOf | app/components/promo-modal.tsx:58-65 | the form copies name, state and description, shows the discount as text and keeps only the part of each date before the first 'T' |
| PromoModal.DateWithoutTimeKept | app/components/promo-modal.tsx:62-63 | a date with no 'T' is copied unchanged into the form |
| PromoModal.SelectionOf | app/components/promo-modal.tsx:66 | the opening selection holds the promo's product ids without repeats, and is empty when it has none |
| PromoModal.EditedId | app/components/promo-modal.tsx:135 | the save edits exactly when the promo has a non-empty id, and then edits that id |
| PromoModal.DataOf | app/components/promo-modal.tsx:124-131 | the row written carries the form's text fields, the parsed discount and the converted dates |
| PromoModal.ProductosOf | app/components/promo-modal.tsx:145-182 | a product is linked to a promo exactly when the table holds that link |
| PromoModal.ProductosOfAppend | app/components/promo-modal.tsx:174-176 | inserting links adds their products after the existing ones |
| PromoModal.Deleted | app/components/promo-modal.tsx:146-149 | the delete keeps exactly the links of other promos |
| PromoModal.ProductosOfDeleted | app/components/promo-modal.tsx:146-149 | after the delete the promo has no products and every other promo keeps its own |
| PromoModal.ProductosOfAbsent | app/components/promo-modal.tsx:157-164 | a promo no link refers to has no products |
| PromoModal.LinksFor | app/components/promo-modal.tsx:169-172 | one link row per selected id |
| PromoModal.ProductosOfLinksFor | app/components/promo-modal.tsx:169-172 | the new rows link the promo to exactly the selection, in order, and no other promo to anything |
| PromoModal.UpdateRows | app/components/promo-modal.tsx:137-140 | the update writes the new data to the rows with that id and leaves the others as they were |
| PromoModal.InsertLinks | app/components/promo-modal.tsx:167-182 | nothing is inserted for an empty selection; otherwise a failure leaves the store as it was and a success appends the selection's links |
| PromoModal.Submit | app/components/promo-modal.tsx:119-193 | a failed promo write changes nothing; a save reports the edited id, or the new id when creating |
| PromoModal.EditReplacesLinks | app/components/promo-modal.tsx:135-182 | a successful edit leaves the promo linked to exactly the selection and every other promo's links as they were |
| PromoModal.CreateLinksSelection | app/components/promo-modal.tsx:155-182 | a successful creation links the new promo to exactly the selection and leaves every other promo's links alone |
| PromoModal.EmptySelectionNoInsert | app/components/promo-modal.tsx:168 | with nothing selected the insert's failure cannot matter and no new link appears |
| PromoModal.FailedInsertLeavesNoLinks | app/components/promo-modal.tsx:145-181 | when the insert fails after the delete, the save fails and the edited promo is left with no products |
| PromoModal.EditWritesOnlyThatRow | app/components/promo-modal.tsx:137-140 | an edit keeps the number of promo rows and rewrites only the edited one |
| PromoModal.PromoDialog.constructor | app/components/promo-modal.tsx:39-52 | the dialog starts closed, with the empty form, no selection, no search term and no products |
| PromoModal.PromoDialog.ResetForm | app/components/promo-modal.tsx:73-84 | the form, selection and search term are reset and nothing else changes |
| PromoModal.PromoDialog.Open | app/components/promo-modal.tsx:54-71 | opening loads the products (keeping the old list on failure), fills the form and selection from a promo, or resets them without one |
| PromoModal.PromoDialog.Toggle | app/components/promo-modal.tsx:104-112 | the selection becomes its toggle and nothing else changes |
| PromoModal.PromoDialog.Search | app/components/promo-modal.tsx:279-280 | typing sets the search term and nothing else |
| PromoModal.PromoDialog.Shown | app/components/promo-modal.tsx:114-117 | the list throws exactly when a loaded product with no code fails the description test, and otherwise shows exactly the loaded products that match the term |
| PromoModal.PromoDialog.HandleSubmit | app/components/promo-modal.tsx:119-193 | the store takes the save's effect; a save closes the dialog, a failure keeps it as it was, and loading ends off |
| PromosSection.ActiveIff | app/components/promos-section.tsx:134-140 | a switched-off promo is never active; a switched-on one is active exactly while now lies in its window, both ends included |
| PromosSection.IsPromoActive | app/components/promos-section.tsx:134-140 | whether a promo is active now; `ActiveIff`, `InvalidDateInactive` and `ActiveBetween` state when |
| PromosSection.InvalidDateInactive | app/components/promos-section.tsx:137-139 | an unparsable start or end date makes the promo inactive whatever the time |
| PromosSection.ActiveBetween | app/components/promos-section.tsx:134-140 | active at two instants means active at every instant in between |
| PromosSection.WithProducts | app/components/promos-section.tsx:77-81 | a listed promo keeps its row and its count is the length of its id list, empty when the link query failed |
| PromosSection.LoadPromos | app/components/promos-section.tsx:58-92 | the load fails exactly when the promos query does; otherwise it lists one entry per promo row, in order, each with its own link query's outcome |
| PromosSection.CountIsLength | app/components/promos-section.tsx:70-83 | each listed count equals the number of ids, and the ids are exactly the promo's linked products |
| PromosSection.SavedEditListed | app/components/promos-section.tsx:245-247 | after a saved edit the reload lists the promo with exactly the selected products and their number |
| PromosSection.DeletePromo | app/components/promos-section.tsx:103-106 | the delete keeps exactly the rows with another id, in their order |
| PromosSection.DeletedNotListed | app/components/promos-section.tsx:99-111 | after a successful delete and reload the deleted promo is not listed, and the list is short by exactly its rows |
| PromosSection.PromosScreen.constructor | app/components/promos-section.tsx:47-52 | the screen starts loading, with no promos, the dialogs closed and nothing pending |
| PromosSection.PromosScreen.Load | app/components/promos-section.tsx:58-92 | the list becomes the loaded one, the old list stays when the promos query fails, and loading ends off |
| PromosSection.PromosScreen.HandleEdit | app/components/promos-section.tsx:94-97 | the dialog opens on that promo and nothing else changes |
| PromosSection.PromosScreen.NewPromo | app/components/promos-section.tsx:149-152 | the dialog opens with no promo and nothing else changes |
| PromosSection.PromosScreen.ConfirmDelete | app/components/promos-section.tsx:121-124 | the id is recorded and the confirmation opens |
| PromosSection.PromosScreen.HandleDelete | app/components/promos-section.tsx:99-119 | no pending id changes nothing; otherwise a successful delete removes the rows and reloads, a failure keeps store and list, and the confirmation closes with the pending id cleared |
| ConfiguracionWeb.DefaultsOn | app/components/configuracion-web.tsx:97-127 | the record has exactly the given keys, each at its default |
| ConfiguracionWeb.StoredOr | app/components/configuracion-web.tsx:33-74 | a field reads the stored value when the row exists and holds a truthy value there, and the default otherwise |
| ConfiguracionWeb.FormOn | app/components/configuracion-web.tsx:31-75 | the form has exactly the given keys, each read from the stored settings with its default |
| ConfiguracionWeb.InitialForm | app/components/configuracion-web.tsx:31-75 | the start form has exactly the screen's fields, each stored-or-default |
| ConfiguracionWeb.InitialFieldIff | app/components/configuracion-web.tsx:33-74 | a stored value is taken exactly when it is truthy; a stored 0, empty text, false or null gives the default |
| ConfiguracionWeb.FormOnNull | app/components/configuracion-web.tsx:31-75 | with no stored settings every key holds its default |
| ConfiguracionWeb.InitialOfNull | app/components/configuracion-web.tsx:31-127 | with no stored settings the start form is the record the reset writes |
| ConfiguracionWeb.FormOnIdempotent | app/components/configuracion-web.tsx:31-75 | building the form again from a built form changes nothing |
| ConfiguracionWeb.InitialIdempotent | app/components/configuracion-web.tsx:31-75 | building the start form from a start form gives it back |
| ConfiguracionWeb.InputChanged | app/components/configuracion-web.tsx:90-95 | the changed field holds the new value, every other field keeps its value, and the key set grows only by that field |
| ConfiguracionWeb.ChangeUndone | app/components/configuracion-web.tsx:90-95 | changing a field and then writing its old value back restores the form |
| ConfiguracionWeb.IntOr | app/components/configuracion-web.tsx:225 | a parsed non-zero integer is kept; a failed parse or 0 gives the fallback |
| ConfiguracionWeb.SizeInput | app/components/configuracion-web.tsx:225-359 | a size box stores the parsed integer or 0 |
| ConfiguracionWeb.CountInput | app/components/configuracion-web.tsx:409 | the count box stores the parsed integer or 12, and is never 0 |
| ConfiguracionWeb.SelectInput | app/components/configuracion-web.tsx:386 | "null" gives null, a parsable value its integer, and anything else NaN |
| ConfiguracionWeb.SizeInputOfNumber | app/components/configuracion-web.tsx:225-359 | a size typed as decimal digits is read back as that number |
| ConfiguracionWeb.CountInputOfNumber | app/components/configuracion-web.tsx:409 | a typed positive count is read back, and a typed 0 gives 12 |
| ConfiguracionWeb.EmptyInputs | app/components/configuracion-web.tsx:225-409 | a box holding no digit gives 0 for a size and 12 for the count |
| ConfiguracionWeb.SelectInputOfId | app/components/configuracion-web.tsx:386-444 | choosing an id in a select stores that id |
| ConfiguracionWeb.InitialHasFields | app/components/configuracion-web.tsx:31-75 | the start form has exactly the screen's fields |
| ConfiguracionWeb.ChangeKeepsFields | app/components/configuracion-web.tsx:90-95 | changing one of the screen's fields keeps the key set |
| ConfiguracionWeb.ConfigForm.constructor | app/components/configuracion-web.tsx:30-75 | the screen starts with the form built from the received settings and not saving |
| ConfiguracionWeb.ConfigForm.HandleInputChange | app/components/configuracion-web.tsx:90-95 | the form becomes the changed form and the saving flag stays |
| ConfiguracionWeb.ConfigForm.EditSize | app/components/configuracion-web.tsx:225-359 | an edited size box writes its parsed value to that field |
| ConfiguracionWeb.ConfigForm.EditCount | app/components/configuracion-web.tsx:409 | an edited count box writes its parsed value to the count field |
| ConfiguracionWeb.ConfigForm.EditSelect | app/components/configuracion-web.tsx:386-444 | a chosen plan, category or brand writes its select value to that field |
| ConfiguracionWeb.ConfigForm.HandleReset | app/components/configuracion-web.tsx:97-127 | the form becomes the defaults, the same as the start form with no stored settings |
| ConfiguracionWeb.ConfigForm.HandleSubmit | app/components/configuracion-web.tsx:77-88 | the settings store takes the upsert of the whole form and nothing else in the store changes; the hook shows the saved row, or keeps its copy and sets the error message; the hook's other copies and the form are kept, and the saving flag ends off |
| DashboardSection.ProductosDestacados | app/components/dashboard-section.tsx:14 | the featured count is the number of featured products, never more than the total |
| DashboardSection.PlanesActivos | app/components/dashboard-section.tsx:15 | the active-plan count is the number of active plans, never more than the total |
| DashboardSection.AsociacionesActivas | app/components/dashboard-section.tsx:16 | the active-association count is the number of active rows, never more than the total |
| DashboardSection.CountsSplitTotals | app/components/dashboard-section.tsx:14-63 | each count plus the count of the rest equals the total shown beside it |
| DashboardSection.AllDestacadosIff | app/components/dashboard-section.tsx:14-41 | the featured count reaches the total exactly when every product is featured |
| DashboardSection.ValorTotalBounds | app/components/dashboard-section.tsx:17 | with no negative price the total value is not negative and is at least any one product's price |
| DashboardSection.SumSplits | app/components/dashboard-section.tsx:17 | a condition and its negation split the summed prices between them |
| DashboardSection.ValorTotalSplits | app/components/dashboard-section.tsx:17 | the total value is the featured products' value plus the others' |
| DashboardSection.ValorTotal | app/components/dashboard-section.tsx:17 | the catalogue's total price; `ValorTotalBounds` and `ValorTotalSplits` state its bounds and split |
| DashboardSection.Usos | app/components/dashboard-section.tsx:106 | a plan's use is the number of rows with its id, never more than the rows |
| DashboardSection.UsosSnoc | app/components/dashboard-section.tsx:106 | one more row adds one to its own plan's use and nothing to any other |
| DashboardSection.UnusedPlanZero | app/components/dashboard-section.tsx:106 | a plan no row refers to shows 0 |
| DashboardSection.PlanUsage | app/components/dashboard-section.tsx:105-114 | one entry per plan, in plan order, each with that plan's use |
| DashboardSection.SortByPrecioDesc | app/components/dashboard-section.tsx:87 | the array ends in non-increasing price order and holds the same products |
| DashboardSection.InsertAt | app/components/dashboard-section.tsx:87 | one insertion step extends the sorted prefix by one element and keeps the products |
| DashboardSection.MasCaros | app/components/dashboard-section.tsx:86-88 | the card shows the first five products (all when fewer) of the sorted array, none cheaper than any product left out |
| Dashboard.SectionOf | app/dashboard.tsx:177-306 | any section other than the summary is selected only by its own key |
| Dashboard.SectionOfKey | app/dashboard.tsx:177-306 | each section's key selects that section |
| Dashboard.KnownKeyIff | app/dashboard.tsx:177-306 | a key selects a content section exactly when it is one of the eleven known keys |
| Dashboard.SectionTitle | app/dashboard.tsx:132-158 | the title is the selected section's title, and it is "Dashboard" exactly for an unknown key or "dashboard" |
| Dashboard.RemoveFirstHash | app/dashboard.tsx:90 | a string with no '#' is kept; otherwise exactly its first '#' is removed and the rest kept in order |
| Dashboard.RemoveLeadingHash | app/dashboard.tsx:90 | "#key" gives back key |
| Dashboard.OnHashChange | app/dashboard.tsx:89-94 | the section becomes the hash without its first '#' when that is not empty and stays otherwise |
| Dashboard.RenderContent | app/dashboard.tsx:161-306 | loading shows the spinner, otherwise an error shows its message, otherwise the section the key selects |
| Dashboard.TitleMatchesContent | app/dashboard.tsx:132-306 | once loaded without error, the title and the content name the same section |
| Dashboard.Shell.constructor | app/dashboard.tsx:34 | the shell starts on "dashboard" |
| Dashboard.Shell.HandleHashChange | app/dashboard.tsx:89-97 | the active key becomes the one the hash change gives |
| Text.Trim | app/components/excel-migrator.tsx:72 | the trimmed text is a slice of the text with only white space outside it, and neither starts nor ends with white space |
| Text.TrimIdempotent | app/components/excel-migrator.tsx:432-433 | trimming twice is trimming once |
| Text.TrimEmptyIff | app/components/productos-section.tsx:143 | the text trims to empty exactly when it is all white space |
| Text.ToLower | app/components/excel-migrator.tsx:208 | lower-casing keeps the length and lower-cases each character |
| Text.ToLowerIdempotent | app/components/excel-migrator.tsx:460 | lower-casing twice is lower-casing once |
| Text.LowerTrimCommute | app/components/excel-migrator.tsx:399 | lower-casing and trimming commute |
| Text.KeyIgnoresCase | app/components/excel-migrator.tsx:399-409 | the importer's comparison key is the same for a text and its lower-cased form |
| Text.KeyIgnoresSpace | app/components/excel-migrator.tsx:399-409 | the importer's comparison key ignores surrounding white space |
| Text.IncludesIff | app/components/promo-modal.tsx:115 | `includes` holds exactly when the term occurs at some index |
| Text.BeforeFirst | app/components/promo-modal.tsx:62 | the piece before the first separator is a prefix with no separator, and is the whole text exactly when there is none |
| Text.JoinSplit | app/components/productos-section.tsx:691-708 | joining the pieces of a split restores the text |
| Text.ParseIntNatToString | app/components/configuracion-web.tsx:386 | `parseInt` reads back the decimal text of any whole number |
| Text.ParseIntNoDigits | app/components/configuracion-web.tsx:225 | text with no digit parses to NaN |
| Seqs.TotalPages | app/components/productos-section.tsx:194 | the page count covers every item, with no empty page at the end, and is 0 exactly for no items |
| Seqs.Page | app/components/productos-section.tsx:195-197 | a page holds at most the page size, taken from its offset in order |
| Seqs.PageOfIndex | app/components/productos-section.tsx:194-197 | every item lies on a page from 1 to the page count, at its offset within that page |
| Seqs.Filter | app/components/productos-section.tsx:139-191 | a filter keeps exactly the matching elements, never more than it was given |
| Seqs.FilterAppend | app/components/dashboard-section.tsx:106 | filtering a concatenation filters each part |
| Seqs.FirstIndex | app/components/excel-migrator.tsx:208 | `find` gives the first match, and none exactly when nothing matches |

## Left out

- Network, storage and authentication: every Supabase call is a step on in-memory tables, and whether it fails is a parameter. Clerk sign-in, the connection check, image upload and removal in storage, and click-outside handling are not modelled.
- Loads and reloads after a write are copies of the modelled tables. The server-side `order(...)` of a query, including the promos' `created_at` descending order, is taken as the table order. Failures of the hook's initial loads are not modelled.
- Spreadsheet I/O: reading the workbook, the column aliasing of `String(row.x || row['Alias'])` and `downloadTemplate` are library glue, so rows arrive already parsed.
- `parseExcelDate`: the numeric serial-date branch is kept only as a `SerialDate` value. It is never converted, because the conversion depends on the time zone.
- JavaScript `Date`: `toISOString`, date parsing and `toLocaleDateString` are parameters or integers. `isPromoActive` takes milliseconds since the epoch, with `None` for an invalid date.
- Floating point: `parseFloat` is given as a parsed value, with `None` for NaN. A `toFixed(2)` text carries the real it was written from, so its rounding is not modelled. `Number#toString`, the `Intl`/`toLocaleString` price formatting and the progress-bar percentages are left out.
- Concurrency: `Promise.all` in the hook's loads and in `loadPromos` is modelled as a sequential map. The parallel uploads, the `setTimeout` pauses and the debounces are left out.
- UI: toasts, alerts, `console` output, progress state, the `isCreating` flags, JSX rendering, the rich-text editor (`execCommand`, `detectCurrentColor`) and `FileReader` previews are left out.
- ProductosPlanes.FilteredAssocs: the `localeCompare` sort of `filteredAndSortedData` is locale-dependent, so the model keeps the input order of the filtered list.
- ProductosPlanes.PlanesSection.HandleMassAssociate: `selectedPlanForMass` is held as an optional plan id, so the `parseInt` of the select's text is not modelled.
- SupabaseData.DefaultsEffectRows: the inserted rows leave `activo` to the column default, which the model assumes is `true`, since the schema is not part of this model.
- PromosSection.PromosScreen.HandleDelete: the database's cascade of `promo_productos` when a promo is deleted is not modelled; the link rows stay in the model's table.
- PromoModal.LinksFor: its own contract states only the number of rows. Their contents are stated by `ProductosOfLinksFor`.
- ConfiguracionWeb.ConfigForm.constructor: the form is built once from the settings passed in, as React's `useState` initializer does. Later changes of the prop do not rebuild it.
- Text.ToLower: `toLowerCase` and `toUpperCase` are exact only for Latin-1 (U+0000 to U+00FF, with the sharp s, `ÿ` and `µ` upper-cased as JavaScript does). Other scripts are left unchanged, because full Unicode case mapping tables are not part of this model.
- A `Set` is a duplicate-free sequence in insertion order. `Array.prototype.sort` is modelled as a stable insertion sort, which is one of the orders JavaScript allows.
- `lib/supabase.ts` gives only the row shapes. The sidebar (`app/components/app-sidebar.tsx`) is a static menu and is not part of this model.

## Findings

| source | as written | input that shows it | evidently intended | confidence | as-written member | corrected member |
|---|---|---|---|---|---|---|
| app/components/excel-migrator.tsx:474-547 | The offer price, discount and both validity dates are compared with strict `!==` between the stored product and the row. A column the database holds as `null` therefore differs from an empty cell, which is `undefined`. The update payload then writes that `undefined`, which JSON serialisation drops, so the stored `null` stays. | A product with code "A" and `precio_oferta` `null`, and a row with code "A", the same description, price and category, and an empty offer-price cell. Every import reports the row as updated, and so does every later one. | A missing value compares equal to `null`, and the payload writes `null`, so importing the same row twice finds no change the second time. `updateProducto` in app/hooks/use-supabase-data.ts:231-237 does the same normalisation. | not executed | ExcelMigrator.UpdateAsWrittenRepeats | ExcelMigrator.UpdateConverges |
