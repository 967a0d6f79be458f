# Railway maintenance form API: request rules and record tables

This project models the core of a small HTTP API used for railway rolling-stock
inspections. The API accepts two kinds of forms:

- a **bogie checksheet**: a details group plus two groups of component
  conditions;
- a **wheel specification**: identification, measurements, condition and
  manufacturing data of one wheel.

It stores each accepted form as a row, and it lists wheel specifications with
filters and paging.

The model has five modules:

- `Common` (common.dfy): `Option`, `Result`, `Min`.
- `Schemas` (schemas.dfy): the request schemas.
  - The three enumerations, with their exact wire strings ("WORN OUT" has a space).
  - Each JSON field as `Input<T>`, which is `Omitted`, `Null` or `Given(v)`. A
    default then replaces an omitted field only: an explicit `null` stays absent
    in an optional field and is refused in a required one.
  - The constraint on every field and validation that reports *every* violated
    field.
  - Decoding into the typed request with the defaults filled in.
  - Validation of the listing's query parameters.
- `Records` (records.dfy): the stored rows, the invariants of the two tables, and
  the exact-match wheel-number lookup.
- `Listing` (listing.dfy): the listing endpoint as pure functions.
  - Case-insensitive "contains" (ILIKE `%term%`).
  - The five filters, AND-combined and applied one after another as the handler
    does.
  - The count, the offset/limit page and the response rows.
  - `ResponseRows`, the handler's row-building loop, proved equal to the row
    function.
- `Store` (store.dfy): class `RecordStore`.
  - It holds both tables in insertion order and the next id of each.
  - Its three endpoint methods update or read them.
  - `Valid()` holds throughout: ids strictly increase, every stored row is a
    valid request, every bogie row is "COMPLETED", and wheel numbers are
    pairwise distinct.

Outcomes and status codes:

- A body that fails validation is refused with status 422 and changes nothing.
- A duplicate wheel number is refused with 400 and changes nothing.
- A failed commit is rolled back and reported as 500, and nothing is stored.
- A failure after the commit (reading the new row back for the response) is
  also reported as 500, but the row stays stored; a retried wheel create is
  then refused with 400.
- A success stores exactly one new row and returns 200.

The storage engine is not modelled. How the commit of a create runs
(`RolledBack`, `CommittedThenFailed` or `Committed`) is a parameter of the
create, whether the listing's query succeeds is a boolean parameter of the
listing, and the current time is a parameter of each create.

## Model

| member | source | states |
|---|---|---|
| Schemas.ParseCondition | app/schemas.py:7-12 | a string is accepted as a condition iff it is one of GOOD, "WORN OUT", DAMAGED, CRACKED, WORN, and the parsed value prints back as that string |
| Schemas.ParsePosition | app/schemas.py:14-16 | a string is accepted as a position iff it is LEFT or RIGHT, and the parsed value prints back as that string |
| Schemas.ParseStatus | app/schemas.py:18-21 | a string is accepted as a status iff it is ACTIVE, INACTIVE or RETIRED, and the parsed value prints back as that string |
| Schemas.EnumRoundTrips | app/schemas.py:6-21 | every enumeration member parses back from its own wire string |
| Schemas.CheckRequiredString | app/schemas.py:25-28 | a required string field reports an error iff it is missing, null, or its length is outside min..max; the error names that field only |
| Schemas.CheckOptionalString | app/schemas.py:79-88 | an optional string reports an error iff a value is sent longer than the bound; null and omission pass |
| Schemas.CheckRequiredPositive | app/schemas.py:74 | a required measurement reports an error iff it is missing, null or not strictly greater than 0 |
| Schemas.CheckOptionalPositive | app/schemas.py:75-77 | an optional measurement reports an error iff a value is sent that is not strictly greater than 0 |
| Schemas.CheckOptionalMember | app/schemas.py:31-41 | an optional enumeration field reports an error iff a value is sent that is not a member |
| Schemas.CheckBogieField | app/schemas.py:24-47 | a bogie field is reported iff it breaks its constraint; a missing sub-group is reported on the group, not on its fields |
| Schemas.BogieErrorsForReports | app/schemas.py:24-47 | checking a list of bogie fields reports exactly the listed fields that break their constraint |
| Schemas.BogieErrorsExact | app/schemas.py:24-47 | bogie validation reports every violated field and only those; no error is reported iff all three sub-groups are present, the detail strings are within 1..50, 1..50 and 1..100 characters, the inspection date is present and every condition is absent or a member |
| Schemas.ValidBogieInputPerField | app/schemas.py:24-47 | a bogie body is valid iff each of its sixteen fields meets its own constraint |
| Schemas.BogieFromInput | app/schemas.py:24-47 | a valid body decodes to a request whose detail fields are the strings sent, whose nine conditions are the members sent or absent, and whose remarks are as sent |
| Schemas.ValidateBogie | app/schemas.py:43-47 | bogie validation succeeds iff the body is valid; on success the request is the decoding of the body and meets every length bound; on failure the error list is non-empty and lists every violation |
| Schemas.BogieFromInputOf | app/schemas.py:43-47 | decoding the body sent for a request gives back each of its four parts |
| Schemas.BogieRequestRoundTrip | app/schemas.py:43-47 | every valid bogie request is accepted, unchanged, from the body a client sends for it |
| Schemas.CheckWheelField | app/schemas.py:69-90 | a wheel field is reported iff it breaks its constraint |
| Schemas.WheelErrorsForReports | app/schemas.py:69-90 | checking a list of wheel fields reports exactly the listed fields that break their constraint |
| Schemas.WheelErrorsExact | app/schemas.py:69-90 | wheel validation reports every violated field and only those; no error is reported iff the three identifiers have 1..50 characters, the diameter is present and positive, the optional measurements are positive when sent, the optional strings are within 100, 100, 50, 100 and 20 characters, and position, condition and status are members when sent |
| Schemas.ValidWheelInputPerField | app/schemas.py:69-90 | a wheel body is valid iff each of its sixteen constrained fields meets its own constraint |
| Schemas.WheelFromInput | app/schemas.py:73-90 | decoding fills the defaults for omitted fields only: condition GOOD, cracks_detected false, status ACTIVE, position absent; an explicit null stays absent; the identifiers and diameter are the values sent; each of the other thirteen optional fields is the value sent, or absent when null or omitted |
| Schemas.ValidateWheel | app/schemas.py:69-90 | wheel validation succeeds iff the body is valid; on success the request is the decoding of the body, defaults filled in, and meets every bound; on failure the error list is non-empty and lists every violation |
| Schemas.WheelFromInputOf | app/schemas.py:69-90 | decoding the body sent for a request gives back each of its 21 fields |
| Schemas.WheelRequestRoundTrip | app/schemas.py:69-90 | every valid wheel request is accepted, unchanged, from the body a client sends for it |
| Schemas.QueryErrors | app/routes.py:86-90 | the listing parameters report no error iff condition and status are members when given, 1 <= limit <= 100 when given, and offset >= 0 when given |
| Schemas.ValidateQuery | app/routes.py:84-90 | parameter validation succeeds iff the parameters are valid; limit defaults to 10 and offset to 0; the text filters pass unchanged and the enum filters decode to the members named |
| Records.NewBogieRecord | app/routes.py:35-57 | the stored bogie row has the given id and time, overall status "COMPLETED" whatever was sent, and regroups to exactly the request |
| Records.FindWheelNumber | app/routes.py:185-188 | the lookup finds nothing iff no row has exactly that wheel number; otherwise it finds the first row that has it |
| Records.AppendKeepsWheelTable | app/routes.py:185-201 | appending a valid wheel whose number is not stored keeps ids increasing, wheel numbers distinct and every row valid |
| Records.AppendKeepsBogieTable | app/routes.py:35-61 | appending a valid bogie request keeps ids increasing, every row valid and every row "COMPLETED" |
| Records.AppendedWheelIsFound | app/routes.py:185-201 | once a fresh wheel number is stored, the lookup finds it at the new row, so a second create with it is refused |
| Listing.Lower | app/routes.py:106 | lower-casing keeps the length, leaves no upper-case ASCII letter, turns each upper-case letter into its lower-case letter and keeps every other character |
| Listing.Contains | app/routes.py:106 | the search is true iff the term occurs at some position of the column |
| Listing.ILikeItself | app/routes.py:106 | every value matches a filter equal to itself |
| Listing.ILikeIgnoresCase | app/routes.py:106 | matching is unchanged when column and term are lower-cased first |
| Listing.Filter | app/routes.py:103-118 | a filtered query keeps exactly the rows that satisfy the condition, and never grows |
| Listing.FilterFilter | app/routes.py:103-118 | narrowing a query twice equals narrowing it once by the conjunction |
| Listing.FilterAppend | app/routes.py:103-118 | filtering distributes over concatenation, so insertion order is kept |
| Listing.QueryIsSelect | app/routes.py:103-118 | applying the five filter steps in turn equals keeping the rows that satisfy every supplied filter at once |
| Listing.SelectMembership | app/routes.py:103-118 | a row is selected iff it is stored and matches every supplied filter |
| Listing.SelectAppend | app/routes.py:103-118 | a newly appended row appears at the end of the selection iff it matches |
| Listing.NoFiltersSelectAll | app/routes.py:105-118 | with no filter given, or only empty-string text filters, every row is selected |
| Listing.OwnWheelNumberMatches | app/routes.py:105-106 | a row matches a filter on its own wheel number |
| Listing.NoManufacturerNeverMatches | app/routes.py:114-115 | a row with no manufacturer never matches a non-empty manufacturer filter |
| Listing.CountMatching | app/routes.py:121 | the count of matching rows never exceeds the number of rows |
| Listing.CountIsSelectLength | app/routes.py:121 | the count is the number of rows the filters select |
| Listing.Page | app/routes.py:124 | the page has at most limit rows; it is empty when offset is at or past the end; otherwise it holds min(limit, rows - offset) rows, each the row at offset + i |
| Listing.PagesJoin | app/routes.py:124 | two consecutive pages together are the page of their combined length |
| Listing.PagesFromCoverAll | app/routes.py:124 | walking the pages from an offset, limit by limit, yields every row from that offset on, each once |
| Listing.RowRoundTrip | app/routes.py:127-154 | a response row carries every field of its stored row |
| Listing.Rows | app/routes.py:127-154 | there is one response entry per stored row of the page, in the same order, and each entry gives back exactly its stored row |
| Listing.ResponseRows | app/routes.py:127-154 | the row-building loop returns exactly the response rows of the page |
| Listing.ListWheelsMeaning | app/routes.py:121-163 | the listing's total is the count of matching rows; its data is the response rows of the requested page of the matching rows; it has at most limit rows and is empty when offset >= total; the reported count equals the number of rows; limit and offset are echoed |
| Listing.ListedRowsMatch | app/routes.py:103-154 | every listed row is a stored row that satisfies every supplied filter |
| Listing.TotalIgnoresPaging | app/routes.py:121-161 | the total does not depend on limit or offset |
| Listing.SmallResultFitsOnePage | app/routes.py:121-124 | when the matches fit in limit and offset is 0, one page lists all of them |
| Store.RecordStore.constructor | app/routes.py:20-221 | a new store has empty tables and both ids start at 1 |
| Store.RecordStore.AddBogie | app/routes.py:60-61 | adding an accepted bogie request appends one row with the next id, advances the id, keeps the invariant and leaves the wheel table alone |
| Store.RecordStore.AddWheel | app/routes.py:199-200 | adding an accepted wheel request with a fresh number appends one row with the next id, advances the id, keeps the invariant and leaves the bogie table alone |
| Store.RecordStore.CreateBogieChecksheet | app/routes.py:20-80 | an invalid body gives 422 with every violation and changes nothing; a commit that is rolled back gives 500 and changes nothing; once committed, exactly one "COMPLETED" row copied from the request is appended with the next id, and the response is its id, numbers and creation time, or 500 when the step after the commit fails; the wheel table is never touched |
| Store.RecordStore.CreateWheelSpecification | app/routes.py:171-221 | an invalid body gives 422; a wheel number equal to a stored one gives 400, is not turned into 500 and changes nothing; a commit that is rolled back gives 500 and changes nothing; once committed, exactly one row with the request's fields is appended with the next id, and the response is its id, numbers and creation time, or 500 when the step after the commit fails; wheel numbers stay distinct and the bogie table is never touched |
| Store.RecordStore.GetWheelSpecifications | app/routes.py:82-169 | invalid parameters give 422; a failed query gives 500; otherwise the handler's step-by-step query yields exactly the listing of the stored wheels |

## Left out

- app/main.py: application construction, CORS, the health check and the global
  exception handler are HTTP plumbing. The extra "/api" router prefix is a
  routing quirk, not behaviour of the core.
- app/database.py: it only creates a MongoDB client from environment settings.
  The session and engine that the routes import are not defined anywhere, so
  the real persistence layer is not part of this model. The tables are modelled
  as sequences of rows in insertion order.
- app/models.py: it is used only as the shape of stored rows.
  - The database-level `unique` constraint on the wheel number is not modelled;
    uniqueness comes from the handler's own check.
  - The column defaults are not modelled either, including the "PENDING" overall
    status, which the bogie handler always overrides.
- seed_data.py: it inserts fixtures directly, bypassing validation, and prompts
  interactively. It is not part of the request contract.
- Ids and timestamps:
  - Ids are a counter per table that starts at 1, and a failed commit does not
    consume one. A database sequence might skip values, which the model does
    not capture.
  - `created_at` and `updated_at` both take the `now` parameter.
  - Dates are opaque values, and their ISO 8601 rendering in responses is not
    modelled.
- Listing order: the query has no ORDER BY, so the listing is taken to be
  insertion order.
- Listing.ILike: `%` and `_` in a filter value act as SQL wildcards because they are not escaped; the model treats them as ordinary characters.
- Listing.ILike: case folding is ASCII only; database collations may fold more characters.
- Schemas.ValidateWheel: Pydantic's type coercion (a numeric string accepted as a float, say) is not modelled; inputs arrive already typed.
- Schemas.ValidateWheel: unknown extra fields, which the source ignores, are absent from the model; error message text is not modelled, only the error kind.
- Schemas.ValidateBogie: as for wheels, type coercion, extra fields and error message text are not modelled.
- Schemas.ValidateQuery: parsing the query string into integers is not modelled, and neither is the 422 for a non-integer `limit` or `offset`; parameters arrive already typed.
- Status code of validation failures: the handlers rely on FastAPI's request validation, and no exception handler in app/main.py changes its status, so a refused body gets 422. The model follows this code.
- Store.RecordStore.CreateWheelSpecification: a null optional field is stored as absent; a database column default that the ORM could apply instead is not modelled.
- Store.RecordStore.CreateWheelSpecification: a failure of the duplicate lookup itself is not modelled; it would end like a rolled-back commit (500, nothing stored), whereas the model always answers a taken number with 400.
- The check-then-insert race between concurrent wheel creates is not modelled,
  because the model is sequential.
- Measurements are `real`, because they are only compared with 0; floating-point
  rounding is not modelled.
- `async`/`await`, dependency injection and response-model serialisation are not
  modelled.
