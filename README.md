# Sit&Watch / Bayer Shopper synchronisation — a Dafny model

The synchronisation script reads pharmacy inspections from Salesforce and
reconciles them with the Sit&Watch PostgreSQL database (SWDB). This project
models its two core pieces and proves properties about them:

- **The Salesforce side** (`classes/get_inspections.py`, module
  `Inspections`):
  - the query window around the tour date;
  - `flattenRecord`, which merges the nested `Shopper_Contract__r` dictionary
    into the inspection record and drops the `attributes` entries;
  - `splitAccountInformation`, the positional parser of the
    `Account_Information__c` address blob (`str.split('<br>')`, then
    `str.partition(' ')`);
  - the loop of `getInspections` that flattens every record of the query
    result in place.
- **The database side** (`classes/swdb.py`, module `Store`):
  - the tables `outlet` and `apo_masterdata`, linked by a shared id;
  - the `bundeslaender` lookup and the id sequence of `outlet`;
  - the six statements of class `SWDB`: `entryExists`, `getActivePharmacies`,
    `setOutletStatus`, `setAllOutletsInactive`, `insertOutlet` and
    `insertApoMasterdata`.

  Each statement is specified by a function from the tables before it to the
  tables after it and what it returns or raises. Class `SWDB` holds the tables
  in fields. Its methods are proved to change them exactly as those functions
  say. The properties are lemmas about the functions.

Shared modules:
- `Records`: record values (`Null`, `Bool`, `Int`, `Str`, nested `Dict`),
  records as `map<string, Value>`, and the exceptions the code raises, as a
  `Fault` datatype.
- `Ordering`: the order of `ORDER BY o.ort, o.name`, with NULL after every
  text value.

Modelling choices that follow the code:

- `setAllOutletsInactive` logs and swallows a statement the server rejects,
  although its doc comment says `@throws`. That error path changes nothing and
  returns normally.
- `entryExists` ends the process on any exception from its SELECT
  (`sys.exit`), a parameter that cannot be bound included. Here that is a
  `Failure` result.
- `insertOutlet` looks up the region code with a scalar subquery. When no
  region matches, the subquery yields NULL and the row is inserted with a NULL
  `bundesland`.
- `insertOutlet` draws its id from the `outlet` sequence. A sequence value
  that is already an outlet id violates the primary key; the statement fails,
  and the sequence value stays consumed.
- The connection runs in autocommit mode and no statement is part of a
  transaction. Each statement takes effect or fails on its own.
- Query parameters are bound by name, as psycopg2 does:
  - a placeholder whose key is missing from the record raises `KeyError`;
  - a nested dictionary cannot be adapted;
  - the first such placeholder in the statement decides the fault.
- SQL `=` with a NULL operand matches no row. So `entryExists(None)` is false
  and `setOutletStatus(None, …)` changes nothing.
- A scalar subquery (`WHERE id = (SELECT id …)`) that returns more than one
  row is an error, which setOutletStatus re-raises.
- The connection is in one of three states (`Conn`):
  - `Open`: statements run.
  - `Failing`: the server rejects every statement. `execute` raises
    `DatabaseError`, which each method handles in its `except` clause.
  - `Closed`: `cursor()` itself raises `InterfaceError`.
    - In `entryExists`, `getActivePharmacies`, `setOutletStatus` and
      `setAllOutletsInactive` the cursor is created inside the `try`. So `cur`
      is never bound, and the `finally: cur.close()` raises
      `UnboundLocalError`, which replaces whatever the `except` clause did.
    - The two inserts create the cursor before the `try`, so they raise
      `InterfaceError`. `insertApoMasterdata` has already added `id` to the
      caller's record by then.
- The query window uses timestamps in seconds. `QueryWindow` gives both of its
  bounds, and the WHERE clause excludes both.

## Model

| member | source | states |
|---|---|---|
| Inspections.QueryWindow | classes/get_inspections.py:31-33 | the window runs from one day before the tour date to one day after: two days wide, centred on the tour date, which lies strictly inside it |
| Inspections.WindowSelection | classes/get_inspections.py:49 | an inspection is selected iff it is open and was created strictly less than one day before or after the tour date |
| Inspections.WindowBoundsExcluded | classes/get_inspections.py:49 | both bounds are exclusive: creation exactly one day before or after the tour date is not selected; creation at the tour date is |
| Inspections.Partition | classes/get_inspections.py:95-96 | `s.partition(c)` without the separator: when `c` occurs, head + c + tail is `s` and head has no `c`; otherwise head is `s` and tail is empty |
| Inspections.PartitionUnique | classes/get_inspections.py:95-99 | any pair that splits `s` at the first `c` as above is the one Partition returns |
| Inspections.Split | classes/get_inspections.py:85 | `s.split(sep)` always yields at least one piece |
| Inspections.JoinSplit | classes/get_inspections.py:85 | joining the pieces with `<br>` gives back the blob: splitting loses no text |
| Inspections.SplitFirstIsPrefix | classes/get_inspections.py:85 | the first piece is a prefix of the blob |
| Inspections.SplitPiecesFreeOfSeparator | classes/get_inspections.py:85 | no piece contains the separator: the blob is cut at every occurrence |
| Inspections.ParseAddress | classes/get_inspections.py:91-99 | pharmacy, SAP id, street and extra are segments 1, 2, 3 and 6; postcode/city and region/country are segments 4 and 5 split at their first space; email and phone are the text after the first space of segments 7 and 8, empty when there is none |
| Inspections.ExtraSegmentsIgnored | classes/get_inspections.py:90-99 | segments beyond the eighth do not change the parsed fields |
| Inspections.AddressRecord | classes/get_inspections.py:91-99 | the dictionary built from the parsed fields has exactly the ten address keys |
| Inspections.Replace | classes/get_inspections.py:100-101 | `update` then `del`: the keys are the record's without the deleted one plus the added ones; added values win, the others keep their values |
| Inspections.WithAddress | classes/get_inspections.py:100-101 | the record loses `Account_Information__c`, gains exactly the ten address keys with the parsed values, and keeps every other key's value |
| Inspections.SplitAccountInformation | classes/get_inspections.py:83-101 | a missing `Account_Information__c` raises KeyError; a value that is not text or splits into at most seven segments leaves the record exactly as it was; otherwise the blob is replaced by the ten parsed address fields and every other key keeps its value |
| Inspections.MergeContract | classes/get_inspections.py:64-67 | succeeds iff both `attributes` entries and a dictionary-valued `Shopper_Contract__r` exist; on success the record has no `attributes`; it has every key of the contract other than its `attributes`, with the contract's value (overriding the parent), so a `Shopper_Contract__r` key inside the contract is put back by `update`; it keeps every other parent key; each failing statement raises its own fault and leaves the deletions before it in place |
| Inspections.FlattenRecord | classes/get_inspections.py:62-69 | succeeds iff the merge succeeds and leaves `Account_Information__c`; then the result is the merged record with the address blob parsed and no `attributes`; a failure leaves the merged record; it propagates the merge's fault, or raises KeyError for `Account_Information__c` when the merge succeeded without it |
| Inspections.FlattenAt | classes/get_inspections.py:55-56 | one iteration: the record at the index is replaced by what flattenRecord leaves and the exception it raised is returned; every other record is untouched |
| Inspections.FlattenAll | classes/get_inspections.py:55-56 | every record before the first failure is flattened in place; the failing record is left as its failed flatten left it; the later records are untouched |
| Ordering.StrLeTotal | classes/swdb.py:66 | any two texts are comparable |
| Ordering.StrLeTransitive | classes/swdb.py:66 | the text order is transitive |
| Ordering.StrLeAntisymmetric | classes/swdb.py:66 | texts that sort before each other are equal |
| Ordering.TextLeTotal | classes/swdb.py:66 | any two column values are comparable when NULL sorts last |
| Ordering.LocationLeTotal | classes/swdb.py:66 | any two rows are comparable under the order by city, then name |
| Store.Bind | classes/swdb.py:163 | binding succeeds iff every placeholder's key is present and not a nested dictionary; it then yields the record's values in placeholder order; otherwise it raises the fault of the first placeholder that cannot be bound |
| Store.BindOutletParams | classes/swdb.py:157-163 | insertOutlet's parameters bind iff the record holds bindable `pharmacy`, `strasse`, `plz`, `ort`, `country`, `email` and `phone` |
| Store.BindMasterdataParams | classes/swdb.py:176-197 | insertApoMasterdata's parameters bind iff the record holds the twelve contract fields the INSERT names; the `id` it adds always binds |
| Store.HasEntry | classes/swdb.py:37-48 | entryExists is true iff a masterdata row carries the Salesforce id (never for NULL); a closed connection raises UnboundLocalError; a nested dictionary cannot be bound; a rejected statement fails |
| Store.SWDB.EntryExists | classes/swdb.py:27-48 | the method returns what HasEntry states and changes no table |
| Store.StatusSet | classes/swdb.py:110-120 | a closed connection raises UnboundLocalError; otherwise it sets `aktiv` on exactly the outlets linked to the Salesforce id; every other outlet, the masterdata, the lookup and the sequence are unchanged; no linked row means no change; more than one linked row raises and changes nothing |
| Store.StatusSetIdempotent | classes/swdb.py:110-111 | setting the same status for the same id a second time changes nothing and returns the same result |
| Store.SWDB.SetOutletStatus | classes/swdb.py:99-120 | the method leaves the tables and returns the result as StatusSet states |
| Store.AllOutletsMarked | classes/swdb.py:133 | the UPDATE's effect: every outlet with a masterdata row or tagged `apotheke` becomes inactive, every other outlet and table is unchanged |
| Store.MarkStep | classes/swdb.py:133-142 | on an open connection the tables become AllOutletsMarked and the call returns normally; a rejected statement is swallowed and changes nothing; a closed connection raises UnboundLocalError from the `finally` clause |
| Store.MarkStepIntended | classes/swdb.py:135-142 | every error is swallowed: the call always returns normally, agrees with MarkStep whenever the connection is not closed, and changes nothing on a closed one |
| Store.MarkStepClosedRaises | classes/swdb.py:135-142 | on a closed connection the mark step as written raises, where the intended one returns normally |
| Store.MarkEmptiesActive | classes/swdb.py:133 | right after the mark step on an open connection getActivePharmacies has no row to report |
| Store.MarkIdempotent | classes/swdb.py:133 | running the mark step twice equals running it once |
| Store.MarkDeactivatesManaged | classes/swdb.py:133 | after the mark step no managed outlet is active, and an outlet changed only when it was managed and active |
| Store.SWDB.SetAllOutletsInactive | classes/swdb.py:123-142 | the method leaves the tables and returns the result as MarkStep states |
| Store.MarkThenActivate | bayershopper_synchronize.py:7-12 | documented intent, not code: on an open connection, after the mark step (with its errors swallowed) and then setOutletStatus with true for one Salesforce id, an outlet is active iff it is linked to that id, or it is unmanaged and was active |
| Store.OutletInserted | classes/swdb.py:157-171 | insertOutlet succeeds iff the connection is open, the record binds and the next sequence value is not an outlet id yet; it then returns that value and adds the row built from the record under it; a closed connection raises InterfaceError before binding; an unbindable record or a rejected statement raises and changes nothing; a sequence value already in use raises a key violation and only advances the sequence |
| Store.SequenceStaysAhead | classes/swdb.py:157-159 | while the sequence is ahead of every outlet id, each statement keeps it ahead, and insertOutlet on an open connection with a bindable record never collides |
| Store.OutletInsertAddsOneRow | classes/swdb.py:157-159 | a successful insert adds exactly one outlet under an id no row had; it is active and tagged `apotheke`, takes name, street, postcode, city, email and phone from the record and the region code looked up by `country` (NULL when absent); every other row and table is unchanged |
| Store.SWDB.InsertOutlet | classes/swdb.py:145-171 | the method leaves the tables and returns the result as OutletInserted states |
| Store.MasterdataInserted | classes/swdb.py:174-205 | the caller's record gains `id` whatever happens next; a closed connection then raises InterfaceError; the insert succeeds iff the connection is open, the record binds and the id is new; it then returns the id it was given; every failure changes no table |
| Store.MasterdataInsertAddsOneRow | classes/swdb.py:187-193 | a successful insert adds exactly one masterdata row under the given id, carrying the record's Salesforce id, SAP id and contract fields; the outlets and every other row are unchanged |
| Store.SWDB.InsertApoMasterdata | classes/swdb.py:174-205 | the method returns the updated record and leaves the tables and result as MasterdataInserted states |
| Store.CreateEntryLinks | classes/swdb.py:145-205 | insertOutlet followed by insertApoMasterdata with the returned id leaves one linked pair under a fresh id: the outlet is active and tagged `apotheke`, the masterdata row carries the Salesforce id, entryExists now finds it, getActivePharmacies lists it, and every earlier row is unchanged |
| Store.ActiveIds | classes/swdb.py:61-65 | the ids reported are exactly those with a masterdata row joined to an active outlet |
| Store.InsertByLocation | classes/swdb.py:66 | inserting a row into a sorted list keeps it sorted and adds exactly that row |
| Store.SWDB.GetActivePharmacies | classes/swdb.py:51-77 | the result holds each active joined row exactly once, sorted by city and then name; a rejected statement yields the empty list; a closed connection raises UnboundLocalError |
| Store.SWDB.constructor | classes/swdb.py:20-24 | construction requires the application object to carry a PostgreSQL connection, and the object starts with whatever database state that connection has |

## Findings

| source | as written | input that shows it | evidently intended | confidence | as-written member | corrected member |
|---|---|---|---|---|---|---|
| classes/swdb.py:135-142 | `cur` is bound inside the `try`, and the `finally` clause closes it unconditionally | setAllOutletsInactive on a closed connection: `cursor()` raises, the `except` clause logs and swallows it, then `cur.close()` raises UnboundLocalError | one of two readings: every error is logged and swallowed, as the `except` clause sets out to do (the `@throws` doc comment would instead suggest re-raising the InterfaceError); the corrected member takes the first reading | not executed | Store.MarkStepClosedRaises | Store.MarkStepIntended |

The same pattern makes entryExists, getActivePharmacies and setOutletStatus
raise UnboundLocalError on a closed connection. The model of those methods
keeps the behaviour as written. MarkThenActivate uses the intended mark step.

## Left out

- Network, console and process glue:
  - the Salesforce query itself and `getMetadata`/`getDescription` (network calls); the loop takes the query result as an input array;
  - SOQL timestamp formatting with `strftime` and parsing the tour date with `strptime`; the window works on timestamps in seconds, and time zones are not modelled;
  - `printRecord` and the `print` and logging calls (console output).
- `getActivePharmaciesCursor`, which returns a live database cursor.
- The joins in getActivePharmacies:
  - the `outlet_gebietsleiter`/`stammdaten` join that adds the city manager column is not modelled, nor are the duplicate rows it can produce;
  - a row holds the modelled outlet and masterdata columns, not the selected column list.
- `outlet.create_time`: the creation timestamp the server sets on insert, which getActivePharmacies selects, is not modelled; the result rows lack it.
- The server's collation: text is ordered by character code, standing for whichever total order the server uses.
- Python and database value details:
  - the key order of OrderedDict, floating-point and list values;
  - SQL type errors for parameters of the wrong column type;
  - schema constraints (NOT NULL, foreign keys), except the primary keys of `outlet` and `apo_masterdata`, which are modelled as unique ids.
- The region lookup `bundeslaender` is a map from name to code, so it assumes region names are unique. With a duplicate name the scalar subquery of insertOutlet would raise; that case is not modelled.
- In-place mutation of the caller's dictionaries: `flattenRecord`, `splitAccountInformation` and `insertApoMasterdata` change the caller's dict. The model returns the new dict instead (the array loop does write it back in place), so aliasing between dictionaries is not captured.
- Transactions, commit and rollback: the connection runs in autocommit mode, so no statement is all-or-nothing with another.
- bayershopper_synchronize.py: configuration, option parsing, logging set-up, the Salesforce login, the PostgreSQL connection and the singleton `__new__` are library glue. The reconciliation loop its docstring describes is not part of the code; MarkThenActivate states its intent for one pharmacy.
- Store.SWDB.EntryExists: any exception from the SELECT (a rejected statement, or a parameter that cannot be bound) ends the process with `sys.exit`; the model returns the fault as a `Failure` instead, and the caller is not modelled as stopping.
- Store.SWDB.GetActivePharmacies: states the result up to the order of rows with equal city and name, which SQL leaves open.
- Store.OutletInserted: a statement the server rejects is modelled as not consuming a sequence value; PostgreSQL may consume one when the failure happens after `nextval`.
- Store.SWDB.constructor: an application object without a PostgreSQL connection makes `__init__` raise AttributeError; here that is a precondition.
