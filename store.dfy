/**
 * The Sit&Watch database side (classes/swdb.py): the `outlet` and
 * `apo_masterdata` tables linked by a shared id, the `bundeslaender` lookup
 * and the id sequence of `outlet`, with the six statements class SWDB runs
 * against them. Each statement is specified by a function of the tables
 * before it (the functions below); class SWDB holds the tables in fields and
 * its methods are proved to change them exactly as those functions say.
 */
module Store {
  import opened Records
  import Ordering

  // ---------------------------------------------------------------------------
  // Tables
  // ---------------------------------------------------------------------------

  /**
   * A row of `outlet`: the columns the modelled statements write or filter on.
   * The server-set `create_time`, which getActivePharmacies also selects, and
   * the columns no modelled statement touches are left out.
   */
  datatype Outlet = Outlet(
    name: Value, strasse: Value, plz: Value, ort: Value, bundesland: Option<string>,
    email: Value, telefon1: Value, outletart: Value, aktiv: bool)

  /** A row of `apo_masterdata`; its id is the key it is stored under. */
  datatype Masterdata = Masterdata(
    sapId: Value, salesforceId: Value, name: Value, status: Value, shelfDetails: Value,
    contact: Value, isDeleted: Value, active: Value, height: Value, width: Value,
    termination: Value, terminationReason: Value)

  /** The state of the PostgreSQL connection the statements run on. */
  datatype Conn =
    | Open      // statements run
    | Failing   // the connection is open, but the server rejects every statement sent to it
    | Closed    // the connection is closed, so `cursor()` raises InterfaceError

  /**
   * The database as the statements see it: both tables keyed by id, the
   * region lookup (name to code), the next value of the outlet id sequence,
   * and the connection.
   */
  datatype Tables = Tables(
    outlet: map<int, Outlet>,
    apoMasterdata: map<int, Masterdata>,
    bundeslaender: map<string, string>,
    nextId: int,
    conn: Conn)

  /** The id sequence is ahead of every outlet id. */
  ghost predicate ValidTables(t: Tables)
  {
    forall k | k in t.outlet :: k < t.nextId
  }

  /** The category tag insertOutlet writes and setAllOutletsInactive looks for. */
  const Pharmacy: Value := Str("apotheke")

  // ---------------------------------------------------------------------------
  // Binding named parameters (psycopg2's `%(name)s` placeholders)
  // ---------------------------------------------------------------------------

  /** The placeholders of insertOutlet's INSERT, in the order they occur. */
  const OutletParams: seq<string> := ["pharmacy", "strasse", "plz", "ort", "country", "email", "phone"]

  /** The placeholders of insertApoMasterdata's INSERT, in the order they occur. */
  const MasterdataParams: seq<string> := [
    "id", "sap_id", "Shopper_Contract__c", "Name", "Status__c", "Shelf_Details__c", "Contact__c",
    "IsDeleted", "Active__c", "Shelf_Length__c", "Shelf_Width__c", "Shopper_Termination__c",
    "Shopper_Termination_Reason__c"]

  /** A record key can be bound: it is present and its value is not a nested dictionary. */
  predicate Bindable(record: Record, key: string)
  {
    key in record && !record[key].Dict?
  }

  /** The exception binding an unbindable key raises. */
  function BindFault(record: Record, key: string): Fault
  {
    if key in record then CannotAdapt(key) else KeyError(key)
  }

  /**
   * The parameter values for the placeholders `keys`, taken from the record;
   * the first placeholder that cannot be bound raises.
   */
  function Bind(record: Record, keys: seq<string>): (r: Result<seq<Value>>)
    ensures r.Success? <==> forall i | 0 <= i < |keys| :: Bindable(record, keys[i])
    ensures r.Success? ==> |r.value| == |keys| && forall i | 0 <= i < |keys| :: r.value[i] == record[keys[i]]
    ensures r.Success? ==> forall k | k in keys :: Bindable(record, k)
    ensures r.Failure? ==> exists i | 0 <= i < |keys| ::
      && !Bindable(record, keys[i])
      && (forall j | 0 <= j < i :: Bindable(record, keys[j]))
      && r.fault == BindFault(record, keys[i])
  {
    if keys == [] then Success([])
    else if !Bindable(record, keys[0]) then Failure(BindFault(record, keys[0]))
    else match Bind(record, keys[1..])
      case Success(rest) => Success([record[keys[0]]] + rest)
      case Failure(fault) =>
        assert exists i | 0 <= i < |keys| - 1 ::
          && !Bindable(record, keys[1..][i])
          && (forall j | 0 <= j < i :: Bindable(record, keys[1..][j]))
          && fault == BindFault(record, keys[1..][i]);
        Failure(fault)
  }

  /** Every placeholder of insertOutlet's INSERT can be bound from the record. */
  predicate OutletBindable(record: Record)
  {
    && Bindable(record, "pharmacy") && Bindable(record, "strasse") && Bindable(record, "plz")
    && Bindable(record, "ort") && Bindable(record, "country") && Bindable(record, "email")
    && Bindable(record, "phone")
  }

  lemma BindOutletParams(record: Record)
    ensures Bind(record, OutletParams).Success? <==> OutletBindable(record)
  {
    var keys := OutletParams;
    assert keys[0] == "pharmacy" && keys[1] == "strasse" && keys[2] == "plz" && keys[3] == "ort";
    assert keys[4] == "country" && keys[5] == "email" && keys[6] == "phone";
  }

  /** Every placeholder of insertApoMasterdata's INSERT but `id` (which it adds itself) can be bound. */
  predicate MasterdataBindable(record: Record)
  {
    && Bindable(record, "sap_id") && Bindable(record, "Shopper_Contract__c") && Bindable(record, "Name")
    && Bindable(record, "Status__c") && Bindable(record, "Shelf_Details__c") && Bindable(record, "Contact__c")
    && Bindable(record, "IsDeleted") && Bindable(record, "Active__c") && Bindable(record, "Shelf_Length__c")
    && Bindable(record, "Shelf_Width__c") && Bindable(record, "Shopper_Termination__c")
    && Bindable(record, "Shopper_Termination_Reason__c")
  }

  lemma BindMasterdataParams(record: Record, id: int)
    ensures Bind(record["id" := Int(id)], MasterdataParams).Success? <==> MasterdataBindable(record)
  {
    MasterdataParamsAfterId(record);
    BindWithId(record, id);
  }

  /** The placeholders after `id` are exactly the keys MasterdataBindable checks. */
  lemma MasterdataParamsAfterId(record: Record)
    ensures MasterdataBindable(record) <==>
      forall i | 1 <= i < |MasterdataParams| :: Bindable(record, MasterdataParams[i])
  {
    var keys := MasterdataParams;
    assert keys[1] == "sap_id" && keys[2] == "Shopper_Contract__c" && keys[3] == "Name";
    assert keys[4] == "Status__c" && keys[5] == "Shelf_Details__c" && keys[6] == "Contact__c";
    assert keys[7] == "IsDeleted" && keys[8] == "Active__c" && keys[9] == "Shelf_Length__c";
    assert keys[10] == "Shelf_Width__c" && keys[11] == "Shopper_Termination__c";
    assert keys[12] == "Shopper_Termination_Reason__c";
  }

  /** The `id` insertApoMasterdata adds always binds; the other placeholders bind as in the caller's record. */
  lemma BindWithId(record: Record, id: int)
    ensures Bind(record["id" := Int(id)], MasterdataParams).Success? <==>
      forall i | 1 <= i < |MasterdataParams| :: Bindable(record, MasterdataParams[i])
  {
    var keys := MasterdataParams;
    assert keys[0] == "id";
    assert forall i | 1 <= i < |keys| :: keys[i] != "id";
  }

  // ---------------------------------------------------------------------------
  // The statements, as functions of the tables
  //
  // The four read and update statements create their cursor inside `try` and
  // close it in `finally`. On a closed connection `cursor()` raises, the cursor
  // variable stays unbound, and `finally` raises UnboundLocalError in place of
  // whatever the `except` clause did. The two inserts create their cursor
  // before `try`, so there InterfaceError itself propagates.
  // ---------------------------------------------------------------------------

  /** The ids of the masterdata rows `WHERE byr_salesforce_id = sfid` selects (NULL equals nothing). */
  function Matching(t: Tables, sfid: Value): (ids: set<int>)
    ensures forall k :: k in ids <==> k in t.apoMasterdata && sfid != Null && t.apoMasterdata[k].salesforceId == sfid
  {
    set k | k in t.apoMasterdata && sfid != Null && t.apoMasterdata[k].salesforceId == sfid
  }

  /**
   * entryExists: does a masterdata row carry this Salesforce id? An exception
   * from the SELECT ends the process (here, the failure it ends with).
   */
  function HasEntry(t: Tables, sfid: Value): (r: Result<bool>)
    ensures t.conn.Closed? ==> r == Failure(UnboundLocalError)
    ensures !t.conn.Closed? && sfid.Dict? ==> r == Failure(CannotAdapt("salesforce_id"))
    ensures !sfid.Dict? && t.conn.Failing? ==> r == Failure(DatabaseError)
    ensures r.Success? <==> !sfid.Dict? && t.conn.Open?
    ensures r.Success? ==> (r.value <==> Matching(t, sfid) != {})
  {
    if t.conn.Closed? then Failure(UnboundLocalError)
    else if sfid.Dict? then Failure(CannotAdapt("salesforce_id"))
    else if t.conn.Failing? then Failure(DatabaseError)
    else Success(|Matching(t, sfid)| > 0)
  }

  /** What a statement leaves the tables as, and what it returns or raises. */
  datatype Update<T> = Update(after: Tables, result: Result<T>)

  /**
   * setOutletStatus: `UPDATE outlet SET aktiv = active WHERE id = (SELECT id
   * FROM apo_masterdata WHERE byr_salesforce_id = sfid)`; errors are re-raised.
   */
  function StatusSet(t: Tables, sfid: Value, active: bool): (u: Update<()>)
    ensures u.result.Success? <==> !sfid.Dict? && t.conn.Open? && |Matching(t, sfid)| <= 1
    ensures u.result.Failure? ==> u.after == t
    ensures t.conn.Closed? ==> u.result == Failure(UnboundLocalError)
    ensures !t.conn.Closed? && sfid.Dict? ==> u.result == Failure(CannotAdapt("id"))
    ensures !sfid.Dict? && t.conn.Failing? ==> u.result == Failure(DatabaseError)
    ensures !sfid.Dict? && t.conn.Open? && |Matching(t, sfid)| > 1 ==> u.result == Failure(SubqueryMultipleRows)
    ensures Matching(t, sfid) == {} ==> u.after == t
    ensures u.after.apoMasterdata == t.apoMasterdata && u.after.bundeslaender == t.bundeslaender
    ensures u.after.nextId == t.nextId && u.after.conn == t.conn
    ensures u.after.outlet.Keys == t.outlet.Keys
    ensures forall k | k in t.outlet && k !in Matching(t, sfid) :: u.after.outlet[k] == t.outlet[k]
    ensures u.result.Success? ==>
      forall k | k in t.outlet && k in Matching(t, sfid) :: u.after.outlet[k] == t.outlet[k].(aktiv := active)
  {
    if t.conn.Closed? then Update(t, Failure(UnboundLocalError))
    else if sfid.Dict? then Update(t, Failure(CannotAdapt("id")))
    else if t.conn.Failing? then Update(t, Failure(DatabaseError))
    else
      var ids := Matching(t, sfid);
      if |ids| > 1 then Update(t, Failure(SubqueryMultipleRows))
      else
        var outlet := map k | k in t.outlet :: if k in ids then t.outlet[k].(aktiv := active) else t.outlet[k];
        assert ids == {} ==> outlet == t.outlet;
        Update(t.(outlet := outlet), Success(()))
  }

  /** The outlets the mark step is about: those with a masterdata row, and those tagged as pharmacies. */
  predicate Managed(t: Tables, k: int)
    requires k in t.outlet
  {
    k in t.apoMasterdata || t.outlet[k].outletart == Pharmacy
  }

  /** The effect of setAllOutletsInactive's UPDATE: every managed outlet becomes inactive, every other row stays. */
  function AllOutletsMarked(t: Tables): (m: Tables)
    ensures m.apoMasterdata == t.apoMasterdata && m.bundeslaender == t.bundeslaender
    ensures m.nextId == t.nextId && m.conn == t.conn
    ensures m.outlet.Keys == t.outlet.Keys
    ensures forall k | k in t.outlet && Managed(t, k) :: m.outlet[k] == t.outlet[k].(aktiv := false)
    ensures forall k | k in t.outlet && !Managed(t, k) :: m.outlet[k] == t.outlet[k]
  {
    t.(outlet := map k | k in t.outlet :: if Managed(t, k) then t.outlet[k].(aktiv := false) else t.outlet[k])
  }

  /**
   * setAllOutletsInactive as written: a statement the server rejects is
   * logged and swallowed, so nothing changes and the call returns normally;
   * on a closed connection the `finally` clause raises UnboundLocalError.
   */
  function MarkStep(t: Tables): (u: Update<()>)
    ensures t.conn.Closed? ==> u == Update(t, Failure(UnboundLocalError))
    ensures t.conn.Failing? ==> u == Update(t, Success(()))
    ensures t.conn.Open? ==> u == Update(AllOutletsMarked(t), Success(()))
  {
    match t.conn
    case Closed => Update(t, Failure(UnboundLocalError))
    case Failing => Update(t, Success(()))
    case Open => Update(AllOutletsMarked(t), Success(()))
  }

  /**
   * setAllOutletsInactive as its error handling evidently intends: every
   * error, a closed connection included, is logged and swallowed.
   */
  function MarkStepIntended(t: Tables): (u: Update<()>)
    ensures u.result == Success(())
    ensures !t.conn.Closed? ==> u == MarkStep(t)
    ensures t.conn.Closed? ==> u.after == t
  {
    if t.conn.Open? then Update(AllOutletsMarked(t), Success(())) else Update(t, Success(()))
  }

  /** The code of the region named `country`, or NULL when the lookup finds no row. */
  function BundeslandCode(t: Tables, country: Value): Option<string>
  {
    if country.Str? && country.s in t.bundeslaender then Some(t.bundeslaender[country.s]) else None
  }

  /** The row the VALUES clause of insertOutlet builds: the record's fields, the region code, tag and flag. */
  function NewOutlet(t: Tables, record: Record): Outlet
    requires OutletBindable(record)
  {
    Outlet(record["pharmacy"], record["strasse"], record["plz"], record["ort"],
           BundeslandCode(t, record["country"]), record["email"], record["phone"], Pharmacy, true)
  }

  /**
   * insertOutlet: one new outlet under the next id of the sequence. A closed
   * connection raises InterfaceError before anything else; an unbindable record
   * or a rejected statement raises and changes nothing; a sequence value that
   * is already an outlet id violates the key, and the sequence still advances.
   */
  function OutletInserted(t: Tables, record: Record): (u: Update<int>)
    ensures u.result.Success? <==> t.conn.Open? && OutletBindable(record) && t.nextId !in t.outlet
    ensures t.conn.Closed? ==> u == Update(t, Failure(InterfaceError))
    ensures !t.conn.Closed? && !OutletBindable(record) ==>
      u.after == t && u.result.Failure? && Bind(record, OutletParams) == Failure(u.result.fault)
    ensures OutletBindable(record) && t.conn.Failing? ==> u == Update(t, Failure(DatabaseError))
    ensures OutletBindable(record) && t.conn.Open? && t.nextId in t.outlet ==>
      u == Update(t.(nextId := t.nextId + 1), Failure(UniqueViolation(t.nextId)))
    ensures u.result.Success? ==>
      && u.result.value == t.nextId
      && u.after == t.(outlet := t.outlet[t.nextId := NewOutlet(t, record)], nextId := t.nextId + 1)
  {
    BindOutletParams(record);
    if t.conn.Closed? then Update(t, Failure(InterfaceError))
    else if !OutletBindable(record) then Update(t, Failure(Bind(record, OutletParams).fault))
    else if t.conn.Failing? then Update(t, Failure(DatabaseError))
    else if t.nextId in t.outlet then Update(t.(nextId := t.nextId + 1), Failure(UniqueViolation(t.nextId)))
    else Update(t.(outlet := t.outlet[t.nextId := NewOutlet(t, record)], nextId := t.nextId + 1), Success(t.nextId))
  }

  /**
   * A successful insertOutlet adds exactly one outlet, under an id no row had,
   * tagged as a pharmacy and active, with name, address and contact taken from
   * the record and the region code looked up by `country`; nothing else changes.
   */
  lemma OutletInsertAddsOneRow(t: Tables, record: Record)
    ensures var u := OutletInserted(t, record);
      u.result.Success? ==>
        var id := u.result.value;
        && id !in t.outlet
        && u.after.outlet.Keys == t.outlet.Keys + {id}
        && (forall k | k in t.outlet :: u.after.outlet[k] == t.outlet[k])
        && u.after.apoMasterdata == t.apoMasterdata && u.after.bundeslaender == t.bundeslaender
        && u.after.conn == t.conn
        && var o := u.after.outlet[id];
        && o.name == record["pharmacy"] && o.strasse == record["strasse"]
        && o.plz == record["plz"] && o.ort == record["ort"]
        && o.email == record["email"] && o.telefon1 == record["phone"]
        && o.bundesland == BundeslandCode(t, record["country"])
        && o.outletart == Pharmacy && o.aktiv
  {
  }

  /** What insertApoMasterdata leaves: the tables, the caller's record (which gains `id`), the result. */
  datatype MasterdataInsert = MasterdataInsert(after: Tables, record: Record, result: Result<int>)

  /** The row the VALUES clause of insertApoMasterdata builds from the record. */
  function NewMasterdata(record: Record): Masterdata
    requires MasterdataBindable(record)
  {
    Masterdata(record["sap_id"], record["Shopper_Contract__c"], record["Name"], record["Status__c"],
               record["Shelf_Details__c"], record["Contact__c"], record["IsDeleted"], record["Active__c"],
               record["Shelf_Length__c"], record["Shelf_Width__c"], record["Shopper_Termination__c"],
               record["Shopper_Termination_Reason__c"])
  }

  /**
   * insertApoMasterdata: the record gains `id` first, whatever happens next;
   * then one masterdata row is inserted under that id and the id is returned.
   * A closed connection, an unbindable record, a rejected statement or an id
   * already present raises and leaves the tables unchanged.
   */
  function MasterdataInserted(t: Tables, record: Record, id: int): (m: MasterdataInsert)
    ensures m.record.Keys == record.Keys + {"id"} && m.record["id"] == Int(id)
    ensures forall k | k in record && k != "id" :: m.record[k] == record[k]
    ensures m.result.Success? <==> t.conn.Open? && MasterdataBindable(record) && id !in t.apoMasterdata
    ensures m.result.Failure? ==> m.after == t
    ensures t.conn.Closed? ==> m.result == Failure(InterfaceError)
    ensures !t.conn.Closed? && !MasterdataBindable(record) ==>
      m.result.Failure? && Bind(m.record, MasterdataParams) == Failure(m.result.fault)
    ensures MasterdataBindable(record) && t.conn.Failing? ==> m.result == Failure(DatabaseError)
    ensures MasterdataBindable(record) && t.conn.Open? && id in t.apoMasterdata ==>
      m.result == Failure(UniqueViolation(id))
    ensures m.result.Success? ==>
      && m.result.value == id
      && m.after == t.(apoMasterdata := t.apoMasterdata[id := NewMasterdata(record)])
  {
    var withId := record["id" := Int(id)];
    if t.conn.Closed? then MasterdataInsert(t, withId, Failure(InterfaceError))
    else if !MasterdataBindable(record) then
      BindMasterdataParams(record, id);
      MasterdataInsert(t, withId, Failure(Bind(withId, MasterdataParams).fault))
    else if t.conn.Failing? then MasterdataInsert(t, withId, Failure(DatabaseError))
    else if id in t.apoMasterdata then MasterdataInsert(t, withId, Failure(UniqueViolation(id)))
    else MasterdataInsert(t.(apoMasterdata := t.apoMasterdata[id := NewMasterdata(record)]), withId, Success(id))
  }

  /**
   * A successful insertApoMasterdata adds exactly one masterdata row, under the
   * given id, carrying the record's Salesforce id, SAP id and contract fields;
   * the outlets and every other row are unchanged.
   */
  lemma MasterdataInsertAddsOneRow(t: Tables, record: Record, id: int)
    ensures var m := MasterdataInserted(t, record, id);
      m.result.Success? ==>
        && m.result.value == id
        && id !in t.apoMasterdata
        && m.after.outlet == t.outlet && m.after.bundeslaender == t.bundeslaender
        && m.after.nextId == t.nextId && m.after.conn == t.conn
        && m.after.apoMasterdata.Keys == t.apoMasterdata.Keys + {id}
        && (forall k | k in t.apoMasterdata :: m.after.apoMasterdata[k] == t.apoMasterdata[k])
        && var row := m.after.apoMasterdata[id];
        && row.sapId == record["sap_id"] && row.salesforceId == record["Shopper_Contract__c"]
        && row.name == record["Name"] && row.status == record["Status__c"]
        && row.shelfDetails == record["Shelf_Details__c"] && row.contact == record["Contact__c"]
        && row.isDeleted == record["IsDeleted"] && row.active == record["Active__c"]
        && row.height == record["Shelf_Length__c"] && row.width == record["Shelf_Width__c"]
        && row.termination == record["Shopper_Termination__c"]
        && row.terminationReason == record["Shopper_Termination_Reason__c"]
  {
  }

  /** The ids getActivePharmacies reports: a masterdata row joined to an active outlet. */
  function ActiveIds(t: Tables): (ids: set<int>)
    ensures forall k :: k in ids <==> k in t.apoMasterdata && k in t.outlet && t.outlet[k].aktiv
  {
    set k | k in t.apoMasterdata && k in t.outlet && t.outlet[k].aktiv
  }

  /** A row of the join `apo_masterdata am LEFT JOIN outlet o ON o.id = am.id`. */
  datatype Joined = Joined(id: int, outlet: Outlet, masterdata: Masterdata)

  function JoinRow(t: Tables, k: int): Joined
    requires k in t.apoMasterdata && k in t.outlet
  {
    Joined(k, t.outlet[k], t.apoMasterdata[k])
  }

  // ---------------------------------------------------------------------------
  // ORDER BY o.ort, o.name
  // ---------------------------------------------------------------------------

  predicate RowLe(a: Joined, b: Joined)
  {
    Ordering.LocationLe(a.outlet.ort, a.outlet.name, b.outlet.ort, b.outlet.name)
  }

  predicate SortedByLocation(s: seq<Joined>)
  {
    forall i | 0 < i < |s| :: RowLe(s[i - 1], s[i])
  }

  /** Insert a row before the first row it sorts before; a sorted sequence stays sorted and gains exactly that row. */
  function InsertByLocation(x: Joined, s: seq<Joined>): (r: seq<Joined>)
    ensures multiset(r) == multiset(s) + multiset{x}
    ensures |r| == |s| + 1
    ensures r[0] == x || (|s| > 0 && r[0] == s[0])
    ensures SortedByLocation(s) ==> SortedByLocation(r)
  {
    if s == [] then [x]
    else if RowLe(x, s[0]) then [x] + s
    else
      var rest := InsertByLocation(x, s[1..]);
      Ordering.LocationLeTotal(x.outlet.ort, x.outlet.name, s[0].outlet.ort, s[0].outlet.name);
      assert s == [s[0]] + s[1..];
      [s[0]] + rest
  }

  /** A nonempty set has an element (the pick in getActivePharmacies' loop). */
  lemma HasElement(s: set<int>)
    requires s != {}
    ensures exists x :: x in s
  {
    assert (forall x :: x !in s) ==> s == {};
  }

  // ---------------------------------------------------------------------------
  // Lemmas relating the statements
  // ---------------------------------------------------------------------------

  /** Running the mark step twice is the same as running it once. */
  lemma MarkIdempotent(t: Tables)
    ensures MarkStep(MarkStep(t).after) == MarkStep(t)
  {
    if t.conn.Open? {
      var m := AllOutletsMarked(t);
      var mm := AllOutletsMarked(m);
      forall k | k in t.outlet ensures mm.outlet[k] == m.outlet[k] {
        if Managed(t, k) {
          assert Managed(m, k);
        }
      }
    }
  }

  /** After the mark step no managed outlet is active, and only managed outlets changed. */
  lemma MarkDeactivatesManaged(t: Tables)
    requires t.conn.Open?
    ensures forall k | k in t.outlet :: Managed(t, k) ==> !MarkStep(t).after.outlet[k].aktiv
    ensures forall k | k in t.outlet ::
      MarkStep(t).after.outlet[k] != t.outlet[k] ==> Managed(t, k) && t.outlet[k].aktiv
  {
  }

  /** Right after the mark step getActivePharmacies has nothing to report. */
  lemma MarkEmptiesActive(t: Tables)
    requires t.conn.Open?
    ensures ActiveIds(MarkStep(t).after) == {}
  {
    var m := MarkStep(t).after;
    forall k | k in m.apoMasterdata && k in m.outlet ensures !m.outlet[k].aktiv {
      assert Managed(t, k);
    }
  }

  /** On a closed connection the mark step as written raises, where the intended one returns normally. */
  lemma MarkStepClosedRaises(t: Tables)
    requires t.conn.Closed?
    ensures MarkStep(t).result == Failure(UnboundLocalError)
    ensures MarkStepIntended(t).result == Success(())
  {
  }

  /** Setting the same status for the same Salesforce id again changes nothing more and returns the same. */
  lemma StatusSetIdempotent(t: Tables, sfid: Value, active: bool)
    ensures var u := StatusSet(t, sfid, active);
      StatusSet(u.after, sfid, active) == Update(u.after, u.result)
  {
    var u := StatusSet(t, sfid, active);
    assert Matching(u.after, sfid) == Matching(t, sfid);
  }

  /**
   * The reconciliation the synchronisation script sets out to do, for one
   * pharmacy still marked in Salesforce: the mark step, then setOutletStatus
   * with `true` for its Salesforce id. Afterwards an outlet is active iff it is
   * the one linked to that id, or it is not managed and was active before.
   */
  lemma MarkThenActivate(t: Tables, sfid: Value)
    requires t.conn.Open? && !sfid.Dict? && |Matching(t, sfid)| <= 1
    ensures var u := StatusSet(MarkStepIntended(t).after, sfid, true);
      && u.result == Success(())
      && u.after.outlet.Keys == t.outlet.Keys
      && forall k | k in t.outlet ::
           u.after.outlet[k].aktiv <==> k in Matching(t, sfid) || (!Managed(t, k) && t.outlet[k].aktiv)
  {
    var m := MarkStepIntended(t).after;
    assert Matching(m, sfid) == Matching(t, sfid);
  }

  /**
   * While outlet ids come only from the sequence, every statement keeps the
   * sequence ahead of them, and insertOutlet on an open connection with a
   * bindable record never collides.
   */
  lemma SequenceStaysAhead(t: Tables, record: Record, id: int, sfid: Value, active: bool)
    requires ValidTables(t)
    ensures ValidTables(OutletInserted(t, record).after)
    ensures ValidTables(MasterdataInserted(t, record, id).after)
    ensures ValidTables(StatusSet(t, sfid, active).after)
    ensures ValidTables(MarkStep(t).after)
    ensures t.conn.Open? && OutletBindable(record) ==> OutletInserted(t, record).result.Success?
  {
  }

  /** The create step: insertOutlet, then insertApoMasterdata with the id it returned. */
  function CreateEntry(t: Tables, record: Record): MasterdataInsert
  {
    var u := OutletInserted(t, record);
    if u.result.Failure? then MasterdataInsert(u.after, record, Failure(u.result.fault))
    else MasterdataInserted(u.after, record, u.result.value)
  }

  /**
   * When both inserts succeed they leave one linked pair: an active pharmacy
   * outlet and a masterdata row under the same new id, found by entryExists
   * and listed by getActivePharmacies; every row there before is unchanged.
   */
  lemma CreateEntryLinks(t: Tables, record: Record)
    requires CreateEntry(t, record).result.Success?
    ensures var c := CreateEntry(t, record); var k := c.result.value;
      && k == t.nextId && k !in t.outlet
      && c.after.outlet.Keys == t.outlet.Keys + {k}
      && c.after.apoMasterdata.Keys == t.apoMasterdata.Keys + {k}
      && (forall j | j in t.outlet :: c.after.outlet[j] == t.outlet[j])
      && (forall j | j in t.apoMasterdata :: c.after.apoMasterdata[j] == t.apoMasterdata[j])
      && c.after.outlet[k].aktiv && c.after.outlet[k].outletart == Pharmacy
      && c.after.apoMasterdata[k].salesforceId == record["Shopper_Contract__c"]
      && k in ActiveIds(c.after)
      && (record["Shopper_Contract__c"] != Null ==> HasEntry(c.after, record["Shopper_Contract__c"]) == Success(true))
  {
    var u := OutletInserted(t, record);
    OutletInsertAddsOneRow(t, record);
    var k := u.result.value;
    MasterdataInsertAddsOneRow(u.after, record, k);
    var c := MasterdataInserted(u.after, record, k);
    assert c == CreateEntry(t, record);
    assert c.after.outlet == u.after.outlet;
    assert k in Matching(c.after, record["Shopper_Contract__c"]) || record["Shopper_Contract__c"] == Null;
  }

  // ---------------------------------------------------------------------------
  // class SWDB
  // ---------------------------------------------------------------------------

  /** The database wrapper: the tables as fields, one method per statement. */
  class SWDB {
    var outlet: map<int, Outlet>
    var apoMasterdata: map<int, Masterdata>
    var bundeslaender: map<string, string>
    var nextId: int
    var conn: Conn

    function State(): Tables
      reads this
    {
      Tables(outlet, apoMasterdata, bundeslaender, nextId, conn)
    }

    /** The application object must carry a PostgreSQL connection (otherwise __init__ raises AttributeError). */
    constructor (postgresql: Option<Tables>)
      requires postgresql.Some?
      ensures State() == postgresql.value
    {
      var t := postgresql.value;
      outlet, apoMasterdata, bundeslaender, nextId, conn :=
        t.outlet, t.apoMasterdata, t.bundeslaender, t.nextId, t.conn;
    }

    /** entryExists: `rowcount > 0` of the SELECT; an exception ends the process (here, a failure). */
    method EntryExists(sfid: Value) returns (r: Result<bool>)
      ensures r == HasEntry(State(), sfid)
    {
      if conn.Closed? {
        return Failure(UnboundLocalError);
      }
      if sfid.Dict? {
        return Failure(CannotAdapt("salesforce_id"));
      }
      if conn.Failing? {
        return Failure(DatabaseError);
      }
      var rows := set k | k in apoMasterdata && sfid != Null && apoMasterdata[k].salesforceId == sfid;
      r := Success(|rows| > 0);
    }

    /**
     * getActivePharmacies: every masterdata row joined to an active outlet,
     * exactly once each, ordered by (ort, name). A statement the server
     * rejects is logged and yields []; a closed connection raises from the
     * `finally` clause.
     */
    method GetActivePharmacies() returns (r: Result<seq<Joined>>)
      ensures conn.Closed? ==> r == Failure(UnboundLocalError)
      ensures conn.Failing? ==> r == Success([])
      ensures conn.Open? ==>
        && r.Success?
        && SortedByLocation(r.value)
        && |r.value| == |ActiveIds(State())|
        && (forall x | x in r.value :: x.id in ActiveIds(State()) && x == JoinRow(State(), x.id))
        && (forall k | k in ActiveIds(State()) :: JoinRow(State(), k) in r.value)
    {
      if conn.Closed? {
        return Failure(UnboundLocalError);
      }
      if conn.Failing? {
        return Success([]);
      }
      var t := State();
      var all := ActiveIds(t);
      var remaining := all;
      var res := [];
      while remaining != {}
        invariant remaining <= all
        invariant SortedByLocation(res)
        invariant |res| + |remaining| == |all|
        invariant forall x | x in res :: x.id in all && x.id !in remaining && x == JoinRow(t, x.id)
        invariant forall k | k in all && k !in remaining :: JoinRow(t, k) in res
        decreases |remaining|
      {
        HasElement(remaining);
        var k :| k in remaining;
        var row := JoinRow(t, k);
        var next := InsertByLocation(row, res);
        assert forall x :: x in next <==> x == row || x in res by {
          forall x ensures x in next <==> x == row || x in res {
            assert x in next <==> x in multiset(next);
            assert x in res <==> x in multiset(res);
          }
        }
        res := next;
        remaining := remaining - {k};
      }
      r := Success(res);
    }

    /** setOutletStatus: set `aktiv` on the outlet linked to the Salesforce id; errors are re-raised. */
    method SetOutletStatus(sfid: Value, active: bool) returns (r: Result<()>)
      modifies this
      ensures State() == StatusSet(old(State()), sfid, active).after
      ensures r == StatusSet(old(State()), sfid, active).result
    {
      if conn.Closed? {
        return Failure(UnboundLocalError);
      }
      if sfid.Dict? {
        return Failure(CannotAdapt("id"));
      }
      if conn.Failing? {
        return Failure(DatabaseError);
      }
      var ids := set k | k in apoMasterdata && sfid != Null && apoMasterdata[k].salesforceId == sfid;
      if |ids| > 1 {
        return Failure(SubqueryMultipleRows);
      }
      outlet := map k | k in outlet :: if k in ids then outlet[k].(aktiv := active) else outlet[k];
      r := Success(());
    }

    /** setAllOutletsInactive: the mark step; a rejected statement is logged and swallowed. */
    method SetAllOutletsInactive() returns (r: Result<()>)
      modifies this
      ensures State() == MarkStep(old(State())).after
      ensures r == MarkStep(old(State())).result
    {
      if conn.Closed? {
        return Failure(UnboundLocalError);
      }
      if conn.Open? {
        outlet := map k | k in outlet ::
          if k in apoMasterdata || outlet[k].outletart == Pharmacy then outlet[k].(aktiv := false) else outlet[k];
      }
      r := Success(());
    }

    /** insertOutlet: insert under the next sequence value and return it; errors are re-raised. */
    method InsertOutlet(record: Record) returns (r: Result<int>)
      modifies this
      ensures State() == OutletInserted(old(State()), record).after
      ensures r == OutletInserted(old(State()), record).result
    {
      if conn.Closed? {
        return Failure(InterfaceError);
      }
      BindOutletParams(record);
      var params := Bind(record, OutletParams);
      if params.Failure? {
        return Failure(params.fault);
      }
      if conn.Failing? {
        return Failure(DatabaseError);
      }
      var id := nextId;
      nextId := nextId + 1;
      if id in outlet {
        return Failure(UniqueViolation(id));
      }
      var country := record["country"];
      var code := if country.Str? && country.s in bundeslaender then Some(bundeslaender[country.s]) else None;
      var row := Outlet(record["pharmacy"], record["strasse"], record["plz"], record["ort"], code,
                        record["email"], record["phone"], Pharmacy, true);
      outlet := outlet[id := row];
      r := Success(id);
    }

    /**
     * insertApoMasterdata: adds `id` to the caller's record (returned as
     * `updated`), inserts the masterdata row under that id and returns it;
     * errors are re-raised.
     */
    method InsertApoMasterdata(record: Record, id: int) returns (updated: Record, r: Result<int>)
      modifies this
      ensures State() == MasterdataInserted(old(State()), record, id).after
      ensures updated == MasterdataInserted(old(State()), record, id).record
      ensures r == MasterdataInserted(old(State()), record, id).result
    {
      updated := record["id" := Int(id)];
      if conn.Closed? {
        return updated, Failure(InterfaceError);
      }
      BindMasterdataParams(record, id);
      var params := Bind(updated, MasterdataParams);
      if params.Failure? {
        return updated, Failure(params.fault);
      }
      if conn.Failing? {
        return updated, Failure(DatabaseError);
      }
      if id in apoMasterdata {
        return updated, Failure(UniqueViolation(id));
      }
      var row := Masterdata(record["sap_id"], record["Shopper_Contract__c"], record["Name"], record["Status__c"],
                            record["Shelf_Details__c"], record["Contact__c"], record["IsDeleted"], record["Active__c"],
                            record["Shelf_Length__c"], record["Shelf_Width__c"], record["Shopper_Termination__c"],
                            record["Shopper_Termination_Reason__c"]);
      apoMasterdata := apoMasterdata[id := row];
      r := Success(id);
    }
  }
}
