/**
 * The Salesforce side of the synchronisation (classes/get_inspections.py):
 * the query window around the tour date, the flattening of one inspection
 * record with its nested shopper contract, and the positional parse of the
 * contract's `Account_Information__c` address blob.
 */
module Inspections {
  import opened Records

  const Attributes: string := "attributes"
  const Contract: string := "Shopper_Contract__r"
  const AccountInformation: string := "Account_Information__c"
  /** The token the address blob is split on. */
  const Break: string := "<br>"

  // ---------------------------------------------------------------------------
  // The query window (classes/get_inspections.py lines 31-33 and the WHERE clause at line 49)
  // ---------------------------------------------------------------------------

  /** `datetime.timedelta(days=1)`, in seconds. */
  const OneDay: int := 86400

  /** The open interval of creation times the query asks for. */
  datatype Window = Window(from: int, to: int)

  /** The window for a tour date (a timestamp in seconds, midnight of the tour day). */
  function QueryWindow(tourDate: int): (w: Window)
    ensures w.from < tourDate < w.to
    ensures w.to - w.from == 2 * OneDay
    ensures tourDate - w.from == w.to - tourDate
  {
    Window(tourDate - OneDay, tourDate + OneDay)
  }

  /** The WHERE clause: `CreatedDate > from AND CreatedDate < to AND Status__c = 'Open'`. */
  predicate Selects(w: Window, createdDate: int, status: string)
  {
    w.from < createdDate < w.to && status == "Open"
  }

  /** An open inspection is selected iff it was created less than one day away from the tour date. */
  lemma WindowSelection(tourDate: int, createdDate: int, status: string)
    ensures Selects(QueryWindow(tourDate), createdDate, status)
        <==> -OneDay < createdDate - tourDate < OneDay && status == "Open"
  {
  }

  /** Both bounds are exclusive: exactly one day before or after the tour date is not selected. */
  lemma WindowBoundsExcluded(tourDate: int)
    ensures !Selects(QueryWindow(tourDate), tourDate - OneDay, "Open")
    ensures !Selects(QueryWindow(tourDate), tourDate + OneDay, "Open")
    ensures Selects(QueryWindow(tourDate), tourDate, "Open")
  {
  }

  // ---------------------------------------------------------------------------
  // str.partition(' ') and str.split('<br>')
  // ---------------------------------------------------------------------------

  /** `(head, c, tail)` is what Python's `s.partition(c)` returns: the split at the first `c`, or `(s, '', '')`. */
  ghost predicate PartitionedAt(s: string, c: char, head: string, tail: string)
  {
    if c in s then head + [c] + tail == s && c !in head
    else head == s && tail == []
  }

  /** Python's `s.partition(c)`, without the separator component. */
  function Partition(s: string, c: char): (r: (string, string))
    ensures PartitionedAt(s, c, r.0, r.1)
  {
    if |s| == 0 then ("", "")
    else if s[0] == c then ("", s[1..])
    else
      var (head, tail) := Partition(s[1..], c);
      assert s == [s[0]] + s[1..];
      ([s[0]] + head, tail)
  }

  /** The split at the first occurrence is unique, so Partition is the only function with its contract. */
  lemma PartitionUnique(s: string, c: char, head: string, tail: string)
    requires PartitionedAt(s, c, head, tail)
    ensures Partition(s, c) == (head, tail)
  {
    var (h, t) := Partition(s, c);
    if c in s {
      assert s[|head|] == c && forall i | 0 <= i < |head| :: s[i] == head[i] != c;
      assert s[|h|] == c && forall i | 0 <= i < |h| :: s[i] == h[i] != c;
      assert |head| == |h|;
      assert head == s[..|head|] == h;
      assert tail == s[|head| + 1..] == t;
    }
  }

  /** Python's `s.split(sep)` for a non-empty separator: the pieces between the occurrences of `sep`, left to right. */
  function Split(s: string, sep: string): (parts: seq<string>)
    requires sep != []
    ensures |parts| >= 1
    decreases |s|
  {
    if |s| < |sep| then [s]
    else if s[..|sep|] == sep then [""] + Split(s[|sep|..], sep)
    else
      var rest := Split(s[1..], sep);
      [[s[0]] + rest[0]] + rest[1..]
  }

  /** `sep.join(parts)`, the inverse of Split. */
  function Join(parts: seq<string>, sep: string): string
    requires |parts| >= 1
  {
    if |parts| == 1 then parts[0] else parts[0] + sep + Join(parts[1..], sep)
  }

  /** `sep` occurs in `p` at position `i`. */
  ghost predicate OccursAt(p: string, sep: string, i: nat)
  {
    i + |sep| <= |p| && p[i..i + |sep|] == sep
  }

  /** No occurrence of `sep` inside `p`. */
  ghost predicate FreeOf(p: string, sep: string)
  {
    forall i: nat :: !OccursAt(p, sep, i)
  }

  /** Joining the pieces again with the separator gives back the blob: Split loses nothing. */
  lemma {:induction false} JoinSplit(s: string, sep: string)
    requires sep != []
    ensures Join(Split(s, sep), sep) == s
  {
    if |s| < |sep| {
    } else if s[..|sep|] == sep {
      var rest := Split(s[|sep|..], sep);
      assert Split(s, sep) == [""] + rest;
      JoinSplit(s[|sep|..], sep);
      JoinPrepend([], rest, sep);
      assert s == sep + s[|sep|..];
    } else {
      var rest := Split(s[1..], sep);
      assert Split(s, sep) == [[s[0]] + rest[0]] + rest[1..];
      JoinSplit(s[1..], sep);
      JoinPrepend([s[0]], rest, sep);
      assert s == [s[0]] + s[1..];
    }
  }

  /** Prepending to the first piece prepends to the joined string. */
  lemma JoinPrepend(p: string, parts: seq<string>, sep: string)
    requires |parts| >= 1
    ensures Join([p + parts[0]] + parts[1..], sep) == p + Join(parts, sep)
    ensures Join([p] + parts, sep) == p + sep + Join(parts, sep)
  {
    var longer := [p + parts[0]] + parts[1..];
    if |parts| > 1 {
      assert longer[1..] == parts[1..];
    }
    assert ([p] + parts)[1..] == parts;
  }

  /** The first piece is a prefix of the blob. */
  lemma {:induction false} SplitFirstIsPrefix(s: string, sep: string)
    requires sep != []
    ensures Split(s, sep)[0] <= s
  {
    if |s| < |sep| {
    } else if s[..|sep|] == sep {
    } else {
      SplitFirstIsPrefix(s[1..], sep);
      assert s == [s[0]] + s[1..];
    }
  }

  /** No piece contains the separator: Split cuts at every occurrence. */
  lemma {:induction false} SplitPiecesFreeOfSeparator(s: string, sep: string)
    requires sep != []
    ensures forall k :: 0 <= k < |Split(s, sep)| ==> FreeOf(Split(s, sep)[k], sep)
  {
    var parts := Split(s, sep);
    if |s| < |sep| {
    } else if s[..|sep|] == sep {
      var rest := Split(s[|sep|..], sep);
      SplitPiecesFreeOfSeparator(s[|sep|..], sep);
      assert parts == [""] + rest;
      forall k | 0 <= k < |parts| ensures FreeOf(parts[k], sep) {
        if k > 0 { assert parts[k] == rest[k - 1]; }
      }
    } else {
      var rest := Split(s[1..], sep);
      SplitPiecesFreeOfSeparator(s[1..], sep);
      SplitFirstIsPrefix(s[1..], sep);
      var first := [s[0]] + rest[0];
      assert parts == [first] + rest[1..];
      assert FreeOf(first, sep) by {
        forall i: nat ensures !OccursAt(first, sep, i) {
          if i + |sep| > |first| {
          } else if i == 0 {
            assert first <= s by { assert s == [s[0]] + s[1..]; }
            assert first[0..|sep|] == s[..|sep|];
          } else {
            assert FreeOf(rest[0], sep);
            assert !OccursAt(rest[0], sep, i - 1);
            assert first[i..i + |sep|] == rest[0][i - 1..i - 1 + |sep|];
          }
        }
      }
      forall k | 0 <= k < |parts| ensures FreeOf(parts[k], sep) {
        if k > 0 { assert parts[k] == rest[k]; }
      }
    }
  }

  // ---------------------------------------------------------------------------
  // splitAccountInformation (classes/get_inspections.py lines 83-101)
  // ---------------------------------------------------------------------------

  /** The keys classes/get_inspections.py lines 92-99 add to the record. */
  const AddressKeys: set<string> :=
    {"pharmacy", "sap_id", "strasse", "plz", "ort", "state", "country", "extra", "email", "phone"}

  /** The text after the first `c` of `s`, or empty when `s` has none: the third component of `s.partition(c)`. */
  ghost predicate TailAfterFirst(s: string, c: char, tail: string)
  {
    exists head :: PartitionedAt(s, c, head, tail)
  }

  /** The address blob is split into more than seven segments, so classes/get_inspections.py lines 91-101 run. */
  predicate Splittable(v: Value)
  {
    v.Str? && |Split(v.s, Break)| > 7
  }

  /** The ten fields classes/get_inspections.py lines 91-99 take from the first eight segments. */
  datatype Address = Address(
    pharmacy: string, sapId: string, strasse: string, plz: string, ort: string,
    state: string, country: string, extra: string, email: string, phone: string)

  /**
   * classes/get_inspections.py lines 91-99: segments 0, 1, 2 and 5 are taken whole; segments 3 and 4 are
   * partitioned at the first space into postcode and city, region and country;
   * of segments 6 and 7 only the text after the first space is kept.
   */
  function ParseAddress(parts: seq<string>): (a: Address)
    requires |parts| > 7
    ensures a.pharmacy == parts[0] && a.sapId == parts[1] && a.strasse == parts[2] && a.extra == parts[5]
    ensures PartitionedAt(parts[3], ' ', a.plz, a.ort)
    ensures PartitionedAt(parts[4], ' ', a.state, a.country)
    ensures TailAfterFirst(parts[6], ' ', a.email)
    ensures TailAfterFirst(parts[7], ' ', a.phone)
  {
    var (plz, ort) := Partition(parts[3], ' ');
    var (state, country) := Partition(parts[4], ' ');
    var email := Partition(parts[6], ' ');
    var phone := Partition(parts[7], ' ');
    assert PartitionedAt(parts[6], ' ', email.0, email.1);
    assert PartitionedAt(parts[7], ' ', phone.0, phone.1);
    Address(parts[0], parts[1], parts[2], plz, ort, state, country, parts[5], email.1, phone.1)
  }

  /** The dictionary `d` of classes/get_inspections.py lines 91-99, under the keys the code writes. */
  function AddressRecord(a: Address): (d: Record)
    ensures d.Keys == AddressKeys
  {
    map["pharmacy" := Str(a.pharmacy), "sap_id" := Str(a.sapId), "strasse" := Str(a.strasse),
        "plz" := Str(a.plz), "ort" := Str(a.ort), "state" := Str(a.state), "country" := Str(a.country),
        "extra" := Str(a.extra), "email" := Str(a.email), "phone" := Str(a.phone)]
  }

  /** The fields parsed from an address blob that splits into more than seven segments. */
  function AddressOf(v: Value): Address
    requires Splittable(v)
  {
    ParseAddress(Split(v.s, Break))
  }

  /**
   * splitAccountInformation: a missing `Account_Information__c` raises KeyError;
   * a value that is not a string (the AttributeError path) or a blob of fewer
   * than eight segments leaves the record as it is; otherwise the record gains
   * the address fields and loses the blob.
   */
  function SplitAccountInformation(r: Record): (res: Result<Record>)
    ensures AccountInformation !in r ==> res == Failure(KeyError(AccountInformation))
    ensures AccountInformation in r && !Splittable(r[AccountInformation]) ==> res == Success(r)
    ensures AccountInformation in r && Splittable(r[AccountInformation]) ==>
      && res.Success?
      && AccountInformation !in res.value
      && res.value.Keys == (r.Keys - {AccountInformation}) + AddressKeys
      && (forall k | k in r && k != AccountInformation && k !in AddressKeys :: res.value[k] == r[k])
      && (forall k | k in AddressKeys :: res.value[k] == AddressRecord(AddressOf(r[AccountInformation]))[k])
  {
    if AccountInformation !in r then Failure(KeyError(AccountInformation))
    else if Splittable(r[AccountInformation]) then
      Success(WithAddress(r, AddressOf(r[AccountInformation])))
    else Success(r)
  }

  /** classes/get_inspections.py lines 100-101: the record gains the address fields and loses the blob. */
  function WithAddress(r: Record, a: Address): (m: Record)
    ensures AccountInformation !in m
    ensures m.Keys == (r.Keys - {AccountInformation}) + AddressKeys
    ensures forall k | k in r && k != AccountInformation && k !in AddressKeys :: m[k] == r[k]
    ensures forall k | k in AddressKeys :: m[k] == AddressRecord(a)[k]
  {
    assert AccountInformation !in AddressKeys;
    Replace(r, AccountInformation, AddressRecord(a))
  }

  /** `r.update(d)` followed by `del r[key]`. */
  function Replace(r: Record, key: string, d: Record): (m: Record)
    ensures key !in d ==> m.Keys == (r.Keys - {key}) + d.Keys
    ensures forall k | k in r && k != key && k !in d :: k in m && m[k] == r[k]
    ensures forall k | k in d && k != key :: k in m && m[k] == d[k]
  {
    (r + d) - {key}
  }

  /** The segments beyond the eighth play no part in the parsed fields. */
  lemma ExtraSegmentsIgnored(parts: seq<string>, more: seq<string>)
    requires |parts| > 7
    ensures ParseAddress(parts + more) == ParseAddress(parts)
  {
    assert (parts + more)[..8] == parts[..8];
  }

  // ---------------------------------------------------------------------------
  // flattenRecord (classes/get_inspections.py lines 62-69) and the loop in getInspections (lines 55-56)
  // ---------------------------------------------------------------------------

  /** The state a record dictionary is left in, and the exception raised, if any. */
  datatype Step = Step(record: Record, raised: Option<Fault>)

  /**
   * classes/get_inspections.py lines 64-67: delete `attributes`, pop the nested contract, delete its
   * `attributes` and merge it into the record. Each statement that raises
   * leaves the deletions before it in place.
   */
  function MergeContract(r: Record): (res: Step)
    ensures res.raised.None? <==>
      Attributes in r && Contract in r && r[Contract].Dict? && Attributes in r[Contract].fields
    ensures Attributes !in r ==> res == Step(r, Some(KeyError(Attributes)))
    ensures Attributes in r && Contract !in r ==> res == Step(r - {Attributes}, Some(KeyError(Contract)))
    ensures Attributes in r && Contract in r && !r[Contract].Dict? ==>
      res == Step(r - {Attributes, Contract}, Some(TypeError))
    ensures Attributes in r && Contract in r && r[Contract].Dict? && Attributes !in r[Contract].fields ==>
      res == Step(r - {Attributes, Contract}, Some(KeyError(Attributes)))
    ensures res.raised.None? ==>
      var c := r[Contract].fields;
      && Attributes !in res.record
      && res.record.Keys == (r.Keys - {Attributes, Contract}) + (c.Keys - {Attributes})
      && (forall k | k in c && k != Attributes :: res.record[k] == c[k])
      && (forall k | k in r && k !in c && k != Attributes && k != Contract :: res.record[k] == r[k])
  {
    if Attributes !in r then Step(r, Some(KeyError(Attributes)))
    else
      var r1 := r - {Attributes};
      if Contract !in r1 then Step(r1, Some(KeyError(Contract)))
      else
        var pharmacy := r1[Contract];
        var r2 := r1 - {Contract};
        assert r2 == r - {Attributes, Contract};
        if !pharmacy.Dict? then Step(r2, Some(TypeError))
        else if Attributes !in pharmacy.fields then Step(r2, Some(KeyError(Attributes)))
        else Step(r2 + (pharmacy.fields - {Attributes}), None)
  }

  /** flattenRecord: the merge of classes/get_inspections.py lines 64-67, then splitAccountInformation on the merged record. */
  function FlattenRecord(r: Record): (res: Step)
    ensures res.raised.None? <==>
      MergeContract(r).raised.None? && AccountInformation in MergeContract(r).record
    ensures res.raised.None? ==>
      && Attributes !in res.record
      && SplitAccountInformation(MergeContract(r).record) == Success(res.record)
    ensures res.raised.Some? ==> res.record == MergeContract(r).record
    ensures MergeContract(r).raised.Some? ==> res.raised == MergeContract(r).raised
    ensures MergeContract(r).raised.None? && AccountInformation !in MergeContract(r).record ==>
      res.raised == Some(KeyError(AccountInformation))
  {
    var merged := MergeContract(r);
    if merged.raised.Some? then merged
    else
      var split := SplitAccountInformation(merged.record);
      assert Attributes !in AddressKeys;
      if split.Success? then Step(split.value, None) else Step(merged.record, Some(split.fault))
  }

  /** How the loop over the query result ended. */
  datatype LoopEnd = Completed | RaisedAt(index: nat, fault: Fault)

  /**
   * The loop of getInspections over the records the query returned: each
   * record is flattened in place, and the first exception ends the loop,
   * leaving that record as the failed flatten left it and the later ones
   * untouched.
   */
  method FlattenAll(records: array<Record>) returns (end: LoopEnd)
    modifies records
    ensures end.RaisedAt? ==>
      && end.index < records.Length
      && FlattenRecord(old(records[end.index])) == Step(records[end.index], Some(end.fault))
    ensures forall i | 0 <= i < records.Length && (end.Completed? || i < end.index) ::
      FlattenRecord(old(records[i])) == Step(records[i], None)
    ensures forall i | 0 <= i < records.Length && end.RaisedAt? && end.index < i ::
      records[i] == old(records[i])
  {
    ghost var before := records[..];
    var i := 0;
    while i < records.Length
      invariant 0 <= i <= records.Length
      invariant forall j | 0 <= j < i :: FlattenRecord(before[j]) == Step(records[j], None)
      invariant forall j | i <= j < records.Length :: records[j] == before[j]
    {
      var raised := FlattenAt(records, i);
      if raised.Some? {
        return RaisedAt(i, raised.value);
      }
      i := i + 1;
    }
    return Completed;
  }

  /** One iteration of the loop: `records[i]` is flattened in place and the exception it raised, if any, is returned. */
  method FlattenAt(records: array<Record>, i: nat) returns (raised: Option<Fault>)
    requires i < records.Length
    modifies records
    ensures FlattenRecord(old(records[i])) == Step(records[i], raised)
    ensures forall j | 0 <= j < records.Length && j != i :: records[j] == old(records[j])
  {
    var step := FlattenRecord(records[i]);
    records[i] := step.record;
    raised := step.raised;
  }
}
