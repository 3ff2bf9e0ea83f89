/** The inbound short-number table and its data-access operations
    (app/dao/inbound_shortnumbers_dao.py), with the uniqueness constraints the
    schema places on it (migration 0310c). The table is a sequence of rows in
    storage order; each operation is one atomic step that either yields the
    new table or raises, leaving the table as it was. */
module ShortNumbers {

  import opened Wrappers
  import opened Seqs

  type Uuid = string
  type Timestamp = int

  datatype InboundShortNumber = InboundShortNumber(
    id: Uuid,
    shortNumber: string,
    provider: string,
    serviceId: Option<Uuid>,
    active: bool,
    createdAt: Timestamp,
    updatedAt: Option<Timestamp>)

  type Table = seq<InboundShortNumber>

  /** Column width of `short_number`, `String(length=11)`. */
  const ShortNumberMaxLength: nat := 11

  /** Provider written by `dao_add_inbound_shortnumber`. */
  const AddedProvider := "sinch"

  datatype DaoError =
    | NotAvailable(id: Uuid)        // "Inbound shortnumber: <id> is not available"
    | IntegrityError                // a unique constraint or the primary key is violated
    | ValueTooLong                  // the short number does not fit its column
    | NoNumberForService(serviceId: Uuid)  // `.first()` gave None and its attribute was set

  /** The schema's constraints: primary key, unique short number, and the unique
      index on service_id (several NULLs allowed). */
  ghost predicate Valid(t: Table)
  {
    && (forall i, j | 0 <= i < |t| && 0 <= j < |t| && i != j :: t[i].id != t[j].id)
    && (forall i, j | 0 <= i < |t| && 0 <= j < |t| && i != j :: t[i].shortNumber != t[j].shortNumber)
    && (forall i, j | 0 <= i < |t| && 0 <= j < |t| && i != j ::
          t[i].serviceId.Some? ==> t[i].serviceId != t[j].serviceId)
    && (forall i | 0 <= i < |t| :: |t[i].shortNumber| <= ShortNumberMaxLength)
  }

  predicate IsAvailable(n: InboundShortNumber)
  {
    n.active && n.serviceId.None?
  }

  function HasId(id: Uuid): InboundShortNumber -> bool
  {
    (n: InboundShortNumber) => n.id == id
  }

  function HeldBy(serviceId: Uuid): InboundShortNumber -> bool
  {
    (n: InboundShortNumber) => n.serviceId == Some(serviceId)
  }

  function IndexOfId(t: Table, id: Uuid): Option<nat>
  {
    FirstIndex(t, HasId(id))
  }

  /** dao_get_available_inbound_shortnumbers: active rows with no service. */
  function Available(t: Table): (r: Table)
    ensures forall n :: n in r <==> n in t && n.active && n.serviceId.None?
  {
    Filter(t, IsAvailable)
  }

  /** dao_get_inbound_shortnumber_for_service: the first row held by the service. */
  function ForService(t: Table, serviceId: Uuid): (r: Option<InboundShortNumber>)
    ensures r.Some? ==> r.value in t && r.value.serviceId == Some(serviceId)
    ensures r.None? <==> forall n :: n in t ==> n.serviceId != Some(serviceId)
  {
    match FirstIndex(t, HeldBy(serviceId))
    case None => None
    case Some(i) => Some(t[i])
  }

  /** Another row that the write of `row` would collide with under a unique constraint. */
  predicate Clashes(n: InboundShortNumber, row: InboundShortNumber)
  {
    n.id != row.id &&
    (n.shortNumber == row.shortNumber || (row.serviceId.Some? && n.serviceId == row.serviceId))
  }

  /** Persist `row` by primary key (update in place, or insert when the id is new),
      refused when it breaks a column width or a unique constraint. */
  function Write(t: Table, row: InboundShortNumber): (r: Result<Table, DaoError>)
    ensures r.Err? <==>
      (|row.shortNumber| > ShortNumberMaxLength || exists k :: 0 <= k < |t| && Clashes(t[k], row))
    ensures r.Err? ==> r.error == ValueTooLong || r.error == IntegrityError
    ensures r.Ok? ==> row in r.value
    ensures r.Ok? ==> forall n :: n in r.value ==> n == row || n in t
    ensures r.Ok? ==> forall n :: n in t && n.id != row.id ==> n in r.value
  {
    if |row.shortNumber| > ShortNumberMaxLength then Err(ValueTooLong)
    else if exists k :: 0 <= k < |t| && Clashes(t[k], row) then Err(IntegrityError)
    else
      match IndexOfId(t, row.id)
      case Some(i) =>
        assert t[i].id == row.id;
        var t' := t[i := row];
        assert t'[i] == row;
        assert forall j :: 0 <= j < |t| && j != i ==> t'[j] == t[j];
        Ok(t')
      case None => Ok(t + [row])
  }

  /** dao_set_inbound_shortnumber_to_service: bind the given row to the service. */
  function SetToService(t: Table, serviceId: Uuid, number: InboundShortNumber): (r: Result<Table, DaoError>)
    ensures r.Ok? ==> number.(serviceId := Some(serviceId)) in r.value
    ensures r.Ok? ==> forall n :: n in r.value && n.id != number.id ==> n in t
    ensures r.Ok? ==> forall n :: n in t && n.id != number.id ==> n in r.value
    ensures r.Err? <==> (|number.shortNumber| > ShortNumberMaxLength ||
      exists k :: 0 <= k < |t| && t[k].id != number.id &&
        (t[k].shortNumber == number.shortNumber || t[k].serviceId == Some(serviceId)))
  {
    var row := number.(serviceId := Some(serviceId));
    assert forall k :: 0 <= k < |t| ==> (Clashes(t[k], row) <==>
      (t[k].id != number.id && (t[k].shortNumber == number.shortNumber || t[k].serviceId == Some(serviceId))));
    Write(t, row)
  }

  /** dao_set_inbound_shortnumber_active_flag: set `active` on the service's number;
      with no such number the source dereferences None. */
  function SetActiveFlag(t: Table, serviceId: Uuid, active: bool): (r: Result<Table, DaoError>)
    ensures ForService(t, serviceId).None? ==> r == Err(NoNumberForService(serviceId))
    ensures r.Ok? ==> (ForService(t, serviceId).Some? &&
      ForService(t, serviceId).value.(active := active) in r.value)
  {
    match ForService(t, serviceId)
    case None => Err(NoNumberForService(serviceId))
    case Some(n) => Write(t, n.(active := active))
  }

  datatype Allocation = Allocation(table: Table, row: InboundShortNumber)

  /** dao_allocate_shortnumber_for_service: the conditional update
      `UPDATE ... SET service_id = :s WHERE id = :id AND active AND service_id IS NULL`,
      then the row re-read by id. */
  function Allocate(t: Table, serviceId: Uuid, id: Uuid): (r: Result<Allocation, DaoError>)
    ensures r.Ok? ==> exists i :: 0 <= i < |t| && t[i].id == id && IsAvailable(t[i])
    ensures (forall i :: 0 <= i < |t| && t[i].id == id ==> !IsAvailable(t[i])) ==>
      r == Err(NotAvailable(id))
    ensures r.Ok? ==> r.value.row.id == id && r.value.row.serviceId == Some(serviceId)
    ensures r.Ok? ==> r.value.row in r.value.table
  {
    match IndexOfId(t, id)
    case None => Err(NotAvailable(id))
    case Some(i) =>
      if !IsAvailable(t[i]) then Err(NotAvailable(id))
      else
        var row := t[i].(serviceId := Some(serviceId));
        match Write(t, row)
        case Err(e) => Err(e)
        case Ok(t') => Ok(Allocation(t', row))
  }

  /** dao_add_inbound_shortnumber: insert an active, unassigned 'sinch' row under a
      freshly generated id. */
  function Add(t: Table, newId: Uuid, number: string, now: Timestamp): (r: Result<Table, DaoError>)
    ensures r.Ok? ==> InboundShortNumber(newId, number, AddedProvider, None, true, now, None) in r.value
    ensures r.Ok? ==> |r.value| == |t| + 1 && t <= r.value
    ensures r.Err? <==> (|number| > ShortNumberMaxLength ||
      exists k :: 0 <= k < |t| && (t[k].id == newId || t[k].shortNumber == number))
  {
    var row := InboundShortNumber(newId, number, AddedProvider, None, true, now, None);
    if IndexOfId(t, newId).Some? then
      if |number| > ShortNumberMaxLength then Err(ValueTooLong) else Err(IntegrityError)
    else
      assert forall k :: 0 <= k < |t| ==> (Clashes(t[k], row) <==> t[k].shortNumber == number);
      Write(t, row)
  }

  /** Writing a row never breaks the schema's constraints. */
  lemma WritePreservesValid(t: Table, row: InboundShortNumber)
    requires Valid(t)
    ensures Write(t, row).Ok? ==> Valid(Write(t, row).value)
  {
    if Write(t, row).Ok? {
      var t' := Write(t, row).value;
      assert forall k :: 0 <= k < |t| ==> !Clashes(t[k], row);
      match IndexOfId(t, row.id)
      case Some(i) =>
        assert t' == t[i := row];
        forall k | 0 <= k < |t| && k != i
          ensures t[k].id != row.id && t[k].shortNumber != row.shortNumber
          ensures row.serviceId.Some? ==> t[k].serviceId != row.serviceId
          ensures t[k].serviceId.Some? ==> t[k].serviceId != row.serviceId
        {
          assert t[k].id != t[i].id;
        }
      case None =>
        assert t' == t + [row];
        forall k | 0 <= k < |t|
          ensures t[k].id != row.id
        {
          assert !HasId(row.id)(t[k]);
        }
    }
  }

  /** An allocation succeeds exactly when the id names an active, unassigned row and
      the service does not already hold a number. */
  lemma AllocateSucceedsIff(t: Table, serviceId: Uuid, id: Uuid)
    requires Valid(t)
    ensures Allocate(t, serviceId, id).Ok? <==>
      (exists i :: 0 <= i < |t| && t[i].id == id && IsAvailable(t[i])) &&
      (forall n :: n in t ==> n.serviceId != Some(serviceId))
  {
    var r := Allocate(t, serviceId, id);
    if (exists i :: 0 <= i < |t| && t[i].id == id && IsAvailable(t[i])) {
      var i :| 0 <= i < |t| && t[i].id == id && IsAvailable(t[i]);
      var j := IndexOfId(t, id);
      assert j.Some? by {
        assert HasId(id)(t[i]);
      }
      assert j.value == i by {
        assert HasId(id)(t[j.value]);
      }
      var row := t[i].(serviceId := Some(serviceId));
      assert r == (match Write(t, row) case Err(e) => Err(e) case Ok(t') => Ok(Allocation(t', row)));
      if forall n :: n in t ==> n.serviceId != Some(serviceId) {
        forall k | 0 <= k < |t|
          ensures !Clashes(t[k], row)
        {
          if k != i {
            assert t[k].shortNumber != t[i].shortNumber;
          }
        }
      } else {
        var n :| n in t && n.serviceId == Some(serviceId);
        var k :| 0 <= k < |t| && t[k] == n;
        assert Clashes(t[k], row);
      }
    }
  }

  /** A successful allocation rewrites the target row's service_id and nothing else:
      same rows in the same places, the returned row is the stored one. */
  lemma AllocateChangesOnlyServiceId(t: Table, serviceId: Uuid, id: Uuid)
    requires Allocate(t, serviceId, id).Ok?
    ensures var a := Allocate(t, serviceId, id).value;
      exists i :: 0 <= i < |t| && t[i].id == id && IsAvailable(t[i]) &&
        a.table == t[i := t[i].(serviceId := Some(serviceId))] && a.row == a.table[i]
  {
    var i := IndexOfId(t, id).value;
    var a := Allocate(t, serviceId, id).value;
    var row := t[i].(serviceId := Some(serviceId));
    assert HasId(id)(t[i]);
    assert IndexOfId(t, row.id) == Some(i);
    assert a.table == t[i := row];
  }

  lemma AllocatePreservesValid(t: Table, serviceId: Uuid, id: Uuid)
    requires Valid(t)
    ensures Allocate(t, serviceId, id).Ok? ==> Valid(Allocate(t, serviceId, id).value.table)
  {
    if Allocate(t, serviceId, id).Ok? {
      var i := IndexOfId(t, id).value;
      WritePreservesValid(t, t[i].(serviceId := Some(serviceId)));
    }
  }

  /** After an allocation the number leaves the available list and every other
      available number stays. */
  lemma AllocatedNumberLeavesAvailable(t: Table, serviceId: Uuid, id: Uuid)
    requires Valid(t)
    requires Allocate(t, serviceId, id).Ok?
    ensures forall n :: n in Available(Allocate(t, serviceId, id).value.table) <==>
      n in Available(t) && n.id != id
  {
    AllocateChangesOnlyServiceId(t, serviceId, id);
    var a := Allocate(t, serviceId, id).value;
    var i :| 0 <= i < |t| && t[i].id == id && IsAvailable(t[i]) &&
      a.table == t[i := t[i].(serviceId := Some(serviceId))] && a.row == a.table[i];
    forall n
      ensures n in a.table && IsAvailable(n) <==> n in t && IsAvailable(n) && n.id != id
    {
      if n in a.table && IsAvailable(n) {
        var k :| 0 <= k < |a.table| && a.table[k] == n;
        assert k != i;
        assert t[k].id != t[i].id;
      }
      if n in t && IsAvailable(n) && n.id != id {
        var k :| 0 <= k < |t| && t[k] == n;
        assert a.table[k] == n;
      }
    }
  }

  /** The unique index on service_id: binding a second number to a service that
      already holds one is refused. */
  lemma SecondNumberForServiceFails(t: Table, serviceId: Uuid, held: InboundShortNumber,
                                    number: InboundShortNumber)
    requires held in t && held.serviceId == Some(serviceId) && held.id != number.id
    requires |number.shortNumber| <= ShortNumberMaxLength
    ensures SetToService(t, serviceId, number) == Err(IntegrityError)
  {
    var k :| 0 <= k < |t| && t[k] == held;
    assert Clashes(t[k], number.(serviceId := Some(serviceId)));
  }

  /** Binding a number to a service removes it from the available list. */
  lemma AssignedNumberLeavesAvailable(t: Table, serviceId: Uuid, number: InboundShortNumber)
    requires Valid(t)
    requires SetToService(t, serviceId, number).Ok?
    ensures forall n :: n in Available(SetToService(t, serviceId, number).value) ==> n.id != number.id
  {
    var row := number.(serviceId := Some(serviceId));
    WritePreservesValid(t, row);
    var t' := SetToService(t, serviceId, number).value;
    forall n | n in Available(t')
      ensures n.id != number.id
    {
      var k :| 0 <= k < |t'| && t'[k] == n;
      var j :| 0 <= j < |t'| && t'[j] == row;
      assert t'[k].serviceId != t'[j].serviceId;
    }
  }

  /** Setting the active flag rewrites only `active` of the service's number. */
  lemma SetActiveFlagChangesOnlyActive(t: Table, serviceId: Uuid, active: bool)
    requires Valid(t)
    requires ForService(t, serviceId).Some?
    ensures SetActiveFlag(t, serviceId, active).Ok?
    ensures exists i :: 0 <= i < |t| && t[i].serviceId == Some(serviceId) &&
                        SetActiveFlag(t, serviceId, active).value == t[i := t[i].(active := active)]
  {
    var i := FirstIndex(t, HeldBy(serviceId)).value;
    var n := t[i];
    assert ForService(t, serviceId) == Some(n);
    var row := n.(active := active);
    forall k | 0 <= k < |t|
      ensures !Clashes(t[k], row)
    {
      if k != i {
        assert t[k].id != t[i].id && t[k].shortNumber != t[i].shortNumber;
      }
    }
    assert HasId(row.id)(t[i]);
    var j := IndexOfId(t, row.id).value;
    assert HasId(row.id)(t[j]);
    assert j == i;
  }

  /** An added number is stored active, unassigned, from 'sinch', and is available. */
  lemma AddedNumberIsAvailable(t: Table, newId: Uuid, number: string, now: Timestamp)
    requires Valid(t)
    requires Add(t, newId, number, now).Ok?
    ensures Valid(Add(t, newId, number, now).value)
    ensures exists n :: n in Available(Add(t, newId, number, now).value) &&
                        n.id == newId && n.shortNumber == number && n.provider == AddedProvider
  {
    var row := InboundShortNumber(newId, number, AddedProvider, None, true, now, None);
    WritePreservesValid(t, row);
    assert row in Add(t, newId, number, now).value;
  }
}
