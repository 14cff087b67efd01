/** The street-address repository
    (internals/db/repositories/saddress_repository.go).  The "SAddress"
    table is a sequence in creation order held by a store object.  Every
    check happens before the transaction begins; failing SQL statements are
    inputs, and the id the database generates is a parameter. */
module SAddressRepo {
  import opened Wrappers
  import opened GoStrings
  import opened Errors

  datatype SAddress = SAddress(id: string, country: string, state: string, city: string,
                               street: string, building: string, postalCode: string)

  /** The six address fields that must not be blank, in the order they are
      checked, with the field name each error carries. */
  function Fields(a: SAddress): seq<(string, string)>
  {
    [("country", a.country), ("state", a.state), ("city", a.city),
     ("street", a.street), ("building", a.building), ("postal_code", a.postalCode)]
  }

  /** The message for a blank field: the postal code's reads "postal code". */
  function BlankMessage(field: string): string
  {
    (if field == "postal_code" then "postal code" else field) + " cannot be empty"
  }

  /** The position of the first blank field in `fs`, or |fs| when none is. */
  function FirstBlankAt(fs: seq<(string, string)>): (i: nat)
    ensures i <= |fs|
    ensures forall j :: 0 <= j < i ==> !IsBlank(fs[j].1)
    ensures i < |fs| ==> IsBlank(fs[i].1)
  {
    if fs == [] || IsBlank(fs[0].1) then 0
    else
      var i := FirstBlankAt(fs[1..]);
      assert forall j :: 1 <= j < i + 1 ==> fs[j] == fs[1..][j - 1];
      i + 1
  }

  /** The first blank field in `fs`, as the error the repository returns. */
  function FirstBlank(fs: seq<(string, string)>): (r: Option<Error>)
    ensures r.None? <==> forall i :: 0 <= i < |fs| ==> !IsBlank(fs[i].1)
    ensures r.Some? ==> var i := FirstBlankAt(fs);
                        i < |fs| && r.value == Validation(fs[i].0, BlankMessage(fs[i].0))
  {
    var i := FirstBlankAt(fs);
    if i == |fs| then None else Some(Validation(fs[i].0, BlankMessage(fs[i].0)))
  }

  const ErrNilAddress := Validation("saddress", "saddress cannot be nil")

  /** The checks of CreateSAddress: nil, then the six fields in order. */
  function CheckCreate(a: Option<SAddress>): (r: Option<Error>)
    ensures a.None? ==> r == Some(ErrNilAddress)
    ensures r.None? <==> a.Some? && forall i :: 0 <= i < 6 ==> !IsBlank(Fields(a.value)[i].1)
  {
    if a.None? then Some(ErrNilAddress) else FirstBlank(Fields(a.value))
  }

  /** The checks of UpdateSAddress: nil, the id, then the six fields. */
  function CheckUpdate(a: Option<SAddress>): (r: Option<Error>)
    ensures a.None? ==> r == Some(ErrNilAddress)
    ensures a.Some? && IsBlank(a.value.id) ==> r == Some(Validation("id", "address ID cannot be empty"))
    ensures r.None? <==> a.Some? && !IsBlank(a.value.id) && CheckCreate(a).None?
  {
    if a.None? then Some(ErrNilAddress)
    else if IsBlank(a.value.id) then Some(Validation("id", "address ID cannot be empty"))
    else FirstBlank(Fields(a.value))
  }

  /** Update applies the create checks, only with the id checked right
      after nil: for an address with an id they give the same error. */
  lemma UpdateChecksAsCreate(a: SAddress)
    requires !IsBlank(a.id)
    ensures CheckUpdate(Some(a)) == CheckCreate(Some(a))
  {
  }

  /** A blank country is reported before any other blank field. */
  lemma CountryFirst(a: SAddress)
    requires IsBlank(a.country)
    ensures CheckCreate(Some(a)) == Some(Validation("country", "country cannot be empty"))
  {
    assert Fields(a)[0] == ("country", a.country);
    assert BlankMessage("country") == "country cannot be empty";
  }

  /** Only a blank postal code, with the others filled in, is reported as
      such. */
  lemma PostalCodeLast(a: SAddress)
    requires !IsBlank(a.country) && !IsBlank(a.state) && !IsBlank(a.city)
    requires !IsBlank(a.street) && !IsBlank(a.building) && IsBlank(a.postalCode)
    ensures CheckCreate(Some(a)) == Some(Validation("postal_code", "postal code cannot be empty"))
  {
    var fs := Fields(a);
    assert |fs| == 6 && fs[0].1 == a.country && fs[1].1 == a.state && fs[2].1 == a.city;
    assert fs[3].1 == a.street && fs[4].1 == a.building && fs[5] == ("postal_code", a.postalCode);
    assert FirstBlankAt(fs) == 5;
    assert BlankMessage("postal_code") == "postal code cannot be empty";
  }

  /** The checks of ListSAddresses. */
  function CheckPage(limit: int, offset: int): (r: Option<Error>)
    ensures r.None? <==> limit > 0 && offset >= 0
    ensures limit <= 0 ==> r == Some(ErrInvalidLimit)
    ensures limit > 0 && offset < 0 ==> r == Some(ErrInvalidOffset)
  {
    if limit <= 0 then Some(ErrInvalidLimit) else if offset < 0 then Some(ErrInvalidOffset) else None
  }

  /** The rows newest first: ORDER BY created_at DESC over a table kept in
      creation order. */
  function NewestFirst(xs: seq<SAddress>): (r: seq<SAddress>)
    ensures |r| == |xs|
    ensures forall k :: 0 <= k < |xs| ==> r[k] == xs[|xs| - 1 - k]
  {
    if xs == [] then [] else [xs[|xs| - 1]] + NewestFirst(xs[..|xs| - 1])
  }

  function IndexIn(xs: seq<SAddress>, id: string): (r: nat)
    ensures r <= |xs|
    ensures r < |xs| ==> xs[r].id == id
    ensures forall i :: 0 <= i < r ==> xs[i].id != id
  {
    if xs == [] then 0 else if xs[0].id == id then 0 else 1 + IndexIn(xs[1..], id)
  }

  /** No two rows share an id. */
  ghost predicate UniqueIds(xs: seq<SAddress>)
  {
    forall i, j :: 0 <= i < j < |xs| ==> xs[i].id != xs[j].id
  }

  /** The error of the first failing step of UpdateSAddress or
      DeleteSAddress after its checks: BEGIN, the statement `op`, reading
      the rows affected, the zero-rows check (`found`), then COMMIT, each
      with its own label. */
  function StepError(faults: StatementFaults, op: string, found: bool, id: string): (r: Option<Error>)
    ensures r.None? <==> faults.Clean() && found
    ensures faults.begin.Some? ==> r == Some(Database("begin transaction", "SAddress", faults.begin.value))
    ensures faults.begin.None? && faults.exec.Some? ==> r == Some(Database(op, "SAddress", faults.exec.value))
    ensures faults.begin.None? && faults.exec.None? && faults.affected.Some? ==>
              r == Some(Database("check rows affected", "SAddress", faults.affected.value))
    ensures faults.begin.None? && faults.exec.None? && faults.affected.None? && !found ==>
              r == Some(NotFound("saddress", id))
    ensures faults.begin.None? && faults.exec.None? && faults.affected.None? && found && faults.commit.Some? ==>
              r == Some(Database("commit transaction", "SAddress", faults.commit.value))
  {
    if faults.begin.Some? then Some(Database("begin transaction", "SAddress", faults.begin.value))
    else if faults.exec.Some? then Some(Database(op, "SAddress", faults.exec.value))
    else if faults.affected.Some? then Some(Database("check rows affected", "SAddress", faults.affected.value))
    else if !found then Some(NotFound("saddress", id))
    else if faults.commit.Some? then Some(Database("commit transaction", "SAddress", faults.commit.value))
    else None
  }

  /** Deleting a row keeps the ids unique and leaves no row with its id. */
  lemma RemoveKeepsUnique(xs: seq<SAddress>, k: nat)
    requires UniqueIds(xs) && k < |xs|
    ensures var ys := xs[..k] + xs[k + 1..];
            UniqueIds(ys) && forall i :: 0 <= i < |ys| ==> ys[i].id != xs[k].id
  {
    var ys := xs[..k] + xs[k + 1..];
    assert forall i :: 0 <= i < |ys| ==> ys[i] == if i < k then xs[i] else xs[i + 1];
  }

  class SAddressStore {
    var addresses: seq<SAddress>

    ghost predicate Valid()
      reads this
    {
      UniqueIds(addresses)
    }

    constructor ()
      ensures addresses == [] && Valid()
    {
      addresses := [];
    }

    /** CreateSAddress.  `faults` are the failures of the begin, the
        insert and the commit; `newId` is the id the INSERT returns, and a
        taken id fails as the primary key would. */
    method CreateSAddress(a: Option<SAddress>, newId: string, faults: InsertFaults)
      returns (r: Result<string, Error>)
      requires Valid()
      modifies this
      ensures Valid()
      ensures CheckCreate(a).Some? ==> r == Failure(CheckCreate(a).value)
      ensures CheckCreate(a).None? && faults.begin.Some? ==>
                r == Failure(Database("begin transaction", "SAddress", faults.begin.value))
      ensures CheckCreate(a).None? && faults.begin.None? && faults.insert.Some? ==>
                r == Failure(Database("insert", "SAddress", faults.insert.value))
      ensures CheckCreate(a).None? && faults.begin.None? && faults.insert.None?
              && IndexIn(old(addresses), newId) == |old(addresses)| && faults.commit.Some? ==>
                r == Failure(Database("commit transaction", "SAddress", faults.commit.value))
      ensures r.Ok? <==> CheckCreate(a).None? && faults.Clean() && IndexIn(old(addresses), newId) == |old(addresses)|
      ensures r.Failure? ==> addresses == old(addresses)
      ensures r.Ok? ==> r.value == newId && addresses == old(addresses) + [a.value.(id := newId)]
    {
      var check := CheckCreate(a);
      if check.Some? {
        return Failure(check.value);
      }
      if faults.begin.Some? {
        return Failure(Database("begin transaction", "SAddress", faults.begin.value));
      }
      if faults.insert.Some? {
        return Failure(Database("insert", "SAddress", faults.insert.value));
      }
      if IndexIn(addresses, newId) < |addresses| {
        return Failure(Database("insert", "SAddress", Plain("duplicate key value violates unique constraint")));
      }
      if faults.commit.Some? {
        return Failure(Database("commit transaction", "SAddress", faults.commit.value));
      }
      addresses := addresses + [a.value.(id := newId)];
      return Ok(newId);
    }

    /** GetSAddressByID; `queryErr` is a failure other than "no rows". */
    function GetSAddressByID(id: string, queryErr: Option<Error>): (r: Result<SAddress, Error>)
      reads this
      ensures IsBlank(id) ==> r == Failure(Validation("address_id", "address ID cannot be empty"))
      ensures !IsBlank(id) && queryErr.None? ==>
                var k := IndexIn(addresses, id);
                if k < |addresses| then r == Ok(addresses[k]) else r == Failure(NotFound("saddress", id))
    {
      if IsBlank(id) then Failure(Validation("address_id", "address ID cannot be empty"))
      else if queryErr.Some? then Failure(Database("select", "SAddress", queryErr.value))
      else
        var k := IndexIn(addresses, id);
        if k < |addresses| then Ok(addresses[k]) else Failure(NotFound("saddress", id))
    }

    /** UpdateSAddress: every field of the row with that id is replaced;
        zero rows is NotFound, checked before the commit. */
    method UpdateSAddress(a: Option<SAddress>, faults: StatementFaults) returns (err: Option<Error>)
      requires Valid()
      modifies this
      ensures Valid()
      ensures CheckUpdate(a).Some? ==> err == CheckUpdate(a)
      ensures CheckUpdate(a).None? ==>
                err == StepError(faults, "update", IndexIn(old(addresses), a.value.id) < |old(addresses)|, a.value.id)
      ensures err.None? <==> CheckUpdate(a).None? && faults.Clean() && IndexIn(old(addresses), a.value.id) < |old(addresses)|
      ensures err.Some? ==> addresses == old(addresses)
      ensures err.None? ==> addresses == old(addresses)[IndexIn(old(addresses), a.value.id) := a.value]
    {
      var check := CheckUpdate(a);
      if check.Some? {
        return check;
      }
      var k := IndexIn(addresses, a.value.id);
      err := StepError(faults, "update", k < |addresses|, a.value.id);
      if err.None? {
        addresses := addresses[k := a.value];
      }
    }

    /** DeleteSAddress: a blank id is refused; zero rows is NotFound,
        checked before the commit. */
    method DeleteSAddress(id: string, faults: StatementFaults) returns (err: Option<Error>)
      requires Valid()
      modifies this
      ensures Valid()
      ensures IsBlank(id) ==> err == Some(Validation("address_id", "address ID cannot be empty"))
      ensures !IsBlank(id) ==> err == StepError(faults, "delete", IndexIn(old(addresses), id) < |old(addresses)|, id)
      ensures err.None? <==> !IsBlank(id) && faults.Clean() && IndexIn(old(addresses), id) < |old(addresses)|
      ensures err.Some? ==> addresses == old(addresses)
      ensures err.None? ==>
                var k := IndexIn(old(addresses), id);
                addresses == old(addresses)[..k] + old(addresses)[k + 1..]
                && forall i :: 0 <= i < |addresses| ==> addresses[i].id != id
    {
      if IsBlank(id) {
        return Some(Validation("address_id", "address ID cannot be empty"));
      }
      var k := IndexIn(addresses, id);
      err := StepError(faults, "delete", k < |addresses|, id);
      if err.None? {
        RemoveKeepsUnique(addresses, k);
        addresses := addresses[..k] + addresses[k + 1..];
      }
    }

    /** ListSAddresses: the checks, then the scan loop over the requested
        page of the rows, newest first. */
    method ListSAddresses(limit: int, offset: int, queryErr: Option<Error>) returns (r: Result<seq<SAddress>, Error>)
      ensures CheckPage(limit, offset).Some? ==> r == Failure(CheckPage(limit, offset).value)
      ensures CheckPage(limit, offset).None? && queryErr.None? ==>
                r.Ok? && |r.value| == Max(0, Min(limit, |addresses| - offset))
                && forall k :: 0 <= k < |r.value| ==> r.value[k] == NewestFirst(addresses)[offset + k]
    {
      var check := CheckPage(limit, offset);
      if check.Some? {
        return Failure(check.value);
      }
      if queryErr.Some? {
        return Failure(Database("select", "SAddress", queryErr.value));
      }
      var ordered := NewestFirst(addresses);
      var page: seq<SAddress> := [];
      var i := offset;
      while i < |ordered| && i < offset + limit
        invariant offset <= i
        invariant i <= |ordered| || i == offset
        invariant i <= offset + limit
        invariant |page| == i - offset
        invariant forall k :: 0 <= k < |page| ==> page[k] == ordered[offset + k]
      {
        page := page + [ordered[i]];
        i := i + 1;
      }
      return Ok(page);
    }
  }
}
