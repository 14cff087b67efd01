/** The opening repository (internals/db/repositories/opening_repository.go):
    the dynamic filter query of GetOpeningsByFilter, whose placeholder
    numbering is the point, the transaction of CreateOpening, and the
    sport-name handling of CreateOpening and UpdateOpening.  SQL statements
    are inputs: each appears as the value or error it yields. */
module OpeningRepo {
  import opened Wrappers
  import opened GoStrings
  import opened Errors

  // ------------------------------------------------------------ the filter

  /** A query argument. */
  datatype Arg = Text(text: string) | Number(number: int)

  /** The filter fields that take an argument, in the order the builder
      visits them. */
  datatype FilterField =
    | SportNameField | StatusField | MinAgeField | MaxAgeField | MinSalaryField | MaxSalaryField
    | CountryRestrictionField | CountryField | StateField | CityField | CompanyNameField | PositionField

  const FieldOrder: seq<FilterField> :=
    [SportNameField, StatusField, MinAgeField, MaxAgeField, MinSalaryField, MaxSalaryField,
     CountryRestrictionField, CountryField, StateField, CityField, CompanyNameField, PositionField]

  /** OpeningFilter: a nil pointer is `None`. */
  datatype OpeningFilter = OpeningFilter(
    sportName: Option<string>, status: Option<string>,
    minAge: Option<int>, maxAge: Option<int>, minSalary: Option<int>, maxSalary: Option<int>,
    countryRestriction: Option<string>, country: Option<string>, state: Option<string>,
    city: Option<string>, companyName: Option<string>, position: Option<string>,
    applied: Option<bool>)

  /** The ILIKE fields are matched anywhere in the column. */
  function Pattern(v: string): string
  {
    "%" + v + "%"
  }

  /** The argument a set field contributes; `None` when the field is nil. */
  function FieldArg(f: OpeningFilter, field: FilterField): Option<Arg>
  {
    match field
    case SportNameField => if f.sportName.Some? then Some(Text(f.sportName.value)) else None
    case StatusField => if f.status.Some? then Some(Text(f.status.value)) else None
    case MinAgeField => if f.minAge.Some? then Some(Number(f.minAge.value)) else None
    case MaxAgeField => if f.maxAge.Some? then Some(Number(f.maxAge.value)) else None
    case MinSalaryField => if f.minSalary.Some? then Some(Number(f.minSalary.value)) else None
    case MaxSalaryField => if f.maxSalary.Some? then Some(Number(f.maxSalary.value)) else None
    case CountryRestrictionField =>
      if f.countryRestriction.Some? then Some(Text(f.countryRestriction.value)) else None
    case CountryField => if f.country.Some? then Some(Text(Pattern(f.country.value))) else None
    case StateField => if f.state.Some? then Some(Text(Pattern(f.state.value))) else None
    case CityField => if f.city.Some? then Some(Text(Pattern(f.city.value))) else None
    case CompanyNameField => if f.companyName.Some? then Some(Text(Pattern(f.companyName.value))) else None
    case PositionField => if f.position.Some? then Some(Text(Pattern(f.position.value))) else None
  }

  /** A WHERE condition: a comparison of one field against placeholder
      `$placeholder`, or the applied test, which takes no argument. */
  datatype Condition = Compare(field: FilterField, placeholder: nat) | AppliedIs(applied: bool)

  function Placeholder(k: nat): string
  {
    "$" + NatToString(k)
  }

  /** The SQL text of a condition.  The age, salary and country-restriction
      tests are overlap tests that let a NULL bound through. */
  function ConditionText(c: Condition): string
  {
    match c
    case AppliedIs(b) => if b then "app.id IS NOT NULL" else "app.id IS NULL"
    case Compare(field, k) =>
      match field
      case SportNameField => "s.name = " + Placeholder(k)
      case StatusField => "o.status = " + Placeholder(k)
      case MinAgeField => "(o.max_age IS NULL OR o.max_age >= " + Placeholder(k) + ")"
      case MaxAgeField => "(o.min_age IS NULL OR o.min_age <= " + Placeholder(k) + ")"
      case MinSalaryField => "(o.max_salary IS NULL OR o.max_salary >= " + Placeholder(k) + ")"
      case MaxSalaryField => "(o.min_salary IS NULL OR o.min_salary <= " + Placeholder(k) + ")"
      case CountryRestrictionField =>
        "(o.country_restriction IS NULL OR o.country_restriction = " + Placeholder(k) + ")"
      case CountryField => "a.country ILIKE " + Placeholder(k)
      case StateField => "a.state ILIKE " + Placeholder(k)
      case CityField => "a.city ILIKE " + Placeholder(k)
      case CompanyNameField => "o.company_name ILIKE " + Placeholder(k)
      case PositionField => "o.position ILIKE " + Placeholder(k)
  }

  // ------------------------------------------------- what the builder yields

  /** The arguments the given fields contribute, in order. */
  function PresentArgs(f: OpeningFilter, fields: seq<FilterField>): (r: seq<Arg>)
    ensures |r| <= |fields|
  {
    if fields == [] then []
    else
      var last := fields[|fields| - 1];
      PresentArgs(f, fields[..|fields| - 1])
      + (if FieldArg(f, last).Some? then [FieldArg(f, last).value] else [])
  }

  /** The conditions the given fields contribute, numbered from `first`. */
  function FieldConditions(f: OpeningFilter, fields: seq<FilterField>, first: nat): seq<Condition>
  {
    if fields == [] then []
    else
      var prefix := fields[..|fields| - 1];
      var last := fields[|fields| - 1];
      FieldConditions(f, prefix, first)
      + (if FieldArg(f, last).Some? then [Compare(last, first + |PresentArgs(f, prefix)|)] else [])
  }

  function AppliedConditions(f: OpeningFilter): seq<Condition>
  {
    if f.applied.Some? then [AppliedIs(f.applied.value)] else []
  }

  /** The leading argument: the player, when there is one. */
  function Lead(playerId: Option<string>): seq<Arg>
  {
    if playerId.Some? then [Text(playerId.value)] else []
  }

  /** The placeholder numbers the comparison conditions use, in order. */
  function Placeholders(cs: seq<Condition>): seq<nat>
  {
    if cs == [] then []
    else Placeholders(cs[..|cs| - 1]) + (match cs[|cs| - 1] case Compare(_, k) => [k] case AppliedIs(_) => [])
  }

  /** first, first + 1, ..., last - 1. */
  function Range(first: nat, last: nat): (r: seq<nat>)
    ensures |r| == if last <= first then 0 else last - first
    ensures forall i :: 0 <= i < |r| ==> r[i] == first + i
    decreases last - first
  {
    if last <= first then [] else Range(first, last - 1) + [last - 1]
  }

  lemma PlaceholdersAppend(cs: seq<Condition>, ds: seq<Condition>)
    ensures Placeholders(cs + ds) == Placeholders(cs) + Placeholders(ds)
    decreases |ds|
  {
    if ds == [] {
      assert cs + ds == cs;
    } else {
      assert (cs + ds)[..|cs + ds| - 1] == cs + ds[..|ds| - 1];
      PlaceholdersAppend(cs, ds[..|ds| - 1]);
    }
  }

  /** The comparisons are numbered consecutively from `first`, one per
      argument. */
  lemma {:induction false} FieldPlaceholders(f: OpeningFilter, fields: seq<FilterField>, first: nat)
    ensures Placeholders(FieldConditions(f, fields, first)) == Range(first, first + |PresentArgs(f, fields)|)
    ensures |FieldConditions(f, fields, first)| == |PresentArgs(f, fields)|
    decreases |fields|
  {
    if fields != [] {
      var prefix := fields[..|fields| - 1];
      var last := fields[|fields| - 1];
      FieldPlaceholders(f, prefix, first);
      var cs := FieldConditions(f, prefix, first);
      var n := |PresentArgs(f, prefix)|;
      if FieldArg(f, last).Some? {
        PlaceholdersAppend(cs, [Compare(last, first + n)]);
        assert Placeholders([Compare(last, first + n)]) == [first + n];
      } else {
        assert FieldConditions(f, fields, first) == cs;
        assert PresentArgs(f, fields) == PresentArgs(f, prefix);
      }
    }
  }

  /** Each placeholder stands for its own field's argument. */
  lemma {:induction false} FieldArgsMatch(f: OpeningFilter, fields: seq<FilterField>, first: nat)
    ensures forall c :: c in FieldConditions(f, fields, first) ==>
              c.Compare? && first <= c.placeholder < first + |PresentArgs(f, fields)|
              && FieldArg(f, c.field) == Some(PresentArgs(f, fields)[c.placeholder - first])
    decreases |fields|
  {
    if fields != [] {
      var prefix := fields[..|fields| - 1];
      var last := fields[|fields| - 1];
      FieldArgsMatch(f, prefix, first);
      if FieldArg(f, last).None? {
        assert FieldConditions(f, fields, first) == FieldConditions(f, prefix, first);
        assert PresentArgs(f, fields) == PresentArgs(f, prefix);
      }
    }
  }

  /** The query GetOpeningsByFilter sends: whether it joins the player's
      applications (through `$1`), the WHERE conditions, the arguments, and
      the LIMIT and OFFSET placeholders. */
  datatype FilterQuery = FilterQuery(withPlayer: bool, conditions: seq<Condition>, args: seq<Arg>,
                                     limitPlaceholder: nat, offsetPlaceholder: nat)

  /** " WHERE " and the conditions joined by " AND ", or nothing at all. */
  function WhereClause(cs: seq<Condition>): (r: string)
    ensures r == "" <==> cs == []
    ensures cs != [] ==> HasPrefix(r, " WHERE ")
  {
    if cs == [] then "" else " WHERE " + Join(ConditionTexts(cs), " AND ")
  }

  function ConditionTexts(cs: seq<Condition>): (r: seq<string>)
    ensures |r| == |cs|
  {
    if cs == [] then [] else [ConditionText(cs[0])] + ConditionTexts(cs[1..])
  }

  /** The SQL text, with the select list abbreviated. */
  function QueryText(q: FilterQuery): string
  {
    (if q.withPlayer
     then "SELECT <opening columns>, applied, application_status FROM <openings with sport and address>"
          + " LEFT JOIN \"Application\" app ON o.id = app.opening_id AND app.player_id = " + Placeholder(1)
     else "SELECT <opening columns>, false AS applied, NULL AS application_status FROM <openings with sport and address>")
    + WhereClause(q.conditions)
    + " ORDER BY o.created_at DESC LIMIT " + Placeholder(q.limitPlaceholder)
    + " OFFSET " + Placeholder(q.offsetPlaceholder)
  }

  /** Every placeholder the query text uses, in order of appearance. */
  function UsedPlaceholders(q: FilterQuery): seq<nat>
  {
    (if q.withPlayer then [1] else []) + Placeholders(q.conditions) + [q.limitPlaceholder, q.offsetPlaceholder]
  }

  const ErrAppliedNeedsPlayer :=
    Validation("authentication", "Authentication required to filter by applied status")

  // ---------------------------------------------------------- the builder

  /** The query being built after the blocks of the first k fields: their
      conditions, numbered after the lead arguments, and their arguments. */
  ghost predicate Built(f: OpeningFilter, k: nat, lead: seq<Arg>, conds: seq<Condition>, args: seq<Arg>,
                        argIndex: nat)
    requires k <= |FieldOrder|
  {
    conds == FieldConditions(f, FieldOrder[..k], |lead| + 1)
    && args == lead + PresentArgs(f, FieldOrder[..k]) && argIndex == |args| + 1
  }

  /** One `if filter.X != nil` block of the builder: a set field adds its
      condition, numbered `argIndex`, and its argument. */
  method AddFieldCondition(f: OpeningFilter, ghost k: nat, field: FilterField, ghost lead: seq<Arg>,
                           conds: seq<Condition>, args: seq<Arg>, argIndex: nat)
    returns (conds': seq<Condition>, args': seq<Arg>, argIndex': nat)
    requires k < |FieldOrder| && FieldOrder[k] == field
    requires Built(f, k, lead, conds, args, argIndex)
    ensures Built(f, k + 1, lead, conds', args', argIndex')
  {
    FieldStep(f, FieldOrder, k, |lead| + 1);
    conds', args', argIndex' := conds, args, argIndex;
    var a := FieldArg(f, field);
    if a.Some? {
      conds' := conds' + [Compare(field, argIndex')];
      args' := args' + [a.value];
      argIndex' := argIndex' + 1;
    }
  }

  /** One more field of the list: its block, if the filter sets it, comes
      after the blocks of the fields before it. */
  lemma FieldStep(f: OpeningFilter, fields: seq<FilterField>, k: nat, first: nat)
    requires k < |fields|
    ensures var a := FieldArg(f, fields[k]);
            FieldConditions(f, fields[..k + 1], first)
              == FieldConditions(f, fields[..k], first)
                 + (if a.Some? then [Compare(fields[k], first + |PresentArgs(f, fields[..k])|)] else [])
            && PresentArgs(f, fields[..k + 1]) == PresentArgs(f, fields[..k]) + (if a.Some? then [a.value] else [])
  {
    assert fields[..k + 1][..k] == fields[..k];
  }

  /** The blocks for the sport name, the status and the ages. */
  method AddSportAndAgeConditions(f: OpeningFilter, ghost lead: seq<Arg>, conds: seq<Condition>, args: seq<Arg>, argIndex: nat)
    returns (conds': seq<Condition>, args': seq<Arg>, argIndex': nat)
    requires Built(f, 0, lead, conds, args, argIndex)
    ensures Built(f, 4, lead, conds', args', argIndex')
  {
    conds', args', argIndex' := conds, args, argIndex;
    conds', args', argIndex' := AddFieldCondition(f, 0, SportNameField, lead, conds', args', argIndex');
    conds', args', argIndex' := AddFieldCondition(f, 1, StatusField, lead, conds', args', argIndex');
    conds', args', argIndex' := AddFieldCondition(f, 2, MinAgeField, lead, conds', args', argIndex');
    conds', args', argIndex' := AddFieldCondition(f, 3, MaxAgeField, lead, conds', args', argIndex');
  }

  /** The blocks for the salaries, the country restriction and the country. */
  method AddSalaryAndCountryConditions(f: OpeningFilter, ghost lead: seq<Arg>, conds: seq<Condition>, args: seq<Arg>, argIndex: nat)
    returns (conds': seq<Condition>, args': seq<Arg>, argIndex': nat)
    requires Built(f, 4, lead, conds, args, argIndex)
    ensures Built(f, 8, lead, conds', args', argIndex')
  {
    conds', args', argIndex' := conds, args, argIndex;
    conds', args', argIndex' := AddFieldCondition(f, 4, MinSalaryField, lead, conds', args', argIndex');
    conds', args', argIndex' := AddFieldCondition(f, 5, MaxSalaryField, lead, conds', args', argIndex');
    conds', args', argIndex' := AddFieldCondition(f, 6, CountryRestrictionField, lead, conds', args', argIndex');
    conds', args', argIndex' := AddFieldCondition(f, 7, CountryField, lead, conds', args', argIndex');
  }

  /** The blocks for the state, the city, the company and the position. */
  method AddPlaceConditions(f: OpeningFilter, ghost lead: seq<Arg>, conds: seq<Condition>, args: seq<Arg>, argIndex: nat)
    returns (conds': seq<Condition>, args': seq<Arg>, argIndex': nat)
    requires Built(f, 8, lead, conds, args, argIndex)
    ensures Built(f, 12, lead, conds', args', argIndex')
  {
    conds', args', argIndex' := conds, args, argIndex;
    conds', args', argIndex' := AddFieldCondition(f, 8, StateField, lead, conds', args', argIndex');
    conds', args', argIndex' := AddFieldCondition(f, 9, CityField, lead, conds', args', argIndex');
    conds', args', argIndex' := AddFieldCondition(f, 10, CompanyNameField, lead, conds', args', argIndex');
    conds', args', argIndex' := AddFieldCondition(f, 11, PositionField, lead, conds', args', argIndex');
  }

  /** GetOpeningsByFilter, up to sending the query.  Filtering on applied
      status needs a player; the player's id is `$1` and the filter's
      placeholders follow it. */
  method BuildFilterQuery(f: OpeningFilter, limit: int, offset: int, playerId: Option<string>)
    returns (r: Result<FilterQuery, Error>)
    ensures r.Failure? <==> f.applied.Some? && playerId.None?
    ensures r.Failure? ==> r.error == ErrAppliedNeedsPlayer
    ensures r.Ok? ==>
              var q := r.value;
              q.withPlayer == playerId.Some?
              && q.args == Lead(playerId) + PresentArgs(f, FieldOrder) + [Number(limit), Number(offset)]
              && q.conditions == FieldConditions(f, FieldOrder, |Lead(playerId)| + 1) + AppliedConditions(f)
              && q.limitPlaceholder == |q.args| - 1 && q.offsetPlaceholder == |q.args|
  {
    if f.applied.Some? && playerId.None? {
      return Failure(ErrAppliedNeedsPlayer);
    }
    var conds: seq<Condition> := [];
    var args: seq<Arg> := [];
    var argIndex: nat := 1;
    if playerId.Some? {
      args := args + [Text(playerId.value)];
      argIndex := argIndex + 1;
    }
    ghost var lead := args;
    assert FieldOrder[..0] == [];
    conds, args, argIndex := AddSportAndAgeConditions(f, lead, conds, args, argIndex);
    conds, args, argIndex := AddSalaryAndCountryConditions(f, lead, conds, args, argIndex);
    conds, args, argIndex := AddPlaceConditions(f, lead, conds, args, argIndex);
    assert FieldOrder[..12] == FieldOrder;
    if f.applied.Some? {
      conds := conds + [AppliedIs(f.applied.value)];
    }
    var limitAt := argIndex;
    args := args + [Number(limit), Number(offset)];
    return Ok(FilterQuery(playerId.Some?, conds, args, limitAt, limitAt + 1));
  }

  lemma RangeConcat(a: nat, b: nat, c: nat)
    requires a <= b <= c
    ensures Range(a, b) + Range(b, c) == Range(a, c)
  {
    assert forall i :: 0 <= i < c - a ==> (Range(a, b) + Range(b, c))[i] == a + i;
  }

  /** The conditions' placeholders run from the first one after the lead. */
  lemma ConditionPlaceholders(f: OpeningFilter, fields: seq<FilterField>, first: nat)
    ensures Placeholders(FieldConditions(f, fields, first) + AppliedConditions(f))
            == Range(first, first + |PresentArgs(f, fields)|)
  {
    FieldPlaceholders(f, fields, first);
    PlaceholdersAppend(FieldConditions(f, fields, first), AppliedConditions(f));
    assert Placeholders(AppliedConditions(f)) == [] by {
      if f.applied.Some? {
        assert AppliedConditions(f) == [] + [AppliedIs(f.applied.value)];
      }
    }
  }

  lemma RangeOfOne(a: nat)
    ensures Range(a, a + 1) == [a]
  {
  }

  lemma RangeOfTwo(a: nat)
    ensures Range(a, a + 2) == [a, a + 1]
  {
    assert Range(a, a + 2) == Range(a, a + 1) + [a + 1];
  }

  /** Every placeholder $1 .. $|args| is used exactly once, in increasing
      order. */
  lemma PlaceholdersConsecutive(f: OpeningFilter, limit: int, offset: int, playerId: Option<string>,
                                fields: seq<FilterField>, q: FilterQuery)
    requires q.withPlayer == playerId.Some?
    requires q.args == Lead(playerId) + PresentArgs(f, fields) + [Number(limit), Number(offset)]
    requires q.conditions == FieldConditions(f, fields, |Lead(playerId)| + 1) + AppliedConditions(f)
    requires q.limitPlaceholder == |q.args| - 1 && q.offsetPlaceholder == |q.args|
    ensures UsedPlaceholders(q) == Range(1, |q.args| + 1)
  {
    var first := |Lead(playerId)| + 1;
    var n := |PresentArgs(f, fields)|;
    ConditionPlaceholders(f, fields, first);
    RangeOfTwo(first + n);
    if q.withPlayer {
      RangeOfOne(1);
    }
    RangeConcat(1, first, first + n);
    RangeConcat(1, first + n, first + n + 2);
  }

  /** Each comparison's placeholder stands for its own field's argument,
      and the last two arguments are the limit and the offset. */
  lemma PlaceholdersMatchArgs(f: OpeningFilter, limit: int, offset: int, playerId: Option<string>,
                              fields: seq<FilterField>, q: FilterQuery)
    requires q.args == Lead(playerId) + PresentArgs(f, fields) + [Number(limit), Number(offset)]
    requires q.conditions == FieldConditions(f, fields, |Lead(playerId)| + 1) + AppliedConditions(f)
    ensures forall c :: c in q.conditions && c.Compare? ==>
              1 <= c.placeholder <= |q.args| && FieldArg(f, c.field) == Some(q.args[c.placeholder - 1])
    ensures q.args[|q.args| - 2..] == [Number(limit), Number(offset)]
  {
    var first := |Lead(playerId)| + 1;
    var cs := FieldConditions(f, fields, first);
    FieldArgsMatch(f, fields, first);
    forall c | c in q.conditions && c.Compare?
      ensures 1 <= c.placeholder <= |q.args| && FieldArg(f, c.field) == Some(q.args[c.placeholder - 1])
    {
      assert c in cs;
      assert q.args[c.placeholder - 1] == PresentArgs(f, fields)[c.placeholder - first];
    }
  }

  /** Each set field contributes exactly one comparison; applied adds one
      condition and no argument; the text has WHERE only with conditions. */
  lemma ConditionCount(f: OpeningFilter, playerId: Option<string>)
    ensures |FieldConditions(f, FieldOrder, |Lead(playerId)| + 1) + AppliedConditions(f)|
            == |PresentArgs(f, FieldOrder)| + (if f.applied.Some? then 1 else 0)
  {
    FieldPlaceholders(f, FieldOrder, |Lead(playerId)| + 1);
  }

  // --------------------------------------------------- creating an opening

  const ErrEmptySportName := Validation("sportname", "Sport name cannot be empty")

  /** CreateOpening's sport name: trimmed, refused when empty, lower-cased. */
  function NormalizeSportName(name: string): (r: Result<string, Error>)
    ensures r.Failure? <==> IsBlank(name)
    ensures r.Failure? ==> r.error == ErrEmptySportName
    ensures r.Ok? ==> r.value == ToLower(TrimSpace(name)) && r.value != ""
  {
    TrimSpaceEmptyIffBlank(name);
    var t := TrimSpace(name);
    if t == "" then Failure(ErrEmptySportName) else Ok(ToLower(t))
  }

  /** Normalising a normalised name changes nothing. */
  lemma NormalizeSportNameIdempotent(name: string)
    requires NormalizeSportName(name).Ok?
    ensures NormalizeSportName(NormalizeSportName(name).value) == NormalizeSportName(name)
  {
    var t := TrimSpace(name);
    var v := ToLower(t);
    LowerKeepsSpace(t);
    TrimSpaceOfTrimmed(v);
    TrimSpaceEmptyIffBlank(v);
    ToLowerIdempotent(t);
  }

  /** The statements of CreateOpening, as what each yields. */
  datatype CreateEnv = CreateEnv(
    beginErr: Option<Error>,
    sportLookup: string -> RowResult<string>,   // SELECT id FROM "Sports" WHERE name = $1
    sportInsert: Result<string, Error>,           // INSERT INTO "Sports", on no rows
    addressInsert: Result<string, Error>,
    marshalErr: Option<Error>,                    // json.Marshal of the stats
    openingInsert: Result<string, Error>,
    commitErr: Option<Error>)

  /** What a transaction did: the error returned, whether it committed, and
      what it had written (a new sport row, a new address row, the opening). */
  datatype CreateOutcome = CreateOutcome(result: Result<string, Error>, committed: bool,
                                         sportWritten: bool, addressWritten: bool, openingWritten: bool)
  {
    /** The rows that survive the call. */
    predicate Persisted() { committed && (sportWritten || addressWritten || openingWritten) }
  }

  /** The statements up to and including the opening insert; `local` is the
      value of the function's `err` variable when it returns, which is what
      the deferred handler looks at. */
  datatype Steps = Steps(result: Result<string, Error>, local: Option<Error>,
                         sport: bool, address: bool, opening: bool)

  function CreateSteps(name: string, env: CreateEnv): (r: Steps)
    ensures r.result.Ok? ==> r.opening && r.result == env.openingInsert && NormalizeSportName(name).Ok?
    ensures r.result.Ok? <==> NormalizeSportName(name).Ok? && env.marshalErr.None? && env.addressInsert.Ok?
                              && env.openingInsert.Ok?
                              && match env.sportLookup(NormalizeSportName(name).value)
                                 case Row(_) => true
                                 case NoRows => env.sportInsert.Ok?
                                 case RowFailed(_) => false
    ensures r.sport <==> NormalizeSportName(name).Ok? && env.sportLookup(NormalizeSportName(name).value).NoRows?
                         && env.sportInsert.Ok?
  {
    match NormalizeSportName(name)
    case Failure(e) => Steps(Failure(e), None, false, false, false)
    case Ok(sname) =>
      var sport :=
        match env.sportLookup(sname)
        case Row(id) => Ok((id, false))
        case NoRows =>
          (match env.sportInsert
           case Ok(id) => Ok((id, true))
           case Failure(e) => Failure(Database("insert", "sport", e)))
        case RowFailed(e) => Failure(Database("query", "sport", e));
      if sport.Failure? then Steps(Failure(sport.error), Some(sport.error), false, false, false)
      else
        var inserted := sport.value.1;
        match env.addressInsert
        case Failure(e) => Steps(Failure(Database("insert", "saddress", e)), Some(e), inserted, false, false)
        case Ok(_) =>
          if env.marshalErr.Some? then
            // the marshal error is held in a shadowing variable
            Steps(Failure(Database("marshal", "stats", env.marshalErr.value)), None, inserted, true, false)
          else
            match env.openingInsert
            case Failure(e) => Steps(Failure(Database("insert", "opening", e)), Some(e), inserted, true, false)
            case Ok(id) => Steps(Ok(id), None, inserted, true, true)
  }

  /** CreateOpening as written: the deferred handler commits when `err` is
      nil, and the commit error it records is never returned, because the
      results are not named. */
  function CreateOpeningAsWritten(name: string, env: CreateEnv): (r: CreateOutcome)
    ensures env.beginErr.Some? ==> r.result.Failure? && !r.Persisted()
    ensures env.beginErr.None? ==>
              r.result == CreateSteps(name, env).result
              && r.committed == (CreateSteps(name, env).local.None? && env.commitErr.None?)
  {
    if env.beginErr.Some? then
      CreateOutcome(Failure(Database("begin", "transaction", env.beginErr.value)), false, false, false, false)
    else
      var s := CreateSteps(name, env);
      CreateOutcome(s.result, s.local.None? && env.commitErr.None?, s.sport, s.address, s.opening)
  }

  /** A failed commit is reported as a created opening that does not exist. */
  lemma CommitFailureReportedAsSuccess(name: string, env: CreateEnv)
    requires env.beginErr.None? && env.commitErr.Some? && !IsBlank(name)
    requires env.sportLookup(ToLower(TrimSpace(name))).Row?
    requires env.addressInsert.Ok? && env.marshalErr.None? && env.openingInsert.Ok?
    ensures CreateOpeningAsWritten(name, env).result == Ok(env.openingInsert.value)
    ensures !CreateOpeningAsWritten(name, env).Persisted()
  {
  }

  /** A stats marshalling failure is returned, yet the sport and address
      rows written before it are committed. */
  lemma MarshalFailureCommits(name: string, env: CreateEnv)
    requires env.beginErr.None? && env.commitErr.None? && !IsBlank(name)
    requires env.sportLookup(ToLower(TrimSpace(name))).Row?
    requires env.addressInsert.Ok? && env.marshalErr.Some?
    ensures CreateOpeningAsWritten(name, env).result.Failure?
    ensures CreateOpeningAsWritten(name, env).Persisted()
  {
  }

  /** CreateOpening with the transaction settled by its own outcome: it
      commits only after every step succeeded, and a failed commit is
      returned. */
  function CreateOpening(name: string, env: CreateEnv): (r: CreateOutcome)
    ensures r.result.Ok? <==> r.committed
    ensures r.result.Failure? ==> !r.Persisted()
    ensures r.result.Ok? ==> r.openingWritten && r.result == env.openingInsert
    ensures r.result.Ok? ==> NormalizeSportName(name).Ok?
  {
    if env.beginErr.Some? then
      CreateOutcome(Failure(Database("begin", "transaction", env.beginErr.value)), false, false, false, false)
    else
      var s := CreateSteps(name, env);
      if s.result.Failure? then CreateOutcome(s.result, false, s.sport, s.address, s.opening)
      else if env.commitErr.Some? then
        CreateOutcome(Failure(Database("Failed to commit transaction", "transaction", env.commitErr.value)),
                      false, s.sport, s.address, s.opening)
      else CreateOutcome(s.result, true, s.sport, s.address, s.opening)
  }

  /** The two agree whenever nothing fails after the statements. */
  lemma CreateOpeningAgrees(name: string, env: CreateEnv)
    requires env.commitErr.None? && env.marshalErr.None?
    ensures CreateOpening(name, env).result == CreateOpeningAsWritten(name, env).result
  {
  }

  // ------------------------------------------------------ the Sports table

  /** A row of the "Sports" table. */
  datatype SportRow = SportRow(id: string, name: string)

  /** The position of the first row with that name, or |sports| when none
      has it: what `SELECT id FROM "Sports" WHERE name = $1` finds. */
  function SportIndex(sports: seq<SportRow>, name: string): (r: nat)
    ensures r <= |sports|
    ensures r < |sports| ==> sports[r].name == name
    ensures forall i :: 0 <= i < r ==> sports[i].name != name
  {
    if |sports| == 0 then 0
    else if sports[0].name == name then 0
    else 1 + SportIndex(sports[1..], name)
  }

  /** The SELECT over a table, as the statement result CreateSteps meets. */
  function TableLookup(sports: seq<SportRow>, name: string): (r: RowResult<string>)
    ensures r.RowFailed? == false
    ensures r.NoRows? <==> SportIndex(sports, name) == |sports|
    ensures r.Row? ==> r.value == sports[SportIndex(sports, name)].id
  {
    var i := SportIndex(sports, name);
    if i < |sports| then Row(sports[i].id) else NoRows
  }

  /** The lookup-or-insert both CreateOpening and UpdateOpening run: the id
      of the row with that name, or the id of a new row inserted under it. */
  function LookupOrInsert(sports: seq<SportRow>, name: string, newId: string): (r: (string, seq<SportRow>))
    ensures |sports| <= |r.1| <= |sports| + 1 && r.1[..|sports|] == sports
    ensures |r.1| == |sports| + 1 <==> SportIndex(sports, name) == |sports|
    ensures |r.1| == |sports| + 1 ==> r.1[|sports|] == SportRow(newId, name)
    ensures SportIndex(r.1, name) < |r.1| && r.1[SportIndex(r.1, name)].id == r.0
  {
    var i := SportIndex(sports, name);
    if i < |sports| then (sports[i].id, sports)
    else
      var t := sports + [SportRow(newId, name)];
      assert SportIndex(t, name) == |sports| by { SportIndexAppend(sports, SportRow(newId, name), name); }
      (newId, t)
  }

  /** Appending a row keeps the rows already found and finds the new one
      only when no earlier row has the name. */
  lemma {:induction false} SportIndexAppend(sports: seq<SportRow>, row: SportRow, name: string)
    ensures SportIndex(sports, name) < |sports| ==> SportIndex(sports + [row], name) == SportIndex(sports, name)
    ensures SportIndex(sports, name) == |sports| ==>
              SportIndex(sports + [row], name) == (if row.name == name then |sports| else |sports| + 1)
    decreases |sports|
  {
    if |sports| > 0 && sports[0].name != name {
      assert (sports + [row])[1..] == sports[1..] + [row];
      SportIndexAppend(sports[1..], row, name);
    }
  }

  /** Looking a name up again after the lookup-or-insert finds the same id
      and inserts nothing. */
  lemma LookupOrInsertIdempotent(sports: seq<SportRow>, name: string, newId: string, otherId: string)
    ensures var first := LookupOrInsert(sports, name, newId);
            LookupOrInsert(first.1, name, otherId) == first
  {
  }

  /** CreateOpening's sport step over the table: the name is normalised
      first, then looked up or inserted. */
  function CreateOpeningSport(sports: seq<SportRow>, name: string, newId: string)
    : (r: Result<(string, seq<SportRow>), Error>)
    ensures r.Failure? <==> IsBlank(name)
    ensures r.Failure? ==> r.error == ErrEmptySportName
    ensures r.Ok? ==> r.value == LookupOrInsert(sports, NormalizeSportName(name).value, newId)
  {
    match NormalizeSportName(name)
    case Failure(e) => Failure(e)
    case Ok(sname) => Ok(LookupOrInsert(sports, sname, newId))
  }

  /** CreateSteps meeting a real table: a sport row is written exactly when
      the normalised name is new to the table. */
  lemma CreateStepsOverTable(sports: seq<SportRow>, name: string, env: CreateEnv)
    requires forall n :: env.sportLookup(n) == TableLookup(sports, n)
    requires env.sportInsert.Ok?
    ensures CreateSteps(name, env).sport <==>
              NormalizeSportName(name).Ok? && SportIndex(sports, NormalizeSportName(name).value) == |sports|
  {
    var r := CreateSteps(name, env);
    if NormalizeSportName(name).Ok? {
      var sname := NormalizeSportName(name).value;
      assert env.sportLookup(sname) == TableLookup(sports, sname);
      assert r.sport <==> TableLookup(sports, sname).NoRows?;
    }
  }

  /** UpdateOpening's sport step: the name is looked up exactly as given,
      neither trimmed nor lower-cased.  `queryErr` is a failure of the
      SELECT other than no rows, `insertErr` one of the INSERT. */
  function UpdateSportName(sports: seq<SportRow>, name: string, queryErr: Option<Error>,
                           insertErr: Option<Error>, newId: string)
    : (r: Result<(string, seq<SportRow>), Error>)
    ensures queryErr.Some? ==> r == Failure(Database("query", "sport", queryErr.value))
    ensures queryErr.None? && SportIndex(sports, name) == |sports| && insertErr.Some? ==>
              r == Failure(Database("insert", "sport", insertErr.value))
    ensures r.Ok? <==> queryErr.None? && (SportIndex(sports, name) < |sports| || insertErr.None?)
    ensures r.Ok? ==> r.value == LookupOrInsert(sports, name, newId)
  {
    if queryErr.Some? then Failure(Database("query", "sport", queryErr.value))
    else if SportIndex(sports, name) == |sports| && insertErr.Some? then
      Failure(Database("insert", "sport", insertErr.value))
    else Ok(LookupOrInsert(sports, name, newId))
  }

  /** A name with a leading space, which CreateOpening stores trimmed, is
      looked up by UpdateOpening under another name. */
  lemma CreateAndUpdateNamesDiffer(name: string)
    requires name != [] && IsSpace(name[0]) && !IsBlank(name)
    ensures NormalizeSportName(name).Ok?
    ensures NormalizeSportName(name).value != name
  {
    var t := TrimSpace(name);
    TrimSpaceEmptyIffBlank(name);
    LowerKeepsSpace(t);
    assert !IsSpace(ToLower(t)[0]);
  }

  /** So after CreateOpening stores such a name, UpdateOpening with the
      same name inserts a second sport row under the raw name, exactly when
      the table had no row under it, and the opening moves to that row. */
  lemma CreateThenUpdateAddsSport(sports: seq<SportRow>, name: string, createId: string, updateId: string)
    requires name != [] && IsSpace(name[0]) && !IsBlank(name)
    ensures var created := CreateOpeningSport(sports, name, createId);
            created.Ok?
            && var updated := UpdateSportName(created.value.1, name, None, None, updateId);
               updated.Ok?
               && (SportIndex(sports, name) == |sports| ==>
                     updated.value == (updateId, created.value.1 + [SportRow(updateId, name)]))
               && (SportIndex(sports, name) < |sports| ==> updated.value.1 == created.value.1)
  {
    CreateAndUpdateNamesDiffer(name);
    var sname := NormalizeSportName(name).value;
    var c := LookupOrInsert(sports, sname, createId);
    if SportIndex(sports, sname) == |sports| {
      SportIndexAppend(sports, SportRow(createId, sname), name);
    }
    assert SportIndex(c.1, name) == |c.1| <==> SportIndex(sports, name) == |sports|;
  }
}
