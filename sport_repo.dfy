/** The sport-name normalisation of the sport repository
    (internals/db/repositories/sport_repository.go) and the two operations
    that go through it. */
module SportRepo {
  import opened Wrappers
  import opened GoStrings
  import opened Errors

  const ForbiddenChars := "!@#$%^&*()+"
  const ErrInvalidSportName := Validation("sport", "Invalid name")

  /** sanitizeSportName: trim spaces at both ends, turn the remaining spaces
      into underscores, refuse the forbidden characters, lower-case. */
  function SanitizeSportName(name: string): (r: Result<string, Error>)
    ensures r.Failure? <==> ContainsAny(Underscored(name), ForbiddenChars)
    ensures r.Failure? ==> r.error == ErrInvalidSportName
    ensures r.Ok? ==> |r.value| == |Underscored(name)|
                      && forall i :: 0 <= i < |r.value| ==> r.value[i] == LowerChar(Underscored(name)[i])
  {
    var spaced := Underscored(name);
    if ContainsAny(spaced, ForbiddenChars) then Failure(ErrInvalidSportName)
    else Ok(ToLower(spaced))
  }

  /** The name with the spaces at its ends trimmed and the others turned
      into underscores. */
  function Underscored(name: string): (r: string)
    ensures ' ' !in r
  {
    ReplaceChar(TrimChar(name, ' '), ' ', '_')
  }

  /** An accepted name has neither spaces nor upper-case letters, nor any
      forbidden character. */
  lemma SanitizedShape(name: string)
    requires SanitizeSportName(name).Ok?
    ensures var s := SanitizeSportName(name).value;
            forall i :: 0 <= i < |s| ==> s[i] != ' ' && !IsUpper(s[i]) && s[i] !in ForbiddenChars
  {
    var spaced := Underscored(name);
    var s := SanitizeSportName(name).value;
    forall i | 0 <= i < |s|
      ensures s[i] != ' ' && !IsUpper(s[i]) && s[i] !in ForbiddenChars
    {
      assert spaced[i] != ' ' && spaced[i] !in ForbiddenChars;
      LowerStaysAllowed(spaced[i]);
    }
  }

  /** Lower-casing an allowed character that is not a space gives one. */
  lemma LowerStaysAllowed(c: char)
    requires c != ' ' && c !in ForbiddenChars
    ensures LowerChar(c) != ' ' && !IsUpper(LowerChar(c)) && LowerChar(c) !in ForbiddenChars
  {
    if IsUpper(c) {
      assert forall k :: 0 <= k < |ForbiddenChars| ==> ForbiddenChars[k] < 'a';
    }
  }

  /** Sanitising a sanitised name changes nothing. */
  lemma SanitizeIdempotent(name: string)
    requires SanitizeSportName(name).Ok?
    ensures SanitizeSportName(SanitizeSportName(name).value) == SanitizeSportName(name)
  {
    var s := SanitizeSportName(name).value;
    SanitizedShape(name);
    assert ' ' !in s;
    assert TrimChar(s, ' ') == s;
    ReplaceAbsent(s, ' ', '_');
    assert Underscored(s) == s;
    assert !ContainsAny(s, ForbiddenChars);
    assert ToLower(s) == s;
  }

  /** An empty or all-space name is accepted and becomes the empty name. */
  lemma BlankNameAccepted(n: nat)
    ensures SanitizeSportName(seq(n, _ => ' ')) == Ok("")
  {
  }

  datatype Sport = Sport(id: string, name: string, description: string)

  /** GetSportByName: the lookup uses the sanitised name, and a missing row
      is reported with the name as given. */
  function GetSportByName(name: string, lookup: string -> RowResult<Sport>): (r: Result<Sport, Error>)
    ensures SanitizeSportName(name).Failure? ==> r == Failure(ErrInvalidSportName)
    ensures SanitizeSportName(name).Ok? ==>
              var row := lookup(SanitizeSportName(name).value);
              (row.Row? ==> r == Ok(row.value))
              && (row.NoRows? ==> r == Failure(NotFound("sport", name)))
              && (row.RowFailed? ==> r == Failure(row.error))
  {
    match SanitizeSportName(name)
    case Failure(e) => Failure(e)
    case Ok(sname) =>
      match lookup(sname)
      case Row(s) => Ok(s)
      case NoRows => Failure(NotFound("sport", name))
      case RowFailed(e) => Failure(e)
  }

  /** CreateSport: the sanitised name is inserted; `insert` stands for the
      INSERT and yields the new id or the driver error.  A unique violation
      on the name becomes an already-exists error naming the stored name. */
  function CreateSport(name: string, description: string, insert: (string, string) -> Result<string, Error>)
    : (r: Result<string, Error>)
    ensures SanitizeSportName(name).Failure? ==> r == Failure(ErrInvalidSportName)
    ensures SanitizeSportName(name).Ok? ==>
              var sname := SanitizeSportName(name).value;
              var ins := insert(sname, description);
              (ins.Ok? ==> r == ins)
              && (ins.Failure? && IsUniqueConstraintError(Some(ins.error), "name") ==>
                    r == Failure(AlreadyExists("sport", "name", sname)))
              && (ins.Failure? && !IsUniqueConstraintError(Some(ins.error), "name") ==> r == ins)
  {
    match SanitizeSportName(name)
    case Failure(e) => Failure(e)
    case Ok(sname) =>
      match insert(sname, description)
      case Ok(id) => Ok(id)
      case Failure(e) =>
        if IsUniqueConstraintError(Some(e), "name") then Failure(AlreadyExists("sport", "name", sname))
        else Failure(e)
  }

  /** Names that differ only in surrounding spaces are stored and looked up
      as one. */
  lemma SameSportName(a: string, b: string)
    requires TrimChar(a, ' ') == TrimChar(b, ' ')
    ensures SanitizeSportName(a) == SanitizeSportName(b)
  {
  }
}
