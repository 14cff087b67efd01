/** The string-valued enumerations of model/types.go and the role parser. */
module ModelTypes {
  import opened Wrappers
  import opened Errors

  datatype Role = AdminRole | PlayerRole | RecruiterRole
  {
    function Name(): string
    {
      match this
      case AdminRole => "admin"
      case PlayerRole => "player"
      case RecruiterRole => "recruiter"
    }
  }

  /** ParseRole: exactly the three role names, compared case-sensitively;
      anything else is an error (the source returns it with the empty role). */
  function ParseRole(s: string): (r: Result<Role, Error>)
    ensures r.Ok? <==> s == "admin" || s == "player" || s == "recruiter"
    ensures r.Ok? ==> r.value.Name() == s
    ensures r.Failure? ==> r.error == Plain("invalid role: " + s)
  {
    if s == "admin" then Ok(AdminRole)
    else if s == "player" then Ok(PlayerRole)
    else if s == "recruiter" then Ok(RecruiterRole)
    else Failure(Plain("invalid role: " + s))
  }

  /** Parsing a role's name gives the role back. */
  lemma ParseRoleName(role: Role)
    ensures ParseRole(role.Name()) == Ok(role)
  {
  }

  /** Case matters: "Admin" is not a role. */
  lemma ParseRoleCaseSensitive()
    ensures ParseRole("Admin").Failure? && ParseRole("PLAYER").Failure?
  {
    assert "Admin"[0] != "admin"[0];
    assert "PLAYER"[0] != "player"[0];
  }

  datatype Gender = Male | Female | Other | RatherNotSay
  {
    function Name(): string
    {
      match this
      case Male => "male"
      case Female => "female"
      case Other => "other"
      case RatherNotSay => "rather_not_say"
    }
  }

  datatype Level = DistrictLevel | StateLevel | CountryLevel | InternationalLevel | PersonalLevel
  {
    function Name(): string
    {
      match this
      case DistrictLevel => "district"
      case StateLevel => "state"
      case CountryLevel => "country"
      case InternationalLevel => "international"
      case PersonalLevel => "personal"
    }
  }

  datatype TournamentStatus = Scheduled | Started | Ended | Cancelled
  {
    function Name(): string
    {
      match this
      case Scheduled => "scheduled"
      case Started => "started"
      case Ended => "ended"
      case Cancelled => "cancelled"
    }
  }

  datatype ParticipationStatus = Pending | Accepted | Rejected
  {
    function Name(): string
    {
      match this
      case Pending => "pending"
      case Accepted => "accepted"
      case Rejected => "rejected"
    }
  }

  const GenderNames: seq<string> := ["male", "female", "other", "rather_not_say"]
  const LevelNames: seq<string> := ["district", "state", "country", "international", "personal"]
  const TournamentStatusNames: seq<string> := ["scheduled", "started", "ended", "cancelled"]
  const ParticipationStatusNames: seq<string> := ["pending", "accepted", "rejected"]

  /** The name tables list every value exactly once: 4 genders, 5 levels,
      4 tournament statuses and 3 participation statuses. */
  lemma EnumTables(g: Gender, l: Level, t: TournamentStatus, p: ParticipationStatus)
    ensures |GenderNames| == 4 && g.Name() in GenderNames
    ensures |LevelNames| == 5 && l.Name() in LevelNames
    ensures |TournamentStatusNames| == 4 && t.Name() in TournamentStatusNames
    ensures |ParticipationStatusNames| == 3 && p.Name() in ParticipationStatusNames
  {
  }

  /** Distinct values have distinct names. */
  lemma NamesInjective(g1: Gender, g2: Gender, l1: Level, l2: Level)
    ensures g1.Name() == g2.Name() ==> g1 == g2
    ensures l1.Name() == l2.Name() ==> l1 == l2
  {
  }
}
