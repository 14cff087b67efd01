/** The profile repository (internals/db/repositories/user_profile_repoitory.go):
    profile creation with its precondition chain, the role dispatch of the
    profile read, the profile update and the referral reward.  The tables are
    maps held by a store; each method is one transaction, so a failure at any
    statement leaves every table as it was.  Which statement fails, if any,
    is an input. */
module UserProfileRepo {
  import opened Wrappers
  import opened GoStrings
  import opened Errors
  import opened ModelTypes

  /** The columns of "UserDetails" a profile carries. */
  datatype Details = Details(
    userName: string, profilePicture: Option<string>, name: string, middleName: Option<string>,
    surname: string, dob: string, gender: string, about: Option<string>, referralCode: Option<string>)

  datatype PlayerInfo = PlayerInfo(level: string, interestLevel: string, interestCountry: Option<string>)

  datatype RecruiterInfo = RecruiterInfo(organizationName: string, organizationId: string,
                                         phoneNumber: string, position: string)

  /** A *model.Player or a *model.Recruiter. */
  datatype Profile =
    | PlayerProfile(id: string, details: Details, player: PlayerInfo)
    | RecruiterProfile(id: string, details: Details, recruiter: RecruiterInfo)
  {
    /** The role a profile of this kind belongs to. */
    function Role(): Role
    {
      if PlayerProfile? then PlayerRole else RecruiterRole
    }
  }

  /** A "UserDetails" row: the profile's columns plus the referral columns
      that only ReferUser writes. */
  datatype DetailsRow = DetailsRow(details: Details, referredBy: Option<string>, coins: int)

  /** The statements of the transactions; a fault names the one that fails. */
  datatype Step =
    | Begin | SelectRole | SelectExists | InsertDetails | InsertProfile
    | TouchUser | UpdateDetails | UpdateProfileRow
    | SelectReferrer | SetReferredBy | SelectReward | AddCoins
    | SelectProfile | Commit

  type Fault = Option<(Step, Error)>

  predicate FailsAt(f: Fault, s: Step)
  {
    f.Some? && f.value.0 == s
  }

  /** Whether the fault is at one of the statements each operation runs. */
  predicate CreateFault(f: Fault)
  {
    f.Some? && (f.value.0.Begin? || f.value.0.SelectRole? || f.value.0.SelectExists? || f.value.0.InsertDetails?
                || f.value.0.InsertProfile? || f.value.0.Commit?)
  }

  predicate UpdateFault(f: Fault)
  {
    f.Some? && (f.value.0.Begin? || f.value.0.TouchUser? || f.value.0.UpdateDetails? || f.value.0.UpdateProfileRow?
                || f.value.0.Commit?)
  }

  predicate ReferFault(f: Fault)
  {
    f.Some? && (f.value.0.Begin? || f.value.0.SelectReferrer? || f.value.0.SetReferredBy? || f.value.0.SelectReward?
                || f.value.0.AddCoins? || f.value.0.Commit?)
  }

  const ErrInvalidProfileType := Validation("profile_type", "invalid profile type provided")
  const ErrMissingUserId := Validation("user_id", "user ID is missing from the profile")

  /** The type switch and the id check that open CreateUserProfile and
      UpdateProfile; `None` is a value of any other type. */
  function CheckProfile(profile: Option<Profile>): (r: Result<Profile, Error>)
    ensures r.Ok? <==> profile.Some? && profile.value.id != ""
    ensures r.Ok? ==> r.value == profile.value
    ensures profile.None? ==> r == Failure(ErrInvalidProfileType)
    ensures profile.Some? && profile.value.id == "" ==> r == Failure(ErrMissingUserId)
  {
    if profile.None? then Failure(ErrInvalidProfileType)
    else if profile.value.id == "" then Failure(ErrMissingUserId)
    else Ok(profile.value)
  }

  /** The table a profile's own row lives in. */
  function ProfileTable(p: Profile): string
  {
    if p.PlayerProfile? then "Player" else "Recruiter"
  }

  /** No two "UserDetails" rows share a referral code. */
  ghost predicate UniqueCodes(details: map<string, DetailsRow>)
  {
    forall a, b ::
      a in details && b in details && details[a].details.referralCode.Some?
      && details[a].details.referralCode == details[b].details.referralCode
      ==> a == b
  }

  /** Whether some row already holds the code. */
  predicate CodeTaken(details: map<string, DetailsRow>, code: Option<string>)
  {
    code.Some? && exists id :: id in details && details[id].details.referralCode == code
  }

  /** The row whose referral code is `code`, as the referrer lookup finds it. */
  ghost function Referrer(details: map<string, DetailsRow>, code: string): (r: Option<string>)
    ensures r.Some? <==> CodeTaken(details, Some(code))
    ensures r.Some? ==> r.value in details && details[r.value].details.referralCode == Some(code)
  {
    if CodeTaken(details, Some(code)) then
      var id :| id in details && details[id].details.referralCode == Some(code);
      Some(id)
    else None
  }

  /** The reward read from the "Meta" table and converted with strconv.Atoi. */
  function Reward(meta: map<string, string>, fault: Fault): (r: Result<int, Error>)
    ensures FailsAt(fault, SelectReward) ==> r == Failure(Database("select", "Meta", fault.value.1))
    ensures r.Ok? <==> !FailsAt(fault, SelectReward) && "referal_reward" in meta
                       && Atoi(meta["referal_reward"]).Some?
    ensures r.Ok? ==> r.value == Atoi(meta["referal_reward"]).value
    ensures !FailsAt(fault, SelectReward) && "referal_reward" !in meta ==>
              r == Failure(NotFound("referal_reward", "referal_reward"))
  {
    if FailsAt(fault, SelectReward) then Failure(Database("select", "Meta", fault.value.1))
    else if "referal_reward" !in meta then Failure(NotFound("referal_reward", "referal_reward"))
    else match Atoi(meta["referal_reward"])
      case None => Failure(Validation("referal_reward", "referal_reward"))
      case Some(n) => Ok(n)
  }

  /** The two writes of a referral: the referred user's referred_by (only if
      that user has a row) and the referrer's coins. */
  function Referred(details: map<string, DetailsRow>, userId: string, referrer: string, reward: int)
    : (r: map<string, DetailsRow>)
    requires referrer in details
    ensures r.Keys == details.Keys
    ensures r[referrer].coins == details[referrer].coins + reward
    ensures userId in details ==> r[userId].referredBy == Some(referrer)
    ensures forall id :: id in details && id != userId && id != referrer ==> r[id] == details[id]
    ensures forall id :: id in details ==> r[id].details == details[id].details
  {
    var d := if userId in details then details[userId := details[userId].(referredBy := Some(referrer))]
             else details;
    d[referrer := d[referrer].(coins := d[referrer].coins + reward)]
  }

  /** With unique codes the lookup can only find one row. */
  lemma ReferrerIsUnique(details: map<string, DetailsRow>, code: string, id: string)
    requires UniqueCodes(details)
    requires id in details && details[id].details.referralCode == Some(code)
    ensures Referrer(details, code) == Some(id)
  {
  }

  /** A referral writes no profile column, so the codes stay unique. */
  lemma ReferredKeepsCodes(details: map<string, DetailsRow>, userId: string, referrer: string, reward: int)
    requires referrer in details && UniqueCodes(details)
    ensures UniqueCodes(Referred(details, userId, referrer, reward))
  {
  }

  /** ReferUser as written.  Its deferred handler commits or rolls back on
      the function's `err` variable, but the coin update's error is stored
      there and then `nil` is returned: a failing coin update is reported as
      success while the whole referral is rolled back, and a failing commit
      is ignored the same way.  The update of referred_by runs through Exec,
      which never reports sql.ErrNoRows, so an unknown user is not an error. */
  ghost function ReferUserAsWritten(details: map<string, DetailsRow>, meta: map<string, string>,
                                    userId: string, code: string, fault: Fault)
    : (r: (Option<Error>, map<string, DetailsRow>))
    ensures r.0.Some? ==> r.1 == details
    ensures r.0.None? <==>
              !FailsAt(fault, Begin) && !FailsAt(fault, SelectReferrer) && Referrer(details, code).Some?
              && !FailsAt(fault, SetReferredBy) && Reward(meta, fault).Ok?
    ensures (FailsAt(fault, AddCoins) || FailsAt(fault, Commit)) ==> r.1 == details
  {
    if FailsAt(fault, Begin) then (Some(Database("begin_transaction", "User", fault.value.1)), details)
    else if FailsAt(fault, SelectReferrer) then (Some(Database("select", "UserDetails", fault.value.1)), details)
    else match Referrer(details, code)
      case None => (Some(NotFound("user", code)), details)
      case Some(referrer) =>
        if FailsAt(fault, SetReferredBy) then (Some(Database("update", "UserDetails", fault.value.1)), details)
        else match Reward(meta, fault)
          case Failure(e) => (Some(e), details)
          case Ok(reward) =>
            if FailsAt(fault, AddCoins) || FailsAt(fault, Commit) then (None, details)
            else (None, Referred(details, userId, referrer, reward))
  }

  /** The statements of ReferUser up to its writes, with their failures
      reported: the reward when every check passes. */
  function ReferGuards(details: map<string, DetailsRow>, meta: map<string, string>,
                       userId: string, code: string, fault: Fault)
    : (r: Result<int, Error>)
    ensures r.Ok? <==> !ReferFault(fault) && CodeTaken(details, Some(code)) && userId in details
                       && Reward(meta, fault).Ok?
    ensures r.Ok? ==> r.value == Reward(meta, fault).value
    ensures !ReferFault(fault) && !CodeTaken(details, Some(code)) ==> r == Failure(NotFound("user", code))
    ensures !ReferFault(fault) && CodeTaken(details, Some(code)) && userId !in details ==>
              r == Failure(NotFound("user", userId))
    ensures FailsAt(fault, AddCoins) && CodeTaken(details, Some(code)) && userId in details
            && Reward(meta, fault).Ok? ==>
              r == Failure(Database("update", "UserDetails", fault.value.1))
  {
    if FailsAt(fault, Begin) then Failure(Database("begin_transaction", "User", fault.value.1))
    else if FailsAt(fault, SelectReferrer) then Failure(Database("select", "UserDetails", fault.value.1))
    else if !CodeTaken(details, Some(code)) then Failure(NotFound("user", code))
    else if FailsAt(fault, SetReferredBy) then Failure(Database("update", "UserDetails", fault.value.1))
    else if userId !in details then Failure(NotFound("user", userId))
    else match Reward(meta, fault)
      case Failure(e) => Failure(e)
      case Ok(reward) =>
        if FailsAt(fault, AddCoins) then Failure(Database("update", "UserDetails", fault.value.1))
        else if FailsAt(fault, Commit) then Failure(Database("commit", "transaction", fault.value.1))
        else Ok(reward)
  }

  /** ReferUser as intended: a failure is returned and leaves the rows as
      they were; success is exactly the two writes. */
  ghost function ReferralOutcome(details: map<string, DetailsRow>, meta: map<string, string>,
                                 userId: string, code: string, fault: Fault)
    : (r: (Option<Error>, map<string, DetailsRow>))
    ensures r.0.Some? ==> r.1 == details
    ensures r.0.None? <==> ReferGuards(details, meta, userId, code, fault).Ok?
    ensures r.1.Keys == details.Keys && forall id :: id in details ==> r.1[id].details == details[id].details
  {
    match ReferGuards(details, meta, userId, code, fault)
    case Failure(e) => (Some(e), details)
    case Ok(reward) => (None, Referred(details, userId, Referrer(details, code).value, reward))
  }

  /** As written, a failing coin update (or commit) reports success although
      nothing was written: the referrer gets no coins and the user no
      referred_by. */
  lemma ReferralRewardLost(details: map<string, DetailsRow>, meta: map<string, string>,
                           userId: string, code: string, e: Error)
    requires CodeTaken(details, Some(code)) && userId in details
    requires Reward(meta, Some((AddCoins, e))).Ok?
    ensures ReferUserAsWritten(details, meta, userId, code, Some((AddCoins, e))) == (None, details)
    ensures ReferralOutcome(details, meta, userId, code, Some((AddCoins, e))) == (Some(Database("update", "UserDetails", e)), details)
  {
  }

  /** As written, referring a user with no "UserDetails" row still succeeds
      and still pays the referrer. */
  lemma UnknownUserStillPaysReferrer(details: map<string, DetailsRow>, meta: map<string, string>,
                                     userId: string, code: string)
    requires CodeTaken(details, Some(code)) && userId !in details
    requires Reward(meta, None).Ok? && Reward(meta, None).value > 0
    ensures var (err, after) := ReferUserAsWritten(details, meta, userId, code, None);
            var referrer := Referrer(details, code).value;
            err.None? && after[referrer].coins > details[referrer].coins
    ensures ReferralOutcome(details, meta, userId, code, None).0 == Some(NotFound("user", userId))
  {
  }

  /** Without a fault and for a known user the two versions agree, so the
      difference lies only on the failure paths. */
  lemma ReferUserAgreesWithoutFault(details: map<string, DetailsRow>, meta: map<string, string>,
                                    userId: string, code: string)
    requires userId in details
    ensures ReferUserAsWritten(details, meta, userId, code, None) == ReferralOutcome(details, meta, userId, code, None)
  {
  }

  /** The statements of UpdateProfile before its writes: the type and id
      checks, then NotFound when the timestamp update matches no "User" row. */
  function UpdateGuards(profile: Option<Profile>, users: map<string, Role>, fault: Fault)
    : (r: Result<Profile, Error>)
    ensures CheckProfile(profile).Failure? ==> r == Failure(CheckProfile(profile).error)
    ensures (CheckProfile(profile).Ok? && !FailsAt(fault, Begin) && !FailsAt(fault, TouchUser)
             && profile.value.id !in users) ==> r == Failure(NotFound("user", profile.value.id))
    ensures r.Ok? <==> CheckProfile(profile).Ok? && !UpdateFault(fault) && profile.value.id in users
    ensures r.Ok? ==> r.value == profile.value
  {
    match CheckProfile(profile)
    case Failure(e) => Failure(e)
    case Ok(p) =>
      if FailsAt(fault, Begin) then Failure(Database("begin_transaction", "User", fault.value.1))
      else if FailsAt(fault, TouchUser) then Failure(Database("update", "User", fault.value.1))
      else if p.id !in users then Failure(NotFound("user", p.id))
      else if FailsAt(fault, UpdateDetails) then Failure(Database("update", "UserDetails", fault.value.1))
      else if FailsAt(fault, UpdateProfileRow) then Failure(Database("update", ProfileTable(p), fault.value.1))
      else if FailsAt(fault, Commit) then Failure(Database("commit", "transaction", fault.value.1))
      else Ok(p)
  }

  /** Every "UserDetails" row belongs to a player or a recruiter and comes
      with exactly the row of that role; referral codes are unique. */
  ghost predicate Consistent(users: map<string, Role>, details: map<string, DetailsRow>,
                             players: map<string, PlayerInfo>, recruiters: map<string, RecruiterInfo>)
  {
    details.Keys <= users.Keys
    && (forall id :: id in players ==> id in details && users[id] == PlayerRole)
    && (forall id :: id in recruiters ==> id in details && users[id] == RecruiterRole)
    && (forall id :: id in details ==>
          (users[id] == PlayerRole && id in players) || (users[id] == RecruiterRole && id in recruiters))
    && UniqueCodes(details)
  }

  /** A referral touches neither the keys nor the profile columns, so the
      tables stay consistent. */
  lemma ReferredKeepsConsistent(users: map<string, Role>, details: map<string, DetailsRow>,
                                players: map<string, PlayerInfo>, recruiters: map<string, RecruiterInfo>,
                                userId: string, referrer: string, reward: int)
    requires referrer in details && Consistent(users, details, players, recruiters)
    ensures Consistent(users, Referred(details, userId, referrer, reward), players, recruiters)
  {
    ReferredKeepsCodes(details, userId, referrer, reward);
  }

  /** Inserting a new profile whose role matches and whose referral code is
      free keeps the tables consistent. */
  lemma InsertKeepsConsistent(users: map<string, Role>, details: map<string, DetailsRow>,
                              players: map<string, PlayerInfo>, recruiters: map<string, RecruiterInfo>,
                              p: Profile)
    requires Consistent(users, details, players, recruiters)
    requires p.id in users && users[p.id] == p.Role() && p.id !in details
    requires !CodeTaken(details, p.details.referralCode)
    ensures var d := details[p.id := DetailsRow(p.details, None, 0)];
            if p.PlayerProfile? then Consistent(users, d, players[p.id := p.player], recruiters)
            else Consistent(users, d, players, recruiters[p.id := p.recruiter])
  {
    assert forall id :: id in details && p.details.referralCode.Some? ==>
             details[id].details.referralCode != p.details.referralCode;
  }

  /** An update keeps every key and every referral code, so the tables stay
      consistent. */
  lemma UpdateKeepsConsistent(users: map<string, Role>, details: map<string, DetailsRow>,
                              players: map<string, PlayerInfo>, recruiters: map<string, RecruiterInfo>,
                              p: Profile)
    requires Consistent(users, details, players, recruiters)
    ensures var d := if p.id in details
                     then details[p.id := details[p.id].(details :=
                            p.details.(referralCode := details[p.id].details.referralCode))]
                     else details;
            var pl := if p.PlayerProfile? && p.id in players then players[p.id := p.player] else players;
            var rc := if p.RecruiterProfile? && p.id in recruiters then recruiters[p.id := p.recruiter] else recruiters;
            Consistent(users, d, pl, rc)
  {
    var d := if p.id in details
             then details[p.id := details[p.id].(details :=
                    p.details.(referralCode := details[p.id].details.referralCode))]
             else details;
    assert d.Keys == details.Keys;
    assert forall id :: id in d ==> d[id].details.referralCode == details[id].details.referralCode;
  }

  /** The store: "User" roles, "UserDetails" rows, "Player" and "Recruiter"
      rows, and the "Meta" key-value table. */
  class UserProfileStore {
    var users: map<string, Role>
    var details: map<string, DetailsRow>
    var players: map<string, PlayerInfo>
    var recruiters: map<string, RecruiterInfo>
    var meta: map<string, string>

    ghost predicate Valid()
      reads this
    {
      Consistent(users, details, players, recruiters)
    }

    constructor (users: map<string, Role>, meta: map<string, string>)
      ensures this.users == users && this.meta == meta
      ensures details == map[] && players == map[] && recruiters == map[]
      ensures Valid()
    {
      this.users := users;
      this.meta := meta;
      details := map[];
      players := map[];
      recruiters := map[];
    }

    /** GetUserProfile: the stored role picks the joined query; a missing
        joined row is NotFound for that kind of profile, an admin role a
        validation error. */
    function GetUserProfile(userId: string, fault: Fault): (r: Result<Profile, Error>)
      reads this
      ensures FailsAt(fault, SelectRole) ==> r == Failure(Database("select", "User", fault.value.1))
      ensures !FailsAt(fault, SelectRole) && userId !in users ==> r == Failure(NotFound("user", userId))
      ensures r.Ok? ==> r.value.id == userId && userId in users && r.value.Role() == users[userId]
                        && userId in details && r.value.details == details[userId].details
      ensures r.Ok? && r.value.PlayerProfile? ==> userId in players && r.value.player == players[userId]
      ensures r.Ok? && r.value.RecruiterProfile? ==> userId in recruiters && r.value.recruiter == recruiters[userId]
      ensures !FailsAt(fault, SelectRole) && userId in users && users[userId] == AdminRole ==>
                r == Failure(Validation("role", "invalid role '" + "admin" + "' found for user"))
      ensures r.Failure? && !fault.Some? && userId in users && users[userId] == PlayerRole ==>
                r == Failure(NotFound("player profile", userId))
    {
      if FailsAt(fault, SelectRole) then Failure(Database("select", "User", fault.value.1))
      else if userId !in users then Failure(NotFound("user", userId))
      else match users[userId]
        case RecruiterRole =>
          if FailsAt(fault, SelectProfile) then Failure(Database("select", "Recruiter", fault.value.1))
          else if userId in details && userId in recruiters then
            Ok(RecruiterProfile(userId, details[userId].details, recruiters[userId]))
          else Failure(NotFound("recruiter profile", userId))
        case PlayerRole =>
          if FailsAt(fault, SelectProfile) then Failure(Database("select", "Player", fault.value.1))
          else if userId in details && userId in players then
            Ok(PlayerProfile(userId, details[userId].details, players[userId]))
          else Failure(NotFound("player profile", userId))
        case AdminRole =>
          Failure(Validation("role", "invalid role '" + AdminRole.Name() + "' found for user"))
    }

    /** CreateUserProfile: the type and id checks, the user must exist with
        the profile's role and have no "UserDetails" row yet; then the
        details row and the player or recruiter row are inserted together.
        A referral code another row holds violates the column's uniqueness. */
    method CreateUserProfile(profile: Option<Profile>, fault: Fault) returns (err: Option<Error>)
      requires Valid()
      modifies this
      ensures Valid()
      ensures unchanged(this`users) && unchanged(this`meta)
      ensures CheckProfile(profile).Failure? ==> err == Some(CheckProfile(profile).error)
      ensures (CheckProfile(profile).Ok? && !FailsAt(fault, Begin) && !FailsAt(fault, SelectRole)
               && profile.value.id !in old(users)) ==> err == Some(NotFound("user", profile.value.id))
      ensures CheckProfile(profile).Ok? && !FailsAt(fault, Begin) && !FailsAt(fault, SelectRole)
              && profile.value.id in old(users) && old(users)[profile.value.id] != profile.value.Role() ==>
                err == Some(Authorization("create_profile", "user profile", profile.value.id))
      ensures (CheckProfile(profile).Ok? && !FailsAt(fault, Begin) && !FailsAt(fault, SelectRole)
               && profile.value.id in old(users) && old(users)[profile.value.id] == profile.value.Role()
               && !FailsAt(fault, SelectExists) && profile.value.id in old(details)) ==>
                err == Some(AlreadyExists("user details", "user_id", profile.value.id))
      ensures err.None? <==> CheckProfile(profile).Ok? && !CreateFault(fault)
                             && profile.value.id in old(users) && old(users)[profile.value.id] == profile.value.Role()
                             && profile.value.id !in old(details)
                             && !CodeTaken(old(details), profile.value.details.referralCode)
      ensures err.Some? ==> details == old(details) && players == old(players) && recruiters == old(recruiters)
      ensures err.None? ==>
                var p := profile.value;
                details == old(details)[p.id := DetailsRow(p.details, None, 0)]
                && (p.PlayerProfile? ==> players == old(players)[p.id := p.player] && recruiters == old(recruiters))
                && (p.RecruiterProfile? ==> recruiters == old(recruiters)[p.id := p.recruiter] && players == old(players))
      ensures err.None? ==> GetUserProfile(profile.value.id, None) == Ok(profile.value)
    {
      var checked := CheckProfile(profile);
      if checked.Failure? {
        return Some(checked.error);
      }
      var p := checked.value;
      if FailsAt(fault, Begin) {
        return Some(Database("begin_transaction", "User", fault.value.1));
      }
      if FailsAt(fault, SelectRole) {
        return Some(Database("select", "User", fault.value.1));
      }
      if p.id !in users {
        return Some(NotFound("user", p.id));
      }
      if users[p.id] != p.Role() {
        return Some(Authorization("create_profile", "user profile", p.id));
      }
      if FailsAt(fault, SelectExists) {
        return Some(Database("select", "UserDetails", fault.value.1));
      }
      if p.id in details {
        return Some(AlreadyExists("user details", "user_id", p.id));
      }
      if FailsAt(fault, InsertDetails) {
        return Some(Database("insert", "UserDetails", fault.value.1));
      }
      if CodeTaken(details, p.details.referralCode) {
        return Some(Database("insert", "UserDetails", Plain("duplicate key value violates unique constraint")));
      }
      if FailsAt(fault, InsertProfile) {
        return Some(Database("insert", ProfileTable(p), fault.value.1));
      }
      if FailsAt(fault, Commit) {
        return Some(Database("commit", "transaction", fault.value.1));
      }
      InsertKeepsConsistent(users, details, players, recruiters, p);
      details := details[p.id := DetailsRow(p.details, None, 0)];
      match p {
        case PlayerProfile(_, _, info) => players := players[p.id := info];
        case RecruiterProfile(_, _, info) => recruiters := recruiters[p.id := info];
      }
      return None;
    }

    /** UpdateProfile: the guards, then the details columns (all but the
        referral code) and the player or recruiter columns.  The updates
        match rows by id only, so a missing row of the profile's kind is
        left absent. */
    method UpdateProfile(profile: Option<Profile>, fault: Fault) returns (err: Option<Error>)
      requires Valid()
      modifies this
      ensures Valid()
      ensures unchanged(this`users) && unchanged(this`meta)
      ensures var g := UpdateGuards(profile, old(users), fault);
              (g.Failure? ==> err == Some(g.error)) && (err.None? <==> g.Ok?)
      ensures err.Some? ==> details == old(details) && players == old(players) && recruiters == old(recruiters)
      ensures err.None? ==>
                var p := profile.value;
                (p.id in old(details) ==>
                   details == old(details)[p.id := old(details)[p.id].(details :=
                                p.details.(referralCode := old(details)[p.id].details.referralCode))])
                && (p.id !in old(details) ==> details == old(details))
                && (p.PlayerProfile? && p.id in old(players) ==> players == old(players)[p.id := p.player])
                && (p.RecruiterProfile? || p.id !in old(players) ==> players == old(players))
                && (p.RecruiterProfile? && p.id in old(recruiters) ==> recruiters == old(recruiters)[p.id := p.recruiter])
                && (p.PlayerProfile? || p.id !in old(recruiters) ==> recruiters == old(recruiters))
    {
      var checked := UpdateGuards(profile, users, fault);
      if checked.Failure? {
        return Some(checked.error);
      }
      var p := checked.value;
      UpdateKeepsConsistent(users, details, players, recruiters, p);
      if p.id in details {
        var row := details[p.id];
        details := details[p.id := row.(details := p.details.(referralCode := row.details.referralCode))];
      }
      match p {
        case PlayerProfile(_, _, info) =>
          if p.id in players {
            players := players[p.id := info];
          }
        case RecruiterProfile(_, _, info) =>
          if p.id in recruiters {
            recruiters := recruiters[p.id := info];
          }
      }
      return None;
    }

    /** The two UPDATE statements of a referral. */
    method WriteReferral(userId: string, referrer: string, reward: int)
      requires referrer in details
      modifies this`details
      ensures details == Referred(old(details), userId, referrer, reward)
      ensures forall id :: GetUserProfile(id, None) == old(GetUserProfile(id, None))
    {
      if userId in details {
        var row := details[userId];
        details := details[userId := row.(referredBy := Some(referrer))];
      }
      var payee := details[referrer];
      details := details[referrer := payee.(coins := payee.coins + reward)];
    }

    /** The SELECT of the referrer by code, once the guards found it. */
    method FindReferrer(details: map<string, DetailsRow>, code: string) returns (referrer: string)
      requires UniqueCodes(details) && CodeTaken(details, Some(code))
      ensures referrer in details && Referrer(details, code) == Some(referrer)
    {
      referrer :| referrer in details && details[referrer].details.referralCode == Some(code);
      ReferrerIsUnique(details, code, referrer);
    }

    /** ReferUser, with its failures reported: the referrer found by code,
        the referred user's referred_by set, the reward read and added to
        the referrer's coins, all in one transaction. */
    method ReferUser(userId: string, code: string, fault: Fault) returns (err: Option<Error>)
      requires Valid()
      modifies this
      ensures Valid()
      ensures unchanged(this`users) && unchanged(this`meta) && unchanged(this`players) && unchanged(this`recruiters)
      ensures (err, details) == ReferralOutcome(old(details), meta, userId, code, fault)
      ensures forall id :: GetUserProfile(id, None) == old(GetUserProfile(id, None))
    {
      var checked := ReferGuards(details, meta, userId, code, fault);
      if checked.Failure? {
        return Some(checked.error);
      }
      var referrer := FindReferrer(details, code);
      ghost var before := details;
      WriteReferral(userId, referrer, checked.value);
      ReferredKeepsConsistent(users, before, players, recruiters, userId, referrer, checked.value);
      return None;
    }
  }

  /** Every user with a "UserDetails" row reads back as a profile of the
      kind its role names. */
  lemma ProfilesAreReadable(store: UserProfileStore, id: string)
    requires store.Valid() && id in store.details
    ensures store.GetUserProfile(id, None).Ok?
    ensures store.GetUserProfile(id, None).value.Role() == store.users[id]
  {
  }
}
