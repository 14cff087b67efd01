/** The profile handlers (internals/handlers/user_registration_handlers.go):
    the role, gender and level checks, the fields each role requires, the
    referral code a new profile names, the loop that draws a fresh code,
    the profile update merge and the referral-code endpoint.  Profiles are
    created and referrals recorded in the profile store; the other
    repository queries are inputs. */
module UserRegistration {
  import opened Wrappers
  import opened GoStrings
  import opened Errors
  import opened Http
  import opened ModelTypes
  import opened UserProfileRepo

  const ErrInvalidFormat := Response(400, "Invalid request format")
  const ErrNotAuthenticated := Response(401, "User not authenticated")
  const ErrInvalidGender := Response(400, "Invalid gender. Must be 'male', 'female', 'other', or 'rather_not_say'")
  const ErrInvalidLevel :=
    Response(400, "Invalid level. Must be 'district', 'state', 'country', 'international', or 'personal'")
  const ErrInvalidInterestLevel :=
    Response(400, "Invalid interest level. Must be 'district', 'state', 'country', 'international', or 'personal'")

  // --------------------------------------------------------- enum checks

  /** isValidLevel: exactly the names of the five levels. */
  function IsValidLevel(level: string): (r: bool)
    ensures r <==> exists l: Level :: l.Name() == level
  {
    if level == "district" then assert DistrictLevel.Name() == level; true
    else if level == "state" then assert StateLevel.Name() == level; true
    else if level == "country" then assert CountryLevel.Name() == level; true
    else if level == "international" then assert InternationalLevel.Name() == level; true
    else if level == "personal" then assert PersonalLevel.Name() == level; true
    else false
  }

  /** A level input: lowercased, then checked. */
  function ParseLevel(s: string): (r: Option<string>)
    ensures r.Some? <==> IsValidLevel(ToLower(s))
    ensures r.Some? ==> r.value == ToLower(s)
  {
    if IsValidLevel(ToLower(s)) then Some(ToLower(s)) else None
  }

  /** A gender input: lowercased, then one of the four genders. */
  function ParseGender(s: string): (r: Option<string>)
    ensures r.Some? <==> exists g: Gender :: g.Name() == ToLower(s)
    ensures r.Some? ==> r.value == ToLower(s)
  {
    var g := ToLower(s);
    if g == "male" then assert Male.Name() == g; Some(g)
    else if g == "female" then assert Female.Name() == g; Some(g)
    else if g == "other" then assert Other.Name() == g; Some(g)
    else if g == "rather_not_say" then assert RatherNotSay.Name() == g; Some(g)
    else None
  }

  /** The checks ignore case: an upper-case gender is stored lower-case. */
  lemma GenderIgnoresCase()
    ensures ParseGender("MALE") == Some("male")
  {
    var m := ToLower("MALE");
    assert m[0] == 'm' && m[1] == 'a' && m[2] == 'l' && m[3] == 'e';
    assert m == "male";
  }

  /** The role check of CreateProfileHandler: a role name that does not
      parse is a 400 (the handler then also writes the second message, which
      gin appends to the same 400 reply), and so is the admin role. */
  function CreatorRole(roleStr: Option<string>): (r: Result<Role, Response>)
    ensures roleStr.None? ==> r == Failure(ErrNotAuthenticated)
    ensures r.Ok? <==> roleStr == Some("player") || roleStr == Some("recruiter")
    ensures r.Ok? ==> r.value.Name() == roleStr.value
    ensures roleStr == Some("admin") ==> r == Failure(Response(400, "Invalid role. Must be 'player' or 'recruiter'"))
    ensures r.Failure? && roleStr.Some? ==> r.error.status == 400
  {
    if roleStr.None? then Failure(ErrNotAuthenticated)
    else match ParseRole(roleStr.value)
      case Failure(_) => Failure(Response(400, "Invalid role Associated with user"))
      case Ok(role) =>
        if role != PlayerRole && role != RecruiterRole then
          Failure(Response(400, "Invalid role. Must be 'player' or 'recruiter'"))
        else Ok(role)
  }

  // ------------------------------------------------------ referral codes

  /** The outcome of the loop that draws codes until one is free: the code
      and the attempt it came from, the lookup error that stopped it, or
      (only when the drawn sequence ends first) exhaustion. */
  datatype Draw = Drawn(code: string, attempt: nat) | DrawFailed(error: Error, attempt: nat) | Exhausted

  /** The loop's outcome from attempt `i` on: each code is looked up, a
      taken one is replaced by the next. */
  function DrawFrom(candidates: seq<string>, taken: string -> Result<bool, Error>, i: nat): (r: Draw)
    requires i <= |candidates|
    decreases |candidates| - i
    ensures r.Drawn? ==> i <= r.attempt < |candidates| && candidates[r.attempt] == r.code
                         && taken(r.code) == Ok(false)
                         && forall j :: i <= j < r.attempt ==> taken(candidates[j]) == Ok(true)
    ensures r.DrawFailed? ==> i <= r.attempt < |candidates| && taken(candidates[r.attempt]) == Failure(r.error)
                              && forall j :: i <= j < r.attempt ==> taken(candidates[j]) == Ok(true)
    ensures r.Exhausted? <==> forall j :: i <= j < |candidates| ==> taken(candidates[j]) == Ok(true)
  {
    if i == |candidates| then Exhausted
    else match taken(candidates[i])
      case Failure(e) => DrawFailed(e, i)
      case Ok(false) => Drawn(candidates[i], i)
      case Ok(true) => DrawFrom(candidates, taken, i + 1)
  }

  /** The generator's codes are drawn until the repository reports one as
      unused; `candidates` are the codes the generator yields in order. */
  method DrawReferralCode(candidates: seq<string>, taken: string -> Result<bool, Error>) returns (r: Draw)
    ensures r == DrawFrom(candidates, taken, 0)
  {
    var i := 0;
    while i < |candidates|
      invariant 0 <= i <= |candidates|
      invariant DrawFrom(candidates, taken, i) == DrawFrom(candidates, taken, 0)
    {
      var code := candidates[i];
      var inUse := taken(code);
      if inUse.Failure? {
        return DrawFailed(inUse.error, i);
      }
      if !inUse.value {
        return Drawn(code, i);
      }
      i := i + 1;
    }
    return Exhausted;
  }

  /** The generator eventually yields a code the lookup does not report as
      taken. */
  predicate EventuallyAnswered(candidates: seq<string>, taken: string -> Result<bool, Error>)
  {
    exists k :: 0 <= k < |candidates| && taken(candidates[k]) != Ok(true)
  }

  lemma AnsweredIsNotExhausted(candidates: seq<string>, taken: string -> Result<bool, Error>)
    requires EventuallyAnswered(candidates, taken)
    ensures !DrawFrom(candidates, taken, 0).Exhausted?
  {
  }

  // --------------------------------------------------------------- create

  /** A ProfileCreateRequest; absent fields are "". */
  datatype CreateRequest = CreateRequest(
    profilePicture: string, userName: string, name: string, middleName: string, surname: string,
    dob: string, gender: string, about: string, level: string, interestLevel: string,
    interestCountry: string, organizationName: string, organizationId: string, phoneNumber: string,
    position: string, referralCode: string)

  /** gin's binding: the `binding:"required"` strings must be non-empty. */
  predicate BindsCreate(req: CreateRequest)
  {
    req.userName != "" && req.name != "" && req.surname != "" && req.dob != "" && req.gender != ""
  }

  /** The shared details of a new profile: the picture, middle name and
      about are always stored (possibly empty), the code is the one drawn. */
  function NewDetails(req: CreateRequest, gender: string, code: string): Details
  {
    Details(req.userName, Some(req.profilePicture), req.name, Some(req.middleName), req.surname,
            req.dob, gender, Some(req.about), Some(code))
  }

  /** The profile a create request describes, once the role and the gender
      have passed: the role switch with its required fields.  The switch has
      no default, so for any other role the profile stays nil (None). */
  function NewProfile(userId: string, role: Role, req: CreateRequest, gender: string, code: string)
    : (r: Result<Option<Profile>, Response>)
    ensures role == PlayerRole ==>
              (r.Ok? <==> req.level != "" && req.interestLevel != ""
                          && ParseLevel(req.level).Some? && ParseLevel(req.interestLevel).Some?)
    ensures role == PlayerRole && r.Ok? ==>
              r.value == Some(PlayerProfile(userId, NewDetails(req, gender, code),
                                            PlayerInfo(ToLower(req.level), ToLower(req.interestLevel),
                                                       Some(req.interestCountry))))
    ensures role == RecruiterRole ==>
              (r.Ok? <==> req.organizationName != "" && req.organizationId != "" && req.phoneNumber != "")
    ensures role == RecruiterRole && r.Ok? ==>
              r.value == Some(RecruiterProfile(userId, NewDetails(req, gender, code),
                                               RecruiterInfo(req.organizationName, req.organizationId,
                                                             req.phoneNumber, req.position)))
    ensures role == AdminRole ==> r == Ok(None)
  {
    match role
    case PlayerRole => NewPlayer(userId, req, gender, code)
    case RecruiterRole => NewRecruiter(userId, req, gender, code)
    case AdminRole => Ok(None)
  }

  /** The player case of NewProfile: both levels are required and valid. */
  function NewPlayer(userId: string, req: CreateRequest, gender: string, code: string)
    : (r: Result<Option<Profile>, Response>)
    ensures r.Ok? <==> req.level != "" && req.interestLevel != ""
                       && ParseLevel(req.level).Some? && ParseLevel(req.interestLevel).Some?
    ensures r.Ok? ==>
              r.value == Some(PlayerProfile(userId, NewDetails(req, gender, code),
                                            PlayerInfo(ToLower(req.level), ToLower(req.interestLevel),
                                                       Some(req.interestCountry))))
  {
    if req.level == "" || req.interestLevel == "" then
      Failure(Response(400, "Level and interest level are required for player profiles"))
    else if ParseLevel(req.level).None? || ParseLevel(req.interestLevel).None? then Failure(ErrInvalidLevel)
    else Ok(Some(PlayerProfile(userId, NewDetails(req, gender, code),
                               PlayerInfo(ToLower(req.level), ToLower(req.interestLevel), Some(req.interestCountry)))))
  }

  /** The recruiter case of NewProfile: the organisation fields are required. */
  function NewRecruiter(userId: string, req: CreateRequest, gender: string, code: string)
    : (r: Result<Option<Profile>, Response>)
    ensures r.Ok? <==> req.organizationName != "" && req.organizationId != "" && req.phoneNumber != ""
    ensures r.Ok? ==>
              r.value == Some(RecruiterProfile(userId, NewDetails(req, gender, code),
                                               RecruiterInfo(req.organizationName, req.organizationId,
                                                             req.phoneNumber, req.position)))
  {
    if req.organizationName == "" || req.organizationId == "" || req.phoneNumber == "" then
      Failure(Response(400, "Organization name, organization ID, and phone number are required for recruiter profiles"))
    else Ok(Some(RecruiterProfile(userId, NewDetails(req, gender, code),
                                  RecruiterInfo(req.organizationName, req.organizationId, req.phoneNumber, req.position))))
  }

  /** The checks of CreateProfileHandler before the draw: the body, the
      caller, the role, the gender, and a named referral code that must
      already exist.  The result is (user id, role, gender). */
  function CreateChecks(body: Option<CreateRequest>, userId: Option<string>, roleStr: Option<string>,
                        codeExists: string -> Result<bool, Error>)
    : (r: Result<(string, Role, string), Response>)
    ensures body.None? ==> r == Failure(ErrInvalidFormat)
    ensures r.Ok? <==> body.Some? && BindsCreate(body.value) && userId.Some? && CreatorRole(roleStr).Ok?
                       && ParseGender(body.value.gender).Some?
                       && (body.value.referralCode != "" ==> codeExists(body.value.referralCode) == Ok(true))
    ensures r.Ok? ==> r.value == (userId.value, CreatorRole(roleStr).value, ParseGender(body.value.gender).value)
    ensures body.Some? && BindsCreate(body.value) && userId.Some? && CreatorRole(roleStr).Ok?
            && ParseGender(body.value.gender).Some? && body.value.referralCode != ""
            && codeExists(body.value.referralCode) == Ok(false) ==>
              r == Failure(Response(400, "Referal code does not exist"))
  {
    if body.None? || !BindsCreate(body.value) then Failure(ErrInvalidFormat)
    else if userId.None? then Failure(ErrNotAuthenticated)
    else match CreatorRole(roleStr)
      case Failure(resp) => Failure(resp)
      case Ok(role) =>
        match ParseGender(body.value.gender)
        case None => Failure(ErrInvalidGender)
        case Some(gender) =>
          var req := body.value;
          if req.referralCode == "" then Ok((userId.value, role, gender))
          else match codeExists(req.referralCode)
            case Failure(e) => Failure(ErrorReply(e))
            case Ok(false) => Failure(Response(400, "Referal code does not exist"))
            case Ok(true) => Ok((userId.value, role, gender))
  }

  /** Everything CreateProfileHandler decides before it writes: the
      checks, the drawn code (`candidates` are the codes the generator
      yields in order), the user name, and the profile to create. */
  function CreatePlan(body: Option<CreateRequest>, userId: Option<string>, roleStr: Option<string>,
                      codeExists: string -> Result<bool, Error>, candidates: seq<string>,
                      usernameExists: string -> Result<bool, Error>)
    : (r: Result<Option<Profile>, Response>)
    ensures CreateChecks(body, userId, roleStr, codeExists).Failure? ==>
              r == Failure(CreateChecks(body, userId, roleStr, codeExists).error)
    ensures r.Ok? ==>
              CreateChecks(body, userId, roleStr, codeExists).Ok?
              && DrawFrom(candidates, codeExists, 0).Drawn?
              && usernameExists(body.value.userName) == Ok(false)
    ensures r.Ok? ==>
              var (id, role, gender) := CreateChecks(body, userId, roleStr, codeExists).value;
              NewProfile(id, role, body.value, gender, DrawFrom(candidates, codeExists, 0).code) == Ok(r.value)
    ensures CreateChecks(body, userId, roleStr, codeExists).Ok? && DrawFrom(candidates, codeExists, 0).Drawn?
            && usernameExists(body.value.userName) == Ok(true) ==>
              r == Failure(Response(400, "Username already exists"))
  {
    match CreateChecks(body, userId, roleStr, codeExists)
    case Failure(resp) => Failure(resp)
    case Ok(checked) =>
      match DrawFrom(candidates, codeExists, 0)
      case Exhausted => Failure(Response(500, "Internal server error"))
      case DrawFailed(e, _) => Failure(ErrorReply(e))
      case Drawn(code, _) =>
        match usernameExists(body.value.userName)
        case Failure(e) => Failure(ErrorReply(e))
        case Ok(true) => Failure(Response(400, "Username already exists"))
        case Ok(false) => NewProfile(checked.0, checked.1, body.value, checked.2, code)
  }

  /** An admin caller never reaches the profile switch: the role check has
      already answered 400. */
  lemma AdminNeverPlanned(body: Option<CreateRequest>, userId: Option<string>,
                          codeExists: string -> Result<bool, Error>, candidates: seq<string>,
                          usernameExists: string -> Result<bool, Error>)
    ensures CreatePlan(body, userId, Some("admin"), codeExists, candidates, usernameExists).Failure?
    ensures body.Some? && BindsCreate(body.value) && userId.Some? ==>
              CreatePlan(body, userId, Some("admin"), codeExists, candidates, usernameExists)
              == Failure(Response(400, "Invalid role. Must be 'player' or 'recruiter'"))
  {
  }

  /** CreateProfileHandler: the plan, then the profile is created in the
      store and, when the request names a referral code, the referral
      recorded; a failed referral only sets the reply's referal_error. */
  method CreateProfileHandler(store: UserProfileStore, body: Option<CreateRequest>, userId: Option<string>,
                              roleStr: Option<string>, codeExists: string -> Result<bool, Error>,
                              candidates: seq<string>, usernameExists: string -> Result<bool, Error>,
                              createFault: Fault, referFault: Fault)
    returns (resp: Response, referralError: string)
    requires store.Valid()
    requires EventuallyAnswered(candidates, codeExists)
    modifies store
    ensures store.Valid()
    ensures CreatePlan(body, userId, roleStr, codeExists, candidates, usernameExists).Failure? ==>
              resp == CreatePlan(body, userId, roleStr, codeExists, candidates, usernameExists).error
              && store.users == old(store.users) && store.details == old(store.details)
              && store.players == old(store.players) && store.recruiters == old(store.recruiters)
              && store.meta == old(store.meta) && referralError == ""
    ensures var plan := CreatePlan(body, userId, roleStr, codeExists, candidates, usernameExists);
            plan.Ok? && resp.status == 201 ==>
              resp.message == "Profile created successfully"
              && plan.value.Some? && store.GetUserProfile(plan.value.value.id, None) == Ok(plan.value.value)
    ensures referralError != "" ==>
              CreatePlan(body, userId, roleStr, codeExists, candidates, usernameExists).Ok?
              && resp.status == 201 && body.value.referralCode != ""
    ensures var plan := CreatePlan(body, userId, roleStr, codeExists, candidates, usernameExists);
            resp.status == 201 <==>
              plan.Ok? && ProfileCreatable(old(store.users), old(store.details), plan.value, createFault)
    ensures store.users == old(store.users) && store.meta == old(store.meta)
    ensures resp.status != 201 ==>
              store.details == old(store.details) && store.players == old(store.players)
              && store.recruiters == old(store.recruiters) && referralError == ""
    ensures var plan := CreatePlan(body, userId, roleStr, codeExists, candidates, usernameExists);
            resp.status == 201 ==>
              var p := plan.value.value;
              var code := body.value.referralCode;
              var created := WithNewDetails(old(store.details), p);
              var referral := ReferralOutcome(created, old(store.meta), p.id, code, referFault);
              store.details == (if code == "" then created else referral.1)
              && (referralError == "" <==> code == "" || referral.0.None?)
              && (p.PlayerProfile? ==> store.players == old(store.players)[p.id := p.player])
              && (p.RecruiterProfile? ==> store.recruiters == old(store.recruiters)[p.id := p.recruiter])
  {
    var plan := PlanProfile(body, userId, roleStr, codeExists, candidates, usernameExists);
    if plan.Failure? {
      return plan.error, "";
    }
    assert CreateChecks(body, userId, roleStr, codeExists).Ok?;
    assert body.Some?;
    resp, referralError := StoreProfile(store, plan.value, body.value.referralCode, createFault, referFault);
  }

  /** The statements of CreateProfileHandler before its writes. */
  method PlanProfile(body: Option<CreateRequest>, userId: Option<string>, roleStr: Option<string>,
                     codeExists: string -> Result<bool, Error>, candidates: seq<string>,
                     usernameExists: string -> Result<bool, Error>)
    returns (plan: Result<Option<Profile>, Response>)
    requires EventuallyAnswered(candidates, codeExists)
    ensures plan == CreatePlan(body, userId, roleStr, codeExists, candidates, usernameExists)
  {
    AnsweredIsNotExhausted(candidates, codeExists);
    var checks := CreateChecks(body, userId, roleStr, codeExists);
    if checks.Failure? {
      return Failure(checks.error);
    }
    var req := body.value;
    var draw := DrawReferralCode(candidates, codeExists);
    if !draw.Drawn? {
      return Failure(ErrorReply(draw.error));
    }
    var nameTaken := usernameExists(req.userName);
    if nameTaken.Failure? {
      return Failure(ErrorReply(nameTaken.error));
    }
    if nameTaken.value {
      return Failure(Response(400, "Username already exists"));
    }
    plan := NewProfile(checks.value.0, checks.value.1, req, checks.value.2, draw.code);
  }

  /** When CreateUserProfile succeeds: a well-formed profile, for an
      existing user of the same role without a details row, whose referral
      code no other row holds, and no fault on the way. */
  predicate ProfileCreatable(users: map<string, Role>, details: map<string, DetailsRow>, profile: Option<Profile>,
                             fault: Fault)
  {
    CheckProfile(profile).Ok? && !CreateFault(fault)
    && profile.value.id in users && users[profile.value.id] == profile.value.Role()
    && profile.value.id !in details && !CodeTaken(details, profile.value.details.referralCode)
  }

  /** The details table after a profile's row is inserted. */
  function WithNewDetails(details: map<string, DetailsRow>, p: Profile): (r: map<string, DetailsRow>)
    ensures r.Keys == details.Keys + {p.id}
    ensures r[p.id] == DetailsRow(p.details, None, 0)
  {
    details[p.id := DetailsRow(p.details, None, 0)]
  }

  /** The writes of CreateProfileHandler: the profile, then the referral
      when a code was given. */
  method StoreProfile(store: UserProfileStore, profile: Option<Profile>, referralCode: string,
                      createFault: Fault, referFault: Fault)
    returns (resp: Response, referralError: string)
    requires store.Valid()
    modifies store
    ensures store.Valid()
    ensures resp.status == 201 ==>
              profile.Some? && store.GetUserProfile(profile.value.id, None) == Ok(profile.value)
              && resp.message == "Profile created successfully"
    ensures referralError != "" ==> resp.status == 201 && referralCode != ""
    ensures resp.status == 201 <==> ProfileCreatable(old(store.users), old(store.details), profile, createFault)
    ensures store.users == old(store.users) && store.meta == old(store.meta)
    ensures resp.status != 201 ==>
              store.details == old(store.details) && store.players == old(store.players)
              && store.recruiters == old(store.recruiters) && referralError == ""
    ensures resp.status == 201 ==>
              var p := profile.value;
              var created := WithNewDetails(old(store.details), p);
              var referral := ReferralOutcome(created, old(store.meta), p.id, referralCode, referFault);
              store.details == (if referralCode == "" then created else referral.1)
              && (referralError == "" <==> referralCode == "" || referral.0.None?)
              && (referralError != "" ==> referralError == "Failed to refer user")
              && (p.PlayerProfile? ==> store.players == old(store.players)[p.id := p.player])
              && (p.RecruiterProfile? ==> store.recruiters == old(store.recruiters)[p.id := p.recruiter])
  {
    referralError := "";
    var err := store.CreateUserProfile(profile, createFault);
    if err.Some? {
      return ErrorReply(err.value), "";
    }
    var id := profile.value.id;
    if referralCode != "" {
      var referErr := store.ReferUser(id, referralCode, referFault);
      if referErr.Some? {
        referralError := "Failed to refer user";
      }
    }
    resp := Response(201, "Profile created successfully");
  }

  // ------------------------------------------------------------ read

  /** GetProfileHandler (public): an id, then the stored profile. */
  function GetProfileHandler(userId: string, found: Result<Profile, Error>): (r: (Response, Option<Profile>))
    ensures userId == "" ==> r == (Response(400, "User ID is required"), None)
    ensures r.1.Some? <==> userId != "" && found.Ok?
    ensures r.1.Some? ==> r.1.value == found.value && r.0.status == 200
    ensures userId != "" && found.Failure? ==> r.0 == ErrorReply(found.error)
  {
    if userId == "" then (Response(400, "User ID is required"), None)
    else match found
      case Failure(e) => (ErrorReply(e), None)
      case Ok(p) => (Response(200, "profile"), Some(p))
  }

  /** GetMyProfileHandler: the caller's e-mail, the user it names, then that
      user's profile. */
  function GetMyProfileHandler(email: Option<string>, userByEmail: string -> Result<string, Error>,
                               profileOf: string -> Result<Profile, Error>)
    : (r: (Response, Option<Profile>))
    ensures email.None? ==> r == (ErrNotAuthenticated, None)
    ensures r.1.Some? <==> email.Some? && userByEmail(email.value).Ok? && profileOf(userByEmail(email.value).value).Ok?
    ensures r.1.Some? ==> r.1.value == profileOf(userByEmail(email.value).value).value
  {
    if email.None? then (ErrNotAuthenticated, None)
    else match userByEmail(email.value)
      case Failure(e) => (ErrorReply(e), None)
      case Ok(id) =>
        match profileOf(id)
        case Failure(e) => (ErrorReply(e), None)
        case Ok(p) => (Response(200, "profile"), Some(p))
  }

  // --------------------------------------------------------------- update

  /** A ProfileUpdateRequest; absent fields are "". */
  datatype UpdateRequest = UpdateRequest(
    profilePicture: string, name: string, middleName: string, surname: string, dob: string, gender: string,
    about: string, level: string, interestLevel: string, interestCountry: string,
    organizationName: string, organizationId: string, phoneNumber: string, position: string)

  const NoChange := UpdateRequest("", "", "", "", "", "", "", "", "", "", "", "", "", "")

  function OrString(given: string, current: string): string { if given != "" then given else current }
  function OrSome(given: string, current: Option<string>): Option<string> { if given != "" then Some(given) else current }

  /** The details every profile kind shares: a field is overwritten only by
      a non-empty value; `gender` is the already lowercased gender. */
  function MergeDetails(d: Details, req: UpdateRequest, gender: string): (r: Details)
    ensures r.userName == d.userName && r.referralCode == d.referralCode
    ensures r.name == OrString(req.name, d.name) && r.surname == OrString(req.surname, d.surname)
    ensures r.dob == OrString(req.dob, d.dob)
    ensures r.gender == (if req.gender != "" then gender else d.gender)
    ensures r.middleName == OrSome(req.middleName, d.middleName) && r.about == OrSome(req.about, d.about)
    ensures r.profilePicture == OrSome(req.profilePicture, d.profilePicture)
  {
    d.(name := OrString(req.name, d.name), middleName := OrSome(req.middleName, d.middleName),
       surname := OrString(req.surname, d.surname), dob := OrString(req.dob, d.dob),
       gender := if req.gender != "" then gender else d.gender, about := OrSome(req.about, d.about),
       profilePicture := OrSome(req.profilePicture, d.profilePicture))
  }

  /** The type switch of UpdateProfileHandler: a player takes the level
      fields (each lowercased and checked when given), a recruiter the
      organisation fields; any other profile type is a 500. */
  function MergeProfile(existing: Option<Profile>, req: UpdateRequest, gender: string): (r: Result<Profile, Response>)
    ensures existing.None? ==> r == Failure(Response(500, "Unknown profile type"))
    ensures r.Ok? ==> existing.Some? && r.value.id == existing.value.id && r.value.Role() == existing.value.Role()
                      && r.value.details == MergeDetails(existing.value.details, req, gender)
    ensures existing.Some? && existing.value.RecruiterProfile? ==>
              r == Ok(existing.value.(recruiter := RecruiterInfo(
                        OrString(req.organizationName, existing.value.recruiter.organizationName),
                        OrString(req.organizationId, existing.value.recruiter.organizationId),
                        OrString(req.phoneNumber, existing.value.recruiter.phoneNumber),
                        OrString(req.position, existing.value.recruiter.position)),
                      details := MergeDetails(existing.value.details, req, gender)))
    ensures existing.Some? && existing.value.PlayerProfile? ==>
              (r.Failure? <==> (req.level != "" && ParseLevel(req.level).None?)
                               || (req.interestLevel != "" && ParseLevel(req.interestLevel).None?))
    ensures existing.Some? && existing.value.PlayerProfile? && r.Ok? ==>
              r.value.player.level == (if req.level != "" then ToLower(req.level) else existing.value.player.level)
              && r.value.player.interestLevel ==
                   (if req.interestLevel != "" then ToLower(req.interestLevel) else existing.value.player.interestLevel)
              && r.value.player.interestCountry == OrSome(req.interestCountry, existing.value.player.interestCountry)
  {
    match existing
    case None => Failure(Response(500, "Unknown profile type"))
    case Some(PlayerProfile(id, d, info)) =>
      if req.level != "" && ParseLevel(req.level).None? then Failure(ErrInvalidLevel)
      else if req.interestLevel != "" && ParseLevel(req.interestLevel).None? then Failure(ErrInvalidInterestLevel)
      else
        Ok(PlayerProfile(id, MergeDetails(d, req, gender),
                         PlayerInfo(if req.level != "" then ToLower(req.level) else info.level,
                                    if req.interestLevel != "" then ToLower(req.interestLevel) else info.interestLevel,
                                    OrSome(req.interestCountry, info.interestCountry))))
    case Some(RecruiterProfile(id, d, info)) =>
      Ok(RecruiterProfile(id, MergeDetails(d, req, gender),
                          RecruiterInfo(OrString(req.organizationName, info.organizationName),
                                        OrString(req.organizationId, info.organizationId),
                                        OrString(req.phoneNumber, info.phoneNumber),
                                        OrString(req.position, info.position))))
  }

  /** An empty request leaves a stored profile as it is, and merging twice
      is merging once. */
  lemma MergeProfileLaws(p: Profile, req: UpdateRequest, gender: string)
    ensures MergeProfile(Some(p), NoChange, "") == Ok(p)
    ensures MergeProfile(Some(p), req, gender).Ok? ==>
              MergeProfile(Some(MergeProfile(Some(p), req, gender).value), req, gender) == MergeProfile(Some(p), req, gender)
  {
  }

  /** UpdateProfileHandler.  The caller's e-mail names the user; the
      profile is read (None: a value of another type), the gender checked
      when given, the fields merged and the result handed to the repository,
      whose error is `updateErr`.  The second component is the profile
      written. */
  function UpdateProfileHandler(email: Option<string>, userByEmail: string -> Result<string, Error>,
                                body: Option<UpdateRequest>, existing: Result<Option<Profile>, Error>,
                                updateErr: Option<Error>)
    : (r: (Response, Option<Profile>))
    ensures email.None? ==> r == (ErrNotAuthenticated, None)
    ensures email.Some? && userByEmail(email.value).Failure? ==>
              r == (Response(500, "Failed to get user information"), None)
    ensures email.Some? && userByEmail(email.value).Ok? && body.Some? && existing.Ok?
            && body.value.gender != "" && ParseGender(body.value.gender).None? ==>
              r == (ErrInvalidGender, None)
    ensures email.Some? && userByEmail(email.value).Ok? && body.Some? && existing == Ok(None)
            && (body.value.gender == "" || ParseGender(body.value.gender).Some?) ==>
              r == (Response(500, "Unknown profile type"), None)
    ensures r.1.Some? ==>
              email.Some? && userByEmail(email.value).Ok? && body.Some? && existing.Ok?
              && (body.value.gender == "" || ParseGender(body.value.gender).Some?)
              && MergeProfile(existing.value, body.value,
                              if body.value.gender != "" then ParseGender(body.value.gender).value else "")
                 == Ok(r.1.value)
    ensures email.Some? && userByEmail(email.value).Ok? && body.None? ==> r == (ErrInvalidFormat, None)
    ensures email.Some? && userByEmail(email.value).Ok? && body.Some? && existing.Failure? ==>
              r == (ErrorReply(existing.error), None)
    ensures email.Some? && userByEmail(email.value).Ok? && body.Some? && existing.Ok?
            && (body.value.gender == "" || ParseGender(body.value.gender).Some?) ==>
              var merged := MergeProfile(existing.value, body.value,
                                         if body.value.gender != "" then ParseGender(body.value.gender).value else "");
              (merged.Ok? ==> r.1 == Some(merged.value))
              && (merged.Failure? ==> r == (merged.error, None))
    ensures r.1.Some? && updateErr.Some? ==> r.0 == ErrorReply(updateErr.value)
    ensures r.0.status == 200 <==> r.1.Some? && updateErr.None?
  {
    if email.None? then (ErrNotAuthenticated, None)
    else match userByEmail(email.value)
      case Failure(_) => (Response(500, "Failed to get user information"), None)
      case Ok(_) =>
        if body.None? then (ErrInvalidFormat, None)
        else match existing
          case Failure(e) => (ErrorReply(e), None)
          case Ok(current) =>
            var req := body.value;
            if req.gender != "" && ParseGender(req.gender).None? then (ErrInvalidGender, None)
            else
              var gender := if req.gender != "" then ParseGender(req.gender).value else "";
              match MergeProfile(current, req, gender)
              case Failure(resp) => (resp, None)
              case Ok(merged) =>
                if updateErr.Some? then (ErrorReply(updateErr.value), Some(merged))
                else (Response(200, "Profile updated successfully"), Some(merged))
  }

  /** A merged profile keeps the stored id, so it passes the repository's
      type and id check whenever the stored profile did. */
  lemma MergedPassesCheck(p: Profile, req: UpdateRequest, gender: string)
    requires CheckProfile(Some(p)).Ok?
    ensures MergeProfile(Some(p), req, gender).Ok? ==> CheckProfile(Some(MergeProfile(Some(p), req, gender).value)).Ok?
  {
  }

  // ------------------------------------------------------- referral codes

  /** GenerateReferalCodeHandler: a user who already has a code gets it
      back unchanged; otherwise a fresh code is drawn and stored.  The
      second result is the code returned, the third the code written. */
  method GenerateReferralCodeHandler(userId: Option<string>, hasCode: string -> Result<bool, Error>,
                                     currentCode: string -> Result<string, Error>,
                                     codeExists: string -> Result<bool, Error>, candidates: seq<string>,
                                     setErr: Option<Error>)
    returns (resp: Response, code: Option<string>, written: Option<string>)
    requires EventuallyAnswered(candidates, codeExists)
    ensures userId.None? ==> resp == ErrNotAuthenticated && code.None? && written.None?
    ensures userId.Some? && hasCode(userId.value) == Ok(true) ==>
              written.None? && code == (if currentCode(userId.value).Ok? then Some(currentCode(userId.value).value) else None)
    ensures written.Some? ==>
              userId.Some? && hasCode(userId.value) == Ok(false)
              && DrawFrom(candidates, codeExists, 0) == Drawn(written.value, DrawFrom(candidates, codeExists, 0).attempt)
              && codeExists(written.value) == Ok(false)
    ensures code.Some? <==> resp.status == 200
    ensures code.Some? && written.Some? ==> code == written && setErr.None?
    ensures userId.Some? && hasCode(userId.value) == Ok(false) && DrawFrom(candidates, codeExists, 0).Drawn? ==>
              written == Some(DrawFrom(candidates, codeExists, 0).code)
              && (resp.status == 200 <==> setErr.None?)
              && (setErr.None? ==> code == written && resp.message == "Referal code generated successfully")
  {
    code, written := None, None;
    if userId.None? {
      return ErrNotAuthenticated, None, None;
    }
    var id := userId.value;
    match hasCode(id) {
      case Failure(e) =>
        return ErrorReply(e), None, None;
      case Ok(has) =>
        if has {
          match currentCode(id) {
            case Failure(e) =>
              return ErrorReply(e), None, None;
            case Ok(existing) =>
              return Response(200, "Referal code already exists"), Some(existing), None;
          }
        }
    }
    AnsweredIsNotExhausted(candidates, codeExists);
    var draw := DrawReferralCode(candidates, codeExists);
    if !draw.Drawn? {
      return ErrorReply(draw.error), None, None;
    }
    written := Some(draw.code);
    if setErr.Some? {
      return ErrorReply(setErr.value), None, written;
    }
    return Response(200, "Referal code generated successfully"), written, written;
  }

  /** RegisterDeviceTokenHandler: both body fields are required (the body
      is bound before the caller is checked). */
  function RegisterDeviceTokenHandler(body: Option<(string, string)>, userId: Option<string>, addErr: Option<Error>)
    : (r: (Response, Option<(string, string, string)>))
    ensures r.1.Some? <==> body.Some? && body.value.0 != "" && body.value.1 != "" && userId.Some?
    ensures r.1.Some? ==> r.1.value == (userId.value, body.value.0, body.value.1)
    ensures body.None? ==> r.0 == ErrInvalidFormat
    ensures r.0.status == 200 <==> r.1.Some? && addErr.None?
  {
    if body.None? || body.value.0 == "" || body.value.1 == "" then (ErrInvalidFormat, None)
    else if userId.None? then (ErrNotAuthenticated, None)
    else
      var rec := (userId.value, body.value.0, body.value.1);
      if addErr.Some? then (ErrorReply(addErr.value), Some(rec))
      else (Response(200, "Device token registered successfully"), Some(rec))
  }
}
