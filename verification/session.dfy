/** The session flows of `AuthService` as functions from a snapshot of the
    account stores to the snapshot after the call and the call's outcome.
    The `Auth` module's methods carry out the same flows step by step and are
    proved equal to these functions; the properties of the flows are stated
    here, on the functions. */
module Session {
  import opened Wrappers
  import opened Tokens
  import opened Accounts

  /** The `message` keys of `ERRORS_DICTIONARY` the flows raise. */
  datatype ErrorCode = UserNotFound | CitizenPhoneNumberExists

  /** What a flow throws. */
  datatype Failure =
    | BadRequest(code: ErrorCode, details: string)   // BadRequestException
    | WriteFailed                                    // a hash or store-write error, rethrown unchanged
    | ProcessingError(message: string)               // the generic Error of the sign-up flows
    | HttpBadRequest(status: string, message: string) // HttpException with HttpStatus.BAD_REQUEST

  const UserNotFoundDetails := "User not found!!"
  const PhoneExistsDetails := "Phone number already exist"
  const TokenProcessingMessage := "An error occurred while processing tokens. Please try again."
  const OtpSentinel := "000000"

  /** The stores after a call, and what the call returned or threw. */
  datatype Step<T> = Step(db: Db, result: Result<T, Failure>)

  datatype StudentSignUp = StudentSignUp(firstName: string, lastName: string, phoneNumber: string, organizationId: Option<string>)
  datatype CitizenSignUp = CitizenSignUp(firstName: string, lastName: string, phoneNumber: string)
  datatype OtpVerified = OtpVerified(success: bool, message: string)

  /** An access and a refresh token for the same subject and role. */
  function IssuePair(id: Id, role: string): (p: TokenPair)
    ensures Verify(Access, p.accessToken) == Some(TokenPayload(id, role))
    ensures Verify(Refresh, p.refreshToken) == Some(TokenPayload(id, role))
  {
    TokenPair(GenerateAccessToken(TokenPayload(id, role)), GenerateRefreshToken(TokenPayload(id, role)))
  }

  /** `storeRefreshTokenForStudent`: hash the token, then overwrite the
      student's `current_refresh_token`.  `fails` injects a failure of the
      hash or of the write, which is rethrown and writes nothing. */
  function StoreRefreshTokenForStudent(db: Db, id: Id, token: Token, fails: bool): (r: Step<()>)
    ensures r.result.Ok? <==> !fails
    ensures r.result.Err? ==> r.result.error == WriteFailed && r.db == db
    ensures r.db.citizens == db.citizens && r.db.admins == db.admins
    ensures r.db.students.Keys == db.students.Keys
    ensures forall k :: k in db.students && k != id ==> r.db.students[k] == db.students[k]
    ensures !fails && id in db.students ==>
      r.db.students[id] == db.students[id].(currentRefreshToken := Hashed(HashInput(token))) &&
      Matches(r.db.students[id].currentRefreshToken, token)
  {
    if fails then Step(db, Err(WriteFailed))
    else Step(db.(students := SetCredential(db.students, id, Hashed(HashInput(token)))), Ok(()))
  }

  /** `storeRefreshTokenForCitizen`: the same vault over the citizen store. */
  function StoreRefreshTokenForCitizen(db: Db, id: Id, token: Token, fails: bool): (r: Step<()>)
    ensures r.result.Ok? <==> !fails
    ensures r.result.Err? ==> r.result.error == WriteFailed && r.db == db
    ensures r.db.students == db.students && r.db.admins == db.admins
    ensures r.db.citizens.Keys == db.citizens.Keys
    ensures forall k :: k in db.citizens && k != id ==> r.db.citizens[k] == db.citizens[k]
    ensures !fails && id in db.citizens ==>
      r.db.citizens[id] == db.citizens[id].(currentRefreshToken := Hashed(HashInput(token))) &&
      Matches(r.db.citizens[id].currentRefreshToken, token)
  {
    if fails then Step(db, Err(WriteFailed))
    else Step(db.(citizens := SetCredential(db.citizens, id, Hashed(HashInput(token)))), Ok(()))
  }

  /** The student vault as evidently intended: bcrypt over a collision-free
      digest of the whole token, so no earlier token survives a rotation.
      No flow of the service uses it. */
  function StoreRefreshTokenDigestForStudent(db: Db, id: Id, token: Token, fails: bool): (r: Step<()>)
    ensures r.result.Ok? <==> !fails
    ensures r.result.Err? ==> r.result.error == WriteFailed && r.db == db
    ensures r.db.citizens == db.citizens && r.db.admins == db.admins
    ensures r.db.students.Keys == db.students.Keys
    ensures forall k :: k in db.students && k != id ==> r.db.students[k] == db.students[k]
    ensures !fails && id in db.students ==>
      forall t :: MatchesDigest(r.db.students[id].currentRefreshToken, t) <==> t == token
  {
    if fails then Step(db, Err(WriteFailed))
    else Step(db.(students := SetCredential(db.students, id, HashedDigest(token))), Ok(()))
  }

  /** Mint a pair for `id` with `role` and store its refresh token through
      the STUDENT vault, as both branches of `signIn` do. */
  function IssueThroughStudentVault(db: Db, id: Id, role: string, fails: bool): Step<TokenPair>
  {
    var pair := IssuePair(id, role);
    var stored := StoreRefreshTokenForStudent(db, id, pair.refreshToken, fails);
    if stored.result.Err? then Step(stored.db, Err(stored.result.error))
    else Step(stored.db, Ok(pair))
  }

  /** `signIn(_id)`: the student store is consulted first, then the citizen
      store. */
  function SignIn(db: Db, id: Id, fails: bool): (r: Step<TokenPair>)
    ensures r.result.Ok? <==> (id in db.students || id in db.citizens) && !fails
    ensures r.result.Err? ==> r.db == db
    ensures id !in db.students && id !in db.citizens ==>
      r.result == Err(BadRequest(UserNotFound, UserNotFoundDetails))
    ensures id in db.students && fails ==> r.result == Err(WriteFailed)
    ensures id in db.students && !fails ==>
      r.result.value == IssuePair(id, "Student") &&
      r.db == db.(students := db.students[id := db.students[id].(currentRefreshToken := Hashed(HashInput(r.result.value.refreshToken)))])
    ensures id !in db.students && id in db.citizens ==>
      r.db == db &&
      (!fails ==> r.result.value == IssuePair(id, "Citizen")) &&
      (fails ==> r.result == Err(WriteFailed))
  {
    if id in db.students then IssueThroughStudentVault(db, id, "Student", fails)
    else if id in db.citizens then IssueThroughStudentVault(db, id, "Citizen", fails)
    else Step(db, Err(BadRequest(UserNotFound, UserNotFoundDetails)))
  }

  /** The existence probe of both sign-up flows: the phone number is looked
      up in the student store and in the citizen store. */
  predicate PhoneInUse(db: Db, phone: string)
  {
    PhoneTaken(db.students, phone) || PhoneTaken(db.citizens, phone)
  }

  /** `signUpWithStudent`.  `newId` is the id the student store assigns to
      the created document; `fails` injects a failure of the refresh-token
      storage that follows the creation. */
  function SignUpWithStudent(db: Db, dto: StudentSignUp, newId: Id, fails: bool): (r: Step<TokenPair>)
    requires newId !in db.students
    ensures PhoneInUse(db, dto.phoneNumber) <==>
      r.result == Err(BadRequest(CitizenPhoneNumberExists, PhoneExistsDetails))
    ensures PhoneInUse(db, dto.phoneNumber) ==> r.db == db
    ensures !PhoneInUse(db, dto.phoneNumber) ==>
      r.db.citizens == db.citizens && r.db.admins == db.admins &&
      r.db.students.Keys == db.students.Keys + {newId} &&
      (forall k :: k in db.students ==> r.db.students[k] == db.students[k])
    ensures !PhoneInUse(db, dto.phoneNumber) && !fails ==>
      r.result == Ok(IssuePair(newId, "Student")) &&
      r.db.students[newId] == Account(dto.firstName, dto.lastName, dto.phoneNumber, dto.organizationId,
                                      Hashed(HashInput(r.result.value.refreshToken)))
    ensures !PhoneInUse(db, dto.phoneNumber) && fails ==>
      r.result == Err(ProcessingError(TokenProcessingMessage)) &&
      r.db.students[newId] == Account(dto.firstName, dto.lastName, dto.phoneNumber, dto.organizationId, NoToken)
  {
    if PhoneTaken(db.students, dto.phoneNumber) then
      Step(db, Err(BadRequest(CitizenPhoneNumberExists, PhoneExistsDetails)))
    else if PhoneTaken(db.citizens, dto.phoneNumber) then
      Step(db, Err(BadRequest(CitizenPhoneNumberExists, PhoneExistsDetails)))
    else
      var created := db.(students := db.students[newId := Account(dto.firstName, dto.lastName, dto.phoneNumber, dto.organizationId, NoToken)]);
      var refresh := GenerateRefreshToken(TokenPayload(newId, "Student"));
      var stored := StoreRefreshTokenForStudent(created, newId, refresh, fails);
      if stored.result.Err? then Step(stored.db, Err(ProcessingError(TokenProcessingMessage)))
      else Step(stored.db, Ok(TokenPair(GenerateAccessToken(TokenPayload(newId, "Student")), refresh)))
  }

  /** `signUpWithCitizen`.  Unlike the student flow, the refresh token is
      written with `CitizensService.setCurrentRefreshToken` directly, so it is
      stored raw. */
  function SignUpWithCitizen(db: Db, dto: CitizenSignUp, newId: Id, fails: bool): (r: Step<TokenPair>)
    requires newId !in db.citizens
    ensures PhoneInUse(db, dto.phoneNumber) <==>
      r.result == Err(BadRequest(CitizenPhoneNumberExists, PhoneExistsDetails))
    ensures PhoneInUse(db, dto.phoneNumber) ==> r.db == db
    ensures !PhoneInUse(db, dto.phoneNumber) ==>
      r.db.students == db.students && r.db.admins == db.admins &&
      r.db.citizens.Keys == db.citizens.Keys + {newId} &&
      (forall k :: k in db.citizens ==> r.db.citizens[k] == db.citizens[k])
    ensures !PhoneInUse(db, dto.phoneNumber) && !fails ==>
      r.result == Ok(IssuePair(newId, "Citizen")) &&
      r.db.citizens[newId] == Account(dto.firstName, dto.lastName, dto.phoneNumber, None,
                                      Raw(r.result.value.refreshToken))
    ensures !PhoneInUse(db, dto.phoneNumber) && fails ==>
      r.result == Err(ProcessingError(TokenProcessingMessage)) &&
      r.db.citizens[newId] == Account(dto.firstName, dto.lastName, dto.phoneNumber, None, NoToken)
  {
    if PhoneTaken(db.students, dto.phoneNumber) then
      Step(db, Err(BadRequest(CitizenPhoneNumberExists, PhoneExistsDetails)))
    else if PhoneTaken(db.citizens, dto.phoneNumber) then
      Step(db, Err(BadRequest(CitizenPhoneNumberExists, PhoneExistsDetails)))
    else
      var created := db.(citizens := db.citizens[newId := Account(dto.firstName, dto.lastName, dto.phoneNumber, None, NoToken)]);
      var refresh := GenerateRefreshToken(TokenPayload(newId, "Citizen"));
      if fails then Step(created, Err(ProcessingError(TokenProcessingMessage)))
      else
        Step(created.(citizens := SetCredential(created.citizens, newId, Raw(refresh))),
             Ok(TokenPair(GenerateAccessToken(TokenPayload(newId, "Citizen")), refresh)))
  }

  /** `verifyOTP`: a fixed sentinel is the only accepted passcode. */
  function VerifyOtp(otp: string): (r: Result<OtpVerified, Failure>)
    ensures r.Ok? <==> otp == OtpSentinel
    ensures r.Ok? ==> r.value == OtpVerified(true, "OTP Verified Successfully")
    ensures r.Err? ==> r.error == HttpBadRequest("error", "Invalid OTP")
  {
    if otp == OtpSentinel then Ok(OtpVerified(true, "OTP Verified Successfully"))
    else Err(HttpBadRequest("error", "Invalid OTP"))
  }

  /** `signInAdmin(_id)`: read-only; nothing is stored, and the refresh token
      carries the role "admin" while the access token carries "Admin".  An
      unknown id yields no value. */
  function SignInAdmin(db: Db, id: Id): (r: Option<TokenPair>)
    ensures r.Some? <==> id in db.admins
    ensures r.Some? ==>
      Verify(Access, r.value.accessToken) == Some(TokenPayload(id, "Admin")) &&
      Verify(Refresh, r.value.refreshToken) == Some(TokenPayload(id, "admin"))
  {
    if id in db.admins then
      Some(TokenPair(GenerateAccessToken(TokenPayload(id, "Admin")), GenerateRefreshToken(TokenPayload(id, "admin"))))
    else None
  }

  /** `findOneByCondition({ email })` on the admin store finds a document. */
  predicate AdminWithEmail(db: Db, id: Id, email: string)
  {
    id in db.admins && db.admins[id].email == email
  }
}
