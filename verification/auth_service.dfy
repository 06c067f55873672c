/** `AuthService`: the session flows carried out step by step against the
    account stores, each proved to end in the state and the outcome that the
    matching function of `Session` gives for the state it started from. */
module Auth {
  import opened Wrappers
  import opened Tokens
  import opened Accounts
  import opened Session

  class AuthService {
    const stores: AccountStores

    constructor(stores: AccountStores)
      ensures this.stores == stores
    {
      this.stores := stores;
    }

    /** `storeRefreshTokenForStudent`: hash, then overwrite. */
    method StoreRefreshTokenForStudent(id: Id, token: Token, fails: bool) returns (r: Result<(), Failure>)
      modifies stores
      ensures Step(stores.State(), r) == Session.StoreRefreshTokenForStudent(old(stores.State()), id, token, fails)
    {
      if fails {
        return Err(WriteFailed);
      }
      var hashed := Hashed(HashInput(token));
      stores.SetStudentRefreshToken(id, hashed);
      r := Ok(());
    }

    /** `storeRefreshTokenForCitizen`: hash, then overwrite. */
    method StoreRefreshTokenForCitizen(id: Id, token: Token, fails: bool) returns (r: Result<(), Failure>)
      modifies stores
      ensures Step(stores.State(), r) == Session.StoreRefreshTokenForCitizen(old(stores.State()), id, token, fails)
    {
      if fails {
        return Err(WriteFailed);
      }
      var hashed := Hashed(HashInput(token));
      stores.SetCitizenRefreshToken(id, hashed);
      r := Ok(());
    }

    /** `signIn`: both lookups complete first, then the student record wins
        over the citizen record; either way the refresh token goes through
        the student vault. */
    method SignIn(id: Id, fails: bool) returns (r: Result<TokenPair, Failure>)
      modifies stores
      ensures Step(stores.State(), r) == Session.SignIn(old(stores.State()), id, fails)
    {
      var student := id in stores.students;
      var citizen := id in stores.citizens;
      if student {
        var accessToken := GenerateAccessToken(TokenPayload(id, "Student"));
        var refreshToken := GenerateRefreshToken(TokenPayload(id, "Student"));
        var stored := StoreRefreshTokenForStudent(id, refreshToken, fails);
        if stored.Err? {
          return Err(stored.error);
        }
        r := Ok(TokenPair(accessToken, refreshToken));
      } else if citizen {
        var accessToken := GenerateAccessToken(TokenPayload(id, "Citizen"));
        var refreshToken := GenerateRefreshToken(TokenPayload(id, "Citizen"));
        var stored := StoreRefreshTokenForStudent(id, refreshToken, fails);
        if stored.Err? {
          return Err(stored.error);
        }
        r := Ok(TokenPair(accessToken, refreshToken));
      } else {
        r := Err(BadRequest(UserNotFound, UserNotFoundDetails));
      }
    }

    /** `signUpWithStudent`.  `newId` names the id the student store gave the
        created document (or, when nothing is created, any id it does not
        hold). */
    method SignUpWithStudent(dto: StudentSignUp, fails: bool) returns (r: Result<TokenPair, Failure>, ghost newId: Id)
      modifies stores
      ensures newId !in old(stores.students)
      ensures Step(stores.State(), r) == Session.SignUpWithStudent(old(stores.State()), dto, newId, fails)
    {
      var studentHit := PhoneTaken(stores.students, dto.phoneNumber);
      var citizenHit := PhoneTaken(stores.citizens, dto.phoneNumber);
      if studentHit || citizenHit {
        UnusedIdExists(stores.students.Keys);
        newId :| newId !in stores.students.Keys;
        return Err(BadRequest(CitizenPhoneNumberExists, PhoneExistsDetails)), newId;
      }
      var id := stores.CreateStudent(dto.firstName, dto.lastName, dto.phoneNumber, dto.organizationId);
      newId := id;
      var refreshToken := GenerateRefreshToken(TokenPayload(id, "Student"));
      var stored := StoreRefreshTokenForStudent(id, refreshToken, fails);
      if stored.Err? {
        return Err(ProcessingError(TokenProcessingMessage)), newId;
      }
      r := Ok(TokenPair(GenerateAccessToken(TokenPayload(id, "Student")), refreshToken));
    }

    /** `signUpWithCitizen`: the refresh token is written raw, straight
        through the citizen store. */
    method SignUpWithCitizen(dto: CitizenSignUp, fails: bool) returns (r: Result<TokenPair, Failure>, ghost newId: Id)
      modifies stores
      ensures newId !in old(stores.citizens)
      ensures Step(stores.State(), r) == Session.SignUpWithCitizen(old(stores.State()), dto, newId, fails)
    {
      var studentHit := PhoneTaken(stores.students, dto.phoneNumber);
      var citizenHit := PhoneTaken(stores.citizens, dto.phoneNumber);
      if studentHit || citizenHit {
        UnusedIdExists(stores.citizens.Keys);
        newId :| newId !in stores.citizens.Keys;
        return Err(BadRequest(CitizenPhoneNumberExists, PhoneExistsDetails)), newId;
      }
      var id := stores.CreateCitizen(dto.firstName, dto.lastName, dto.phoneNumber);
      newId := id;
      var refreshToken := GenerateRefreshToken(TokenPayload(id, "Citizen"));
      if fails {
        return Err(ProcessingError(TokenProcessingMessage)), newId;
      }
      stores.SetCitizenRefreshToken(id, Raw(refreshToken));
      r := Ok(TokenPair(GenerateAccessToken(TokenPayload(id, "Citizen")), refreshToken));
    }

    /** `authInWithGoogle`: look the admin up by email and, if found, hand
        back `signInAdmin`'s pair; an unknown email yields no value.  Nothing
        is written. */
    method AuthInWithGoogle(email: string) returns (r: Option<TokenPair>)
      ensures r.None? <==> forall id :: !AdminWithEmail(stores.State(), id, email)
      ensures r.Some? ==> exists id :: AdminWithEmail(stores.State(), id, email) &&
                                       r == SignInAdmin(stores.State(), id)
    {
      if exists id :: id in stores.admins && stores.admins[id].email == email {
        var id :| id in stores.admins && stores.admins[id].email == email;
        r := SignInAdmin(stores.State(), id);
        assert AdminWithEmail(stores.State(), id, email);
      } else {
        r := None;
      }
    }
  }
}
