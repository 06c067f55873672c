/** Properties of the session flows that relate several calls, or a flow
    and the role gate. */
module SessionProperties {
  import opened Wrappers
  import opened Tokens
  import opened Accounts
  import opened Session
  import RolesGuard

  /** The student store decides `signIn` for an id it holds: the citizen
      store, whatever it contains, changes neither the tokens nor the
      student records. */
  lemma SignInPrefersStudents(db: Db, otherCitizens: map<Id, Account>, id: Id, fails: bool)
    requires id in db.students
    ensures var r1 := SignIn(db, id, fails);
            var r2 := SignIn(db.(citizens := otherCitizens), id, fails);
            r1.result == r2.result && r1.db.students == r2.db.students
  {
  }

  /** Rotation as the vault does it: the latest token matches, and an
      earlier one matches exactly when bcrypt reads the same input from it. */
  lemma RotationKeepsSameHashInput(db: Db, id: Id, first: Token, second: Token)
    requires id in db.students
    ensures var once := StoreRefreshTokenForStudent(db, id, first, false).db;
            var twice := StoreRefreshTokenForStudent(once, id, second, false).db;
            Matches(twice.students[id].currentRefreshToken, second) &&
            (Matches(twice.students[id].currentRefreshToken, first) <==> HashInput(first) == HashInput(second))
  {
  }

  /** Rotation revokes nothing for an id of 16 characters or more (a
      MongoDB ObjectId has 24): every earlier token of the same user, of any
      role and signed with either key, still matches the new hash. */
  lemma EarlierTokensOfSameUserStillMatch(db: Db, id: Id, first: Token, second: Token)
    requires id in db.students && |id| >= 16
    requires first.userId == id && second.userId == id
    ensures var once := StoreRefreshTokenForStudent(db, id, first, false).db;
            var twice := StoreRefreshTokenForStudent(once, id, second, false).db;
            Matches(twice.students[id].currentRefreshToken, first)
  {
  }

  /** A concrete case: a student's refresh token with role "Citizen" still
      matches after the one with role "Student" replaced it. */
  lemma EarlierRefreshTokenStillMatchesExample()
    ensures var id := "65f1c0ffee0123456789abcd";
            var db := Db(map[id := Account("Ann", "Le", "0900000000", None, NoToken)], map[], map[]);
            var first := GenerateRefreshToken(TokenPayload(id, "Citizen"));
            var second := GenerateRefreshToken(TokenPayload(id, "Student"));
            var once := StoreRefreshTokenForStudent(db, id, first, false).db;
            var twice := StoreRefreshTokenForStudent(once, id, second, false).db;
            first != second && Matches(twice.students[id].currentRefreshToken, first)
  {
  }

  /** The intended vault: storing a second digest-hashed token revokes the
      first unless it is the same token. */
  lemma DigestRotationRevokesPrevious(db: Db, id: Id, first: Token, second: Token)
    requires id in db.students
    ensures var once := StoreRefreshTokenDigestForStudent(db, id, first, false).db;
            var twice := StoreRefreshTokenDigestForStudent(once, id, second, false).db;
            MatchesDigest(twice.students[id].currentRefreshToken, second) &&
            (MatchesDigest(twice.students[id].currentRefreshToken, first) <==> first == second)
  {
  }

  /** A student who signed up can sign in with the id the sign-up returned.
      The new pair carries the same claims as the sign-up pair, and the
      stored hash is now that of the sign-in's refresh token. */
  lemma StudentSignUpThenSignIn(db: Db, dto: StudentSignUp, newId: Id)
    requires newId !in db.students
    requires !PhoneInUse(db, dto.phoneNumber)
    ensures var up := SignUpWithStudent(db, dto, newId, false);
            var again := SignIn(up.db, newId, false);
            up.result.Ok? && again.result.Ok? &&
            Verify(Access, again.result.value.accessToken) == Verify(Access, up.result.value.accessToken) &&
            Verify(Refresh, again.result.value.refreshToken) == Verify(Refresh, up.result.value.refreshToken) &&
            Matches(again.db.students[newId].currentRefreshToken, again.result.value.refreshToken)
  {
  }

  /** A citizen's refresh token never verifies: sign-up stores it raw, and a
      later `signIn` writes the new hash through the student store, leaving
      the citizen's record as it was. */
  lemma CitizenRefreshTokenNeverVerifies(db: Db, dto: CitizenSignUp, newId: Id)
    requires newId !in db.citizens && newId !in db.students
    requires !PhoneInUse(db, dto.phoneNumber)
    ensures var up := SignUpWithCitizen(db, dto, newId, false);
            var again := SignIn(up.db, newId, false);
            up.result.Ok? && again.result.Ok? &&
            !Matches(up.db.citizens[newId].currentRefreshToken, up.result.value.refreshToken) &&
            !Matches(again.db.citizens[newId].currentRefreshToken, again.result.value.refreshToken) &&
            again.db == up.db
  {
  }

  /** The role names the service issues.  They are taken to be the values
      of `RolesEnum`, which is not part of this model. */
  predicate IsDeclaredRole(role: string)
  {
    role == "Student" || role == "Citizen" || role == "Admin"
  }

  /** The admin path mints a refresh token whose role is none of the declared
      roles, so a route restricted to "Admin" turns away a caller carrying
      that token's claims. */
  lemma AdminRefreshRoleIsRejected(db: Db, id: Id)
    requires id in db.admins
    ensures var pair := SignInAdmin(db, id).value;
            IsDeclaredRole(pair.accessToken.role) &&
            !IsDeclaredRole(pair.refreshToken.role) &&
            RolesGuard.CanActivate(Some(["Admin"]), Some(RolesGuard.RequestUser(pair.accessToken.role))).Returns? &&
            RolesGuard.CanActivate(Some(["Admin"]), Some(RolesGuard.RequestUser(pair.refreshToken.role))).Throws?
  {
  }

  /** Phone numbers are unique within the student store, within the citizen
      store, and across the two. */
  ghost predicate PhonesUnique(db: Db)
  {
    (forall a, b :: a in db.students && b in db.students && a != b ==>
       db.students[a].phoneNumber != db.students[b].phoneNumber) &&
    (forall a, b :: a in db.citizens && b in db.citizens && a != b ==>
       db.citizens[a].phoneNumber != db.citizens[b].phoneNumber) &&
    (forall a, b :: a in db.students && b in db.citizens ==>
       db.students[a].phoneNumber != db.citizens[b].phoneNumber)
  }

  /** A student sign-up keeps phone numbers unique: a record is only created
      for a number that neither store holds. */
  lemma SignUpWithStudentKeepsPhonesUnique(db: Db, dto: StudentSignUp, newId: Id, fails: bool)
    requires newId !in db.students
    requires PhonesUnique(db)
    ensures PhonesUnique(SignUpWithStudent(db, dto, newId, fails).db)
  {
  }

  /** A citizen sign-up keeps phone numbers unique, for the same reason. */
  lemma SignUpWithCitizenKeepsPhonesUnique(db: Db, dto: CitizenSignUp, newId: Id, fails: bool)
    requires newId !in db.citizens
    requires PhonesUnique(db)
    ensures PhonesUnique(SignUpWithCitizen(db, dto, newId, fails).db)
  {
  }

  /** `signIn` rewrites credentials only, so the phone numbers stay unique. */
  lemma SignInKeepsPhonesUnique(db: Db, id: Id, fails: bool)
    requires PhonesUnique(db)
    ensures PhonesUnique(SignIn(db, id, fails).db)
  {
  }
}
