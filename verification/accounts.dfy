/** The three account stores the authentication service works on (students,
    citizens, administrators), as values (`Db`) and as the mutable object the
    service writes through (`AccountStores`).  Each store is a map from a
    document id to its record; ids are unique within one store only. */
module Accounts {
  import opened Wrappers
  import opened Tokens

  type Id = string

  /** What `bcrypt.hash` reads of a token.  bcrypt uses only the first 72
      bytes of its input.  Every token signed here starts with the same
      37 bytes: the base64url of the RS256 header `{"alg":"RS256","typ":"JWT"}`
      and a dot.  The next 35 base64url characters encode 26 bytes of the
      claim set and the top 2 bits of its 27th byte, and base64url is
      one-to-one.  So the hash depends on `claimBytes` and `nextBits` and on
      nothing else. */
  datatype BcryptInput = BcryptInput(claimBytes: string, nextBits: int)

  /** The part of a token that reaches bcrypt.  A claim set shorter than 27
      bytes would let `iat` in; no token issued here has one (every role is
      at least 5 characters long), and `-1` stands for that case. */
  function HashInput(t: Token): BcryptInput
  {
    var s := ClaimsPrefix(t);
    if |s| >= 27 then BcryptInput(s[..26], s[26] as int / 64) else BcryptInput(s, -1)
  }

  /** The signing key never reaches bcrypt: an access token and a refresh
      token with the same claims have the same hash input. */
  lemma HashInputIgnoresKind(t: Token, k: TokenKind)
    ensures HashInput(t.(kind := k)) == HashInput(t)
  {
  }

  /** Once the user id has 16 characters, bcrypt sees its first 15 and two
      bits of the 16th, and nothing of the role or of the key kind. */
  lemma HashInputOfLongId(t: Token)
    requires |t.userId| >= 16
    ensures HashInput(t) == BcryptInput("{\"userId\":\"" + t.userId[..15], t.userId[15] as int / 64)
  {
  }

  /** The `current_refresh_token` field.
      - `Hashed(input)` is a bcrypt hash.  The salt is abstracted, so a hash
        is what bcrypt read of the token.
      - `Raw(token)` is a token stored without hashing.
      - `NoToken` is a record that was never given one.
      - `HashedDigest(token)` is not written by any flow of the service: it
        is the hash of a collision-free digest of the whole token, which is
        what the refresh-token vault evidently intends. */
  datatype Credential = NoToken | Raw(token: Token) | Hashed(input: BcryptInput) | HashedDigest(token: Token)

  /** `bcrypt.compare(presented, stored)`: true when bcrypt reads the same
      input from the presented token as it read from the stored one. */
  predicate Matches(stored: Credential, presented: Token)
  {
    stored == Hashed(HashInput(presented))
  }

  /** The comparison the vault evidently intends: the whole token counts. */
  predicate MatchesDigest(stored: Credential, presented: Token)
  {
    stored == HashedDigest(presented)
  }

  datatype Account = Account(
    firstName: string,
    lastName: string,
    phoneNumber: string,
    organizationId: Option<string>,
    currentRefreshToken: Credential)

  datatype Admin = Admin(account: Account, email: string)

  /** A snapshot of the three stores. */
  datatype Db = Db(
    students: map<Id, Account>,
    citizens: map<Id, Account>,
    admins: map<Id, Admin>)

  /** `findOneByCondition({ phone_number })` returns a document. */
  predicate PhoneTaken(store: map<Id, Account>, phone: string)
  {
    exists id :: id in store && store[id].phoneNumber == phone
  }

  /** `setCurrentRefreshToken(id, value)`: overwrite the field of the record
      with that id and touch nothing else; an id the store does not hold
      matches no document and changes nothing. */
  function SetCredential(store: map<Id, Account>, id: Id, c: Credential): (r: map<Id, Account>)
    ensures r.Keys == store.Keys
    ensures id in store ==> r[id] == store[id].(currentRefreshToken := c)
    ensures forall k :: k in store && k != id ==> r[k] == store[k]
  {
    if id in store then store[id := store[id].(currentRefreshToken := c)] else store
  }

  /** A length no key of a finite store reaches; it shows that a store can
      always hand out an id it does not hold yet. */
  ghost function LengthBound(keys: set<Id>): (n: nat)
    ensures forall k :: k in keys ==> |k| < n
    decreases |keys|
  {
    if keys == {} then 0
    else
      var k :| k in keys;
      var m := LengthBound(keys - {k});
      if |k| < m then m else |k| + 1
  }

  /** Every finite store leaves some id unused. */
  lemma UnusedIdExists(keys: set<Id>)
    ensures exists id :: id !in keys
  {
    var n := LengthBound(keys);
    var unused: Id := seq(n, _ => 'x');
    assert unused !in keys;
  }

  /** The stores as the service sees them: the students, citizens and admin
      collections behind `StudentsService`, `CitizensService` and
      `AdminService`. */
  class AccountStores {
    var students: map<Id, Account>
    var citizens: map<Id, Account>
    var admins: map<Id, Admin>

    constructor(students: map<Id, Account>, citizens: map<Id, Account>, admins: map<Id, Admin>)
      ensures State() == Db(students, citizens, admins)
    {
      this.students := students;
      this.citizens := citizens;
      this.admins := admins;
    }

    function State(): Db
      reads this
    {
      Db(students, citizens, admins)
    }

    /** `StudentsService.create`: insert a new student under an id the store
        does not hold yet, with no refresh token. */
    method CreateStudent(firstName: string, lastName: string, phoneNumber: string, organizationId: Option<string>)
      returns (id: Id)
      modifies this
      ensures id !in old(students)
      ensures students == old(students)[id := Account(firstName, lastName, phoneNumber, organizationId, NoToken)]
      ensures citizens == old(citizens) && admins == old(admins)
    {
      UnusedIdExists(students.Keys);
      id :| id !in students.Keys;
      students := students[id := Account(firstName, lastName, phoneNumber, organizationId, NoToken)];
    }

    /** `CitizensService.create`: insert a new citizen under an id the store
        does not hold yet, with no refresh token. */
    method CreateCitizen(firstName: string, lastName: string, phoneNumber: string)
      returns (id: Id)
      modifies this
      ensures id !in old(citizens)
      ensures citizens == old(citizens)[id := Account(firstName, lastName, phoneNumber, None, NoToken)]
      ensures students == old(students) && admins == old(admins)
    {
      UnusedIdExists(citizens.Keys);
      id :| id !in citizens.Keys;
      citizens := citizens[id := Account(firstName, lastName, phoneNumber, None, NoToken)];
    }

    /** `StudentsService.setCurrentRefreshToken`. */
    method SetStudentRefreshToken(id: Id, c: Credential)
      modifies this
      ensures students == SetCredential(old(students), id, c)
      ensures citizens == old(citizens) && admins == old(admins)
    {
      students := SetCredential(students, id, c);
    }

    /** `CitizensService.setCurrentRefreshToken`. */
    method SetCitizenRefreshToken(id: Id, c: Credential)
      modifies this
      ensures citizens == SetCredential(old(citizens), id, c)
      ensures students == old(students) && admins == old(admins)
    {
      citizens := SetCredential(citizens, id, c);
    }
  }
}
