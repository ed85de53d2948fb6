/** The users service: sign-up, sign-in, profile update and removal over the
    users collection, with hashing and token signing kept abstract. */
module Users {
  import opened Ids
  import opened Outcomes
  import opened Credentials

  type UserId = ObjectId

  const EMAIL_IN_USE := "email in use!"
  const EMAIL_NOT_REGISTERED := "The given email is not registered yet!"
  const USER_NOT_FOUND := "User not found!"
  const SAME_PASSWORD := "The new password can't be the same as the old one!"

  /** The only keys a profile update may carry. */
  const ALLOWED_FIELDS: seq<string> := ["fullName", "email", "password"]

  /** What the password field of a stored user holds: normally a digest, but
      whatever string an update assigns when it skips hashing. */
  datatype Secret = Hashed(digest: Digest) | Plain(text: string)

  /** A user document (the id is its key in the collection). */
  datatype User = User(email: string, password: Secret, fullName: Option<string>, isAdmin: bool)

  /** UserDto: the redacted view handed back to callers. */
  datatype UserView = UserView(id: UserId, email: string)

  /** What sign-up and sign-in return: the view and a token. */
  datatype Session = Session(user: UserView, token: Token)

  /** One key of an update request body. */
  datatype Field = Field(key: string, value: string)

  /** A JavaScript object: its keys are distinct and listed in `Object.keys`
      order (integer-like keys first, ascending, then the others in
      insertion order). */
  type Attrs = attrs: seq<Field> | DistinctKeys(attrs) witness []

  /** The result of an operation together with the collection after it. */
  datatype UserOutcome<+T> = UserOutcome(result: Result<T>, users: map<UserId, User>)

  predicate DistinctKeys(attrs: seq<Field>) {
    forall i, j :: 0 <= i < j < |attrs| ==> attrs[i].key != attrs[j].key
  }

  /** comparePassword against whatever is stored; a string that is not a
      digest matches nothing. */
  predicate SecretMatches(password: string, s: Secret) {
    s.Hashed? && Matches(password, s.digest)
  }

  /** `userModel.find({ email })` is non-empty. */
  predicate EmailTaken(users: map<UserId, User>, email: string) {
    exists id :: id in users && users[id].email == email
  }

  /** Object.keys. */
  function Keys(attrs: seq<Field>): (keys: seq<string>)
    ensures |keys| == |attrs|
    ensures forall i :: 0 <= i < |attrs| ==> keys[i] == attrs[i].key
  {
    seq(|attrs|, i requires 0 <= i < |attrs| => attrs[i].key)
  }

  /** The keys outside the allow-list, in the order `Object.keys` lists them. */
  function DisallowedKeys(keys: seq<string>): (r: seq<string>)
    ensures forall k :: k in r <==> k in keys && k !in ALLOWED_FIELDS
    ensures |r| <= |keys|
  {
    if keys == [] then []
    else (if keys[0] in ALLOWED_FIELDS then [] else [keys[0]]) + DisallowedKeys(keys[1..])
  }

  /** The value a request body holds under a key (the last one given). */
  function Lookup(attrs: seq<Field>, key: string): Option<string> {
    if attrs == [] then None
    else match Lookup(attrs[1..], key)
      case Some(v) => Some(v)
      case None => if attrs[0].key == key then Some(attrs[0].value) else None
  }

  /** `attrs.password` is truthy: present and not the empty string. */
  predicate SuppliesPassword(attrs: seq<Field>) {
    Lookup(attrs, "password").Some? && Lookup(attrs, "password").value != ""
  }

  /** Object.assign(user, attrs) over allowed keys, where `digest`, when
      present, has replaced the password's value. */
  function Assign(user: User, attrs: seq<Field>, digest: Option<Digest>): (u: User)
    ensures u.isAdmin == user.isAdmin
    ensures u.email == Lookup(attrs, "email").GetOr(user.email)
    ensures u.fullName == (if Lookup(attrs, "fullName").Some? then Some(Lookup(attrs, "fullName").value) else user.fullName)
    ensures u.password == (if Lookup(attrs, "password").None? then user.password
                           else if digest.Some? then Hashed(digest.value)
                           else Plain(Lookup(attrs, "password").value))
    decreases |attrs|
  {
    if attrs == [] then user
    else
      var f := attrs[0];
      var next :=
        if f.key == "fullName" then user.(fullName := Some(f.value))
        else if f.key == "email" then user.(email := f.value)
        else if f.key == "password" then user.(password := if digest.Some? then Hashed(digest.value) else Plain(f.value))
        else user;
      Assign(next, attrs[1..], digest)
  }

  /** `create` (sign-up) with `id` the id the new document receives. */
  function SignUp(users: map<UserId, User>, id: UserId, email: string, password: string, salt: nat): (o: UserOutcome<Session>)
    ensures o.result.Failure? <==> EmailTaken(users, email)
    ensures o.result.Failure? ==> o.result.error == Conflict(EMAIL_IN_USE) && o.users == users
    ensures o.result.Success? ==>
      && o.users.Keys == users.Keys + {id}
      && (forall other :: other in users && other != id ==> o.users[other] == users[other])
      && o.users[id].email == email
      && o.users[id].password.Hashed?
      && SecretMatches(password, o.users[id].password)
      && o.users[id].password.digest.salt == salt
      && o.users[id].fullName.None?
      && !o.users[id].isAdmin
      && o.result.value == Session(UserView(id, email), Token(id, false))
  {
    if EmailTaken(users, email) then UserOutcome(Failure(Conflict(EMAIL_IN_USE)), users)
    else
      var user := User(email, Hashed(Hash(password, salt)), None, false);
      UserOutcome(Success(Session(UserView(id, email), Token(id, user.isAdmin))), users[id := user])
  }

  /** `update`: the checks in order, then the assignment. */
  function UpdateProfile(users: map<UserId, User>, id: UserId, attrs: Attrs, salt: nat): (o: UserOutcome<User>)
    ensures o.result.Failure? ==> o.users == users
    ensures o.result.Success? ==>
      && id in users
      && o.users == users[id := o.result.value]
      && o.result.value.isAdmin == users[id].isAdmin
  {
    if id !in users then UserOutcome(Failure(NotFound(USER_NOT_FOUND)), users)
    else
      var user := users[id];
      var disallowed := DisallowedKeys(Keys(attrs));
      if |disallowed| > 0 then UserOutcome(Failure(BadRequest(disallowed)), users)
      else if SuppliesPassword(attrs) && SecretMatches(Lookup(attrs, "password").value, user.password) then
        UserOutcome(Failure(Conflict(SAME_PASSWORD)), users)
      else
        var digest := if SuppliesPassword(attrs) then Some(Hash(Lookup(attrs, "password").value, salt)) else None;
        var updated := Assign(user, attrs, digest);
        UserOutcome(Success(updated), users[id := updated])
  }

  /** `remove` (unsubscribe). */
  function Unsubscribe(users: map<UserId, User>, id: UserId): (o: UserOutcome<User>)
    ensures o.result.Failure? <==> id !in users
    ensures o.result.Failure? ==> o.result.error == NotFound(USER_NOT_FOUND) && o.users == users
    ensures o.result.Success? ==>
      && o.result.value == users[id]
      && id !in o.users
      && o.users.Keys == users.Keys - {id}
      && forall other :: other in o.users ==> o.users[other] == users[other]
  {
    if id !in users then UserOutcome(Failure(NotFound(USER_NOT_FOUND)), users)
    else UserOutcome(Success(users[id]), users - {id})
  }

  /** The service, holding the users collection. */
  class UsersService {
    var users: map<UserId, User>
    /** The next id the store will hand out. */
    var nextId: UserId

    ghost predicate Valid()
      reads this
    {
      0 < nextId && forall id :: id in users ==> 0 < id < nextId
    }

    constructor ()
      ensures Valid() && users == map[]
    {
      users := map[];
      nextId := 1;
    }

    /** Sign-up; `salt` is the randomness the hash draws. */
    method Create(email: string, password: string, salt: nat) returns (r: Result<Session>)
      requires Valid()
      modifies this
      ensures Valid()
      ensures UserOutcome(r, users) == SignUp(old(users), old(nextId), email, password, salt)
      ensures r.Success? ==> old(nextId) !in old(users) && nextId == old(nextId) + 1
      ensures r.Failure? ==> nextId == old(nextId)
    {
      if EmailTaken(users, email) {
        return Failure(Conflict(EMAIL_IN_USE));
      }
      var hashed := Hash(password, salt);
      var id := nextId;
      var user := User(email, Hashed(hashed), None, false);
      users := users[id := user];
      nextId := nextId + 1;
      var token := Token(id, user.isAdmin);
      r := Success(Session(UserView(id, user.email), token));
    }

    method FindOne(id: UserId) returns (r: Option<User>)
      requires Valid()
      ensures Falsy(id) ==> r == None
      ensures r.Some? <==> id in users
      ensures r.Some? ==> r.value == users[id]
    {
      if Falsy(id) {
        return None;
      }
      r := if id in users then Some(users[id]) else None;
    }

    /** Sign-in. The password comparison is made and its result dropped, so
        any password signs in once the email is found. When several users
        share the email, any one of them may be the one returned. */
    method Signin(email: string, password: string) returns (r: Result<Session>)
      ensures r.Failure? <==> !EmailTaken(users, email)
      ensures r.Failure? ==> r.error == NotFound(EMAIL_NOT_REGISTERED)
      ensures r.Success? ==>
        && r.value.user.id in users
        && users[r.value.user.id].email == email
        && r.value.user.email == email
        && r.value.token == Token(r.value.user.id, users[r.value.user.id].isAdmin)
    {
      if !EmailTaken(users, email) {
        return Failure(NotFound(EMAIL_NOT_REGISTERED));
      }
      var id :| id in users && users[id].email == email;
      var user := users[id];
      var matched := SecretMatches(password, user.password);
      r := Success(Session(UserView(id, user.email), Token(id, user.isAdmin)));
    }

    method Update(id: UserId, attrs: Attrs, salt: nat) returns (r: Result<User>)
      requires Valid()
      modifies this
      ensures Valid() && nextId == old(nextId)
      ensures UserOutcome(r, users) == UpdateProfile(old(users), id, attrs, salt)
    {
      if id !in users {
        return Failure(NotFound(USER_NOT_FOUND));
      }
      var user := users[id];
      var disallowed := DisallowedKeys(Keys(attrs));
      if |disallowed| > 0 {
        return Failure(BadRequest(disallowed));
      }
      var digest: Option<Digest> := None;
      if SuppliesPassword(attrs) {
        var password := Lookup(attrs, "password").value;
        if SecretMatches(password, user.password) {
          return Failure(Conflict(SAME_PASSWORD));
        }
        digest := Some(Hash(password, salt));
      }
      user := Assign(user, attrs, digest);
      users := users[id := user];
      r := Success(user);
    }

    method Remove(id: UserId) returns (r: Result<User>)
      requires Valid()
      modifies this
      ensures Valid() && nextId == old(nextId)
      ensures UserOutcome(r, users) == Unsubscribe(old(users), id)
    {
      if id !in users {
        return Failure(NotFound(USER_NOT_FOUND));
      }
      var user := users[id];
      users := users - {id};
      r := Success(user);
    }

    /** The `id name email` projection. The model assumes user documents
        have no `name` field, so each user shows its id and email. */
    method GetAllUsers() returns (r: set<UserView>)
      ensures forall v :: v in r <==> v.id in users && users[v.id].email == v.email
    {
      r := set id | id in users :: UserView(id, users[id].email);
    }

    /** Admin removal by id: no ownership check, and null rather than an
        error when nothing has that id. */
    method RemoveOne(id: UserId) returns (r: Option<User>)
      requires Valid()
      modifies this
      ensures Valid() && nextId == old(nextId)
      ensures r == (if id in old(users) then Some(old(users)[id]) else None)
      ensures users == old(users) - {id}
    {
      r := if id in users then Some(users[id]) else None;
      users := users - {id};
    }
  }
}
