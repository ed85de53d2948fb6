/** What the users service promises across its operations: the order of the
    update checks, what a successful update changes, and which operations
    keep emails unique. */
module UsersProperties {
  import opened Ids
  import opened Outcomes
  import opened Credentials
  import opened Users

  /** No two users share an email. */
  ghost predicate UniqueEmails(users: map<UserId, User>) {
    forall a, b :: a in users && b in users && users[a].email == users[b].email ==> a == b
  }

  /** Sign-up with an id the collection does not hold adds exactly one user. */
  lemma SignUpAddsOneUser(users: map<UserId, User>, id: UserId, email: string, password: string, salt: nat)
    requires id !in users
    requires SignUp(users, id, email, password, salt).result.Success?
    ensures |SignUp(users, id, email, password, salt).users| == |users| + 1
  {
    var after := SignUp(users, id, email, password, salt).users;
    assert after.Keys == users.Keys + {id};
    assert |after.Keys| == |users.Keys| + 1;
  }

  /** After a successful sign-up the new user is the only one with that
      email, so signing in with it finds that user. */
  lemma SignUpOwnsEmail(users: map<UserId, User>, id: UserId, email: string, password: string, salt: nat)
    requires SignUp(users, id, email, password, salt).result.Success?
    ensures var after := SignUp(users, id, email, password, salt).users;
      EmailTaken(after, email) && forall other :: other in after && after[other].email == email ==> other == id
  {
    var after := SignUp(users, id, email, password, salt).users;
    assert id in after && after[id].email == email;
  }

  lemma SignUpKeepsEmailsUnique(users: map<UserId, User>, id: UserId, email: string, password: string, salt: nat)
    requires UniqueEmails(users)
    ensures UniqueEmails(SignUp(users, id, email, password, salt).users)
  {
    var o := SignUp(users, id, email, password, salt);
    if o.result.Success? {
      SignUpOwnsEmail(users, id, email, password, salt);
      forall a, b | a in o.users && b in o.users && o.users[a].email == o.users[b].email
        ensures a == b
      {
        if a != id && b != id {
          assert users[a].email == users[b].email;
        }
      }
    }
  }

  lemma UnsubscribeKeepsEmailsUnique(users: map<UserId, User>, id: UserId)
    requires UniqueEmails(users)
    ensures UniqueEmails(Unsubscribe(users, id).users)
  {
  }

  /** Filtering distributes over concatenation: the disallowed keys come out
      in the order they went in. */
  lemma {:induction false} DisallowedKeysConcat(a: seq<string>, b: seq<string>)
    ensures DisallowedKeys(a + b) == DisallowedKeys(a) + DisallowedKeys(b)
  {
    if a == [] {
      assert a + b == b;
    } else {
      assert (a + b)[0] == a[0];
      assert (a + b)[1..] == a[1..] + b;
      DisallowedKeysConcat(a[1..], b);
    }
  }

  /** The first failing check decides the error: NotFound for a missing user,
      whatever the body says. */
  lemma UpdateMissingUser(users: map<UserId, User>, id: UserId, attrs: Attrs, salt: nat)
    requires id !in users
    ensures UpdateProfile(users, id, attrs, salt) == UserOutcome(Failure(NotFound(USER_NOT_FOUND)), users)
  {
  }

  /** A body with a key outside the allow-list is refused with exactly those
      keys, even when its password would also be refused. */
  lemma UpdateDisallowedKeys(users: map<UserId, User>, id: UserId, attrs: Attrs, salt: nat)
    requires id in users
    requires exists i :: 0 <= i < |attrs| && attrs[i].key !in ALLOWED_FIELDS
    ensures var o := UpdateProfile(users, id, attrs, salt);
      && o.users == users
      && o.result.Failure? && o.result.error.BadRequest?
      && (forall k :: k in o.result.error.fields <==> (exists i :: 0 <= i < |attrs| && attrs[i].key == k) && k !in ALLOWED_FIELDS)
      && Message(o.result.error) == "Cannot update fields: " + Join(DisallowedKeys(Keys(attrs)), ", ")
  {
    var i :| 0 <= i < |attrs| && attrs[i].key !in ALLOWED_FIELDS;
    var keys := Keys(attrs);
    assert keys[i] in keys;
    assert DisallowedKeys(keys) != [];
    forall k
      ensures k in DisallowedKeys(keys) <==> (exists j :: 0 <= j < |attrs| && attrs[j].key == k) && k !in ALLOWED_FIELDS
    {
      if k in keys {
        var j :| 0 <= j < |keys| && keys[j] == k;
        assert attrs[j].key == k;
      }
      if exists j :: 0 <= j < |attrs| && attrs[j].key == k {
        var j :| 0 <= j < |attrs| && attrs[j].key == k;
        assert keys[j] == k;
      }
    }
  }

  /** An allowed body whose password matches the stored one is a Conflict. */
  lemma UpdateSamePassword(users: map<UserId, User>, id: UserId, attrs: Attrs, salt: nat)
    requires id in users
    requires forall i :: 0 <= i < |attrs| ==> attrs[i].key in ALLOWED_FIELDS
    requires SuppliesPassword(attrs) && SecretMatches(Lookup(attrs, "password").value, users[id].password)
    ensures UpdateProfile(users, id, attrs, salt) == UserOutcome(Failure(Conflict(SAME_PASSWORD)), users)
  {
    NoDisallowedKeys(attrs);
  }

  /** Passing every check, the update succeeds. */
  lemma UpdateAccepted(users: map<UserId, User>, id: UserId, attrs: Attrs, salt: nat)
    requires id in users
    requires forall i :: 0 <= i < |attrs| ==> attrs[i].key in ALLOWED_FIELDS
    requires SuppliesPassword(attrs) ==> !SecretMatches(Lookup(attrs, "password").value, users[id].password)
    ensures UpdateProfile(users, id, attrs, salt).result.Success?
  {
    NoDisallowedKeys(attrs);
  }

  lemma NoDisallowedKeys(attrs: seq<Field>)
    requires forall i :: 0 <= i < |attrs| ==> attrs[i].key in ALLOWED_FIELDS
    ensures DisallowedKeys(Keys(attrs)) == []
  {
    AllowedKeysOnly(Keys(attrs));
  }

  lemma {:induction false} AllowedKeysOnly(keys: seq<string>)
    requires forall i :: 0 <= i < |keys| ==> keys[i] in ALLOWED_FIELDS
    ensures DisallowedKeys(keys) == []
  {
    if keys != [] {
      AllowedKeysOnly(keys[1..]);
    }
  }

  /** A successful update writes the supplied fields of that one user and
      nothing else: a supplied email or name is stored as given, absent ones
      keep their value, the admin flag never changes. */
  lemma UpdateWritesSuppliedFields(users: map<UserId, User>, id: UserId, attrs: Attrs, salt: nat)
    requires UpdateProfile(users, id, attrs, salt).result.Success?
    ensures var o := UpdateProfile(users, id, attrs, salt); var u := o.result.value;
      && id in users
      && o.users.Keys == users.Keys
      && (forall other :: other in users && other != id ==> o.users[other] == users[other])
      && u.email == (if Lookup(attrs, "email").Some? then Lookup(attrs, "email").value else users[id].email)
      && u.fullName == (if Lookup(attrs, "fullName").Some? then Some(Lookup(attrs, "fullName").value) else users[id].fullName)
      && (Lookup(attrs, "password").None? ==> u.password == users[id].password)
      && u.isAdmin == users[id].isAdmin
  {
  }

  /** A supplied password is stored as a fresh digest of it, and it was not
      the password the user had before. */
  lemma UpdateRehashesPassword(users: map<UserId, User>, id: UserId, attrs: Attrs, salt: nat)
    requires SuppliesPassword(attrs)
    requires UpdateProfile(users, id, attrs, salt).result.Success?
    ensures var stored := UpdateProfile(users, id, attrs, salt).result.value.password;
      var password := Lookup(attrs, "password").value;
      && stored == Hashed(Hash(password, salt))
      && SecretMatches(password, stored)
      && !SecretMatches(password, users[id].password)
  {
  }

  /** An empty password is falsy, so it skips both the comparison and the
      hashing, and the assignment stores the empty string itself. */
  lemma UpdateEmptyPasswordStoredAsIs(users: map<UserId, User>, id: UserId, attrs: Attrs, salt: nat)
    requires Lookup(attrs, "password") == Some("")
    requires UpdateProfile(users, id, attrs, salt).result.Success?
    ensures UpdateProfile(users, id, attrs, salt).result.value.password == Plain("")
    ensures forall p :: !SecretMatches(p, UpdateProfile(users, id, attrs, salt).result.value.password)
  {
  }

  /** Update does not check that a new email is free: two users can end up
      sharing one. */
  lemma UpdateMayDuplicateEmail()
    ensures var users := map[1 := User("a@x.com", Hashed(Hash("p1", 0)), None, false),
                             2 := User("b@x.com", Hashed(Hash("p2", 1)), None, false)];
      var o := UpdateProfile(users, 2, [Field("email", "a@x.com")], 2);
      UniqueEmails(users) && o.result.Success? && !UniqueEmails(o.users)
  {
    var users := map[1 := User("a@x.com", Hashed(Hash("p1", 0)), None, false),
                     2 := User("b@x.com", Hashed(Hash("p2", 1)), None, false)];
    var attrs: Attrs := [Field("email", "a@x.com")];
    assert "email" in ALLOWED_FIELDS;
    assert Keys(attrs) == ["email"];
    assert DisallowedKeys(["email"]) == [];
    assert Lookup(attrs, "password") == None;
    assert "a@x.com" != "b@x.com" by { assert "a@x.com"[0] != "b@x.com"[0]; }
    assert UniqueEmails(users);
    var o := UpdateProfile(users, 2, attrs, 2);
    assert o.result.Success?;
    assert o.users[1].email == o.users[2].email;
  }
}
