/** The session store: the signed-in user kept as one JSON document under
    `AUTH_KEY`. Validation is local; no server is involved. */
module Auth {
  import opened Wrappers
  import opened KeyValue

  datatype User = User(email: string, name: string)

  const AUTH_KEY: string := "booking_user"
  const MIN_PASSWORD_LENGTH: nat := 6

  type AuthEntries = Entries<User>

  /** `email.split('@')[0]`: the part of the email before its first `@`,
      or the whole email when it has none. */
  function NameFromEmail(email: string): (name: string)
    ensures name <= email
    ensures '@' !in name
    ensures |name| == |email| || email[|name|] == '@'
  {
    if email == [] || email[0] == '@' then []
    else [email[0]] + NameFromEmail(email[1..])
  }

  /** The name is the head of the split for any email `local@rest`. */
  lemma {:induction false} NameFromEmailSplits(local: string, rest: string)
    requires '@' !in local
    ensures NameFromEmail(local + "@" + rest) == local
  {
    if local != [] {
      assert (local + "@" + rest)[1..] == local[1..] + "@" + rest;
      NameFromEmailSplits(local[1..], rest);
    } else {
      assert (local + "@" + rest)[0] == '@';
    }
  }

  /** `login`'s decision: a user when the email is non-empty and the password
      has at least six characters, `null` otherwise. */
  function LoginResult(email: string, password: string): (r: Option<User>)
    ensures r.Some? <==> email != "" && |password| >= MIN_PASSWORD_LENGTH
    ensures r.Some? ==> r.value.email == email
    ensures r.Some? ==> r.value.name <= email && '@' !in r.value.name
    ensures r.Some? ==> |r.value.name| == |email| || email[|r.value.name|] == '@'
  {
    if email != "" && |password| >= MIN_PASSWORD_LENGTH then
      Some(User(email, NameFromEmail(email)))
    else
      None
  }

  /** `signup`'s decision: a user with exactly the given email and name when
      both are non-empty and the password has at least six characters. */
  function SignupResult(email: string, password: string, name: string): (r: Option<User>)
    ensures r.Some? <==> email != "" && |password| >= MIN_PASSWORD_LENGTH && name != ""
    ensures r.Some? ==> r.value == User(email, name)
  {
    if email != "" && |password| >= MIN_PASSWORD_LENGTH && name != "" then
      Some(User(email, name))
    else
      None
  }

  /** `getCurrentUser`: the stored user, or `null` when the entry is missing,
      blank or does not parse. */
  function GetCurrentUser(entries: AuthEntries): (u: Option<User>)
    ensures AUTH_KEY !in entries ==> u.None?
    ensures AUTH_KEY in entries && entries[AUTH_KEY].Unparsable? ==> u.None?
    ensures u.Some? ==> entries[AUTH_KEY] == Stringify(u.value)
    ensures AUTH_KEY in entries && entries[AUTH_KEY].Json? ==> u == Some(entries[AUTH_KEY].doc)
  {
    ReadJson(entries, AUTH_KEY)
  }

  /** `login`: on success the user is stored under `AUTH_KEY` and reads
      back; on failure the store is left as it was. */
  method Login(store: LocalStore<User>, email: string, password: string) returns (r: Option<User>)
    modifies store
    ensures r == LoginResult(email, password)
    ensures r.Some? ==> store.entries == old(store.entries)[AUTH_KEY := Stringify(r.value)]
    ensures r.None? ==> store.entries == old(store.entries)
    ensures r.Some? ==> GetCurrentUser(store.entries) == r
  {
    if email != "" && |password| >= MIN_PASSWORD_LENGTH {
      var user := User(email, NameFromEmail(email));
      store.SetItem(AUTH_KEY, Stringify(user));
      return Some(user);
    }
    return None;
  }

  /** `signup`: like `login`, with the name given by the caller. */
  method Signup(store: LocalStore<User>, email: string, password: string, name: string) returns (r: Option<User>)
    modifies store
    ensures r == SignupResult(email, password, name)
    ensures r.Some? ==> store.entries == old(store.entries)[AUTH_KEY := Stringify(r.value)]
    ensures r.None? ==> store.entries == old(store.entries)
    ensures r.Some? ==> GetCurrentUser(store.entries) == Some(User(email, name))
  {
    if email != "" && |password| >= MIN_PASSWORD_LENGTH && name != "" {
      var user := User(email, name);
      store.SetItem(AUTH_KEY, Stringify(user));
      return Some(user);
    }
    return None;
  }

  /** `logout`: removes `AUTH_KEY` and nothing else; no user reads back. */
  method Logout(store: LocalStore<User>)
    modifies store
    ensures store.entries == old(store.entries) - {AUTH_KEY}
    ensures GetCurrentUser(store.entries).None?
  {
    store.RemoveItem(AUTH_KEY);
  }

  /** A login with the address `alice@example.com` is named `alice`. */
  lemma LoginNamesByLocalPart(password: string)
    requires |password| >= MIN_PASSWORD_LENGTH
    ensures LoginResult("alice@example.com", password) == Some(User("alice@example.com", "alice"))
  {
    var email := "alice@example.com";
    assert email == "alice" + "@" + "example.com" by {
      assert |email| == |"alice" + "@" + "example.com"|;
      forall i | 0 <= i < |email|
        ensures email[i] == ("alice" + "@" + "example.com")[i]
      {
      }
    }
    NameFromEmailSplits("alice", "example.com");
  }
}
