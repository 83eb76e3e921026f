/** The session store (src/contexts/AuthContext.tsx): the signed-in user or none, the
    shared list of accounts it checks credentials against, and the stored copy of the
    session. The account list's initial contents (src/data/users.json) are a parameter. */
module AuthContext {
  import opened Wrappers
  import opened Types
  import opened Seqs

  /** The avatar given to a session whose account has none, and to every new account. */
  const DefaultAvatar := "https://images.pexels.com/photos/614810/pexels-photo-614810.jpeg?auto=compress&cs=tinysrgb&w=1260&h=750&dpr=2"

  /** One entry of the account list: a user record and its password. */
  datatype Account = Account(profile: User, password: string)

  /** The two errors the store raises. */
  datatype AuthError = InvalidCredentials | UserAlreadyExists

  /** How a `login` or `register` call ends: it returns, or it throws this error. */
  datatype Outcome = Pass | Fail(error: AuthError)

  /** The fields `register` is given; `None` is an absent field. */
  datatype UserDraft = UserDraft(firstName: Option<string>, lastName: Option<string>, email: Option<string>)

  /** `users.find(u => u.email === email && u.password === password)`, as the index of the
      first exact match of both. */
  function FindCredentials(users: seq<Account>, email: string, password: string): (r: Option<nat>)
    ensures r.None? <==> forall i :: 0 <= i < |users| ==> users[i].profile.email != email || users[i].password != password
    ensures r.Some? ==> r.value < |users| && users[r.value].profile.email == email && users[r.value].password == password
    ensures r.Some? ==> forall j :: 0 <= j < r.value ==> users[j].profile.email != email || users[j].password != password
  {
    FindIndex(users, (a: Account) => a.profile.email == email && a.password == password)
  }

  /** The session record for an account: its user fields, with the default avatar when
      it has none or an empty one. */
  function SessionUser(a: Account): (u: User)
    ensures u.avatar.Some? && u.avatar.value != ""
    ensures u == a.profile.(avatar := u.avatar)
    ensures a.profile.avatar.Some? && a.profile.avatar.value != "" ==> u == a.profile
  {
    if a.profile.avatar.Some? && a.profile.avatar.value != "" then a.profile
    else a.profile.(avatar := Some(DefaultAvatar))
  }

  /** `users.find(u => u.email === userData.email)` finds something. An absent email
      matches no stored account, since every stored account has an email. */
  predicate EmailTaken(users: seq<Account>, email: Option<string>) {
    email.Some? && exists i :: 0 <= i < |users| && users[i].profile.email == email.value
  }

  /** The account `register` appends: the given names and email (or `''`), the default
      avatar, no addresses, payment methods or orders, and the password. */
  function NewAccount(draft: UserDraft, password: string, id: string): (a: Account)
    ensures a.password == password && a.profile.id == id
    ensures a.profile.email == (if draft.email.Some? then draft.email.value else "")
    ensures a.profile.addresses == [] && a.profile.paymentMethods == [] && a.profile.orders == []
    ensures a.profile.avatar == Some(DefaultAvatar)
  {
    Account(
      User(id,
        if draft.firstName.Some? then draft.firstName.value else "",
        if draft.lastName.Some? then draft.lastName.value else "",
        if draft.email.Some? then draft.email.value else "",
        Some(DefaultAvatar), [], [], []),
      password)
  }

  /** After registering an email no account has, logging in with it and the same
      password finds the new account. */
  lemma LoginFindsRegistered(users: seq<Account>, draft: UserDraft, password: string, id: string)
    requires draft.email.Some? && !EmailTaken(users, draft.email)
    ensures FindCredentials(users + [NewAccount(draft, password, id)], draft.email.value, password) == Some(|users|)
  {
    var f := (a: Account) => a.profile.email == draft.email.value && a.password == password;
    FindIndexAppend(users, NewAccount(draft, password, id), f);
    assert FindIndex(users, f).None? by {
      forall i | 0 <= i < |users|
        ensures !f(users[i])
      {
      }
    }
  }

  /** Registering never breaks a login that worked: the matching account keeps its index. */
  lemma RegisterKeepsLogins(users: seq<Account>, a: Account, email: string, password: string)
    requires FindCredentials(users, email, password).Some?
    ensures FindCredentials(users + [a], email, password) == FindCredentials(users, email, password)
  {
    FindIndexAppend(users, a, (x: Account) => x.profile.email == email && x.password == password);
  }

  /** `AuthProvider`: the signed-in user, the loading flag, the account list and the
      browser-storage copy of the session. */
  class AuthProvider {
    var user: Option<User>
    var isLoading: bool
    var users: seq<Account>
    var storage: Snapshot<User>

    /** Mounting with the stored session: a value that parses becomes the user;
        nothing stored, or something that does not parse, leaves no user. */
    constructor (accounts: seq<Account>, stored: Snapshot<User>)
      ensures users == accounts && storage == stored && !isLoading
      ensures user == if stored.Parsed? then Some(stored.value) else None
    {
      users := accounts;
      storage := stored;
      user := if stored.Parsed? then Some(stored.value) else None;
      isLoading := false;
    }

    /** `isAuthenticated`: there is a signed-in user. */
    predicate IsAuthenticated()
      reads this
    {
      user.Some?
    }

    /** `login`: sign in as the first account with exactly this email and password, and
      store that session; with no such account, fail and leave the session alone. */
    method Login(email: string, password: string) returns (outcome: Outcome)
      modifies this
      ensures users == old(users) && !isLoading
      ensures outcome.Pass? <==> FindCredentials(users, email, password).Some?
      ensures outcome.Fail? ==> outcome.error == InvalidCredentials && user == old(user) && storage == old(storage)
      ensures outcome.Pass? ==>
        user == Some(SessionUser(users[FindCredentials(users, email, password).value])) &&
        storage == Parsed(user.value)
    {
      isLoading := true;
      var found := FindCredentials(users, email, password);
      if found.None? {
        outcome := Fail(InvalidCredentials);
      } else {
        var session := SessionUser(users[found.value]);
        user := Some(session);
        storage := Parsed(session);
        outcome := Pass;
      }
      isLoading := false;
    }

    /** `register`: fail when the email is taken; otherwise append the new account.
        The session is never touched. */
    method Register(draft: UserDraft, password: string, id: string) returns (outcome: Outcome)
      modifies this
      ensures user == old(user) && storage == old(storage) && !isLoading
      ensures outcome.Fail? <==> EmailTaken(old(users), draft.email)
      ensures outcome.Fail? ==> outcome.error == UserAlreadyExists && users == old(users)
      ensures outcome.Pass? ==> users == old(users) + [NewAccount(draft, password, id)]
    {
      isLoading := true;
      if EmailTaken(users, draft.email) {
        outcome := Fail(UserAlreadyExists);
      } else {
        users := users + [NewAccount(draft, password, id)];
        outcome := Pass;
      }
      isLoading := false;
    }

    /** `updateUser`: the given record becomes the session and its stored copy. */
    method UpdateUser(updated: User)
      modifies this
      ensures user == Some(updated) && storage == Parsed(updated)
      ensures users == old(users) && isLoading == old(isLoading)
    {
      user := Some(updated);
      storage := Parsed(updated);
    }

    /** `logout`: no session, and nothing stored. */
    method Logout()
      modifies this
      ensures user == None && storage == Missing && !IsAuthenticated()
      ensures users == old(users) && isLoading == old(isLoading)
    {
      user := None;
      storage := Missing;
    }
  }

  /** Registering a fresh email and then logging in with it signs in as the new account. */
  method RegisterThenLogin(auth: AuthProvider, draft: UserDraft, password: string, id: string)
      returns (registered: Outcome, loggedIn: Outcome)
    requires draft.email.Some? && !EmailTaken(auth.users, draft.email)
    modifies auth
    ensures registered == Pass && loggedIn == Pass && auth.IsAuthenticated()
    ensures auth.user == Some(SessionUser(NewAccount(draft, password, id)))
  {
    ghost var before := auth.users;
    registered := auth.Register(draft, password, id);
    LoginFindsRegistered(before, draft, password, id);
    loggedIn := auth.Login(draft.email.value, password);
  }
}
