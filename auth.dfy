/** POST /login: the session a login establishes. The password check of
    the hashing library is the parameter `passwordMatches` (stored hash,
    offered password); `current` is the session the request arrives with. */
module Auth {
  import opened Schema

  /** Look up the first user with this username; if there is one and the
      password matches its hash, the session's id, username and type become
      that user's. Otherwise the handler only flashes a message, and the
      session stays as it was, logged in or not. */
  function Login(users: seq<User>, username: string, password: string,
                 passwordMatches: (string, string) -> bool, current: Session): (s: Session)
    ensures forall i :: 0 <= i < |users| && users[i].username == username
                        && (forall j :: 0 <= j < i ==> users[j].username != username) ==>
      s == if passwordMatches(users[i].passwordHash, password)
           then LoggedIn(users[i].id, users[i].username, users[i].userType)
           else current
    ensures (forall i :: 0 <= i < |users| ==> users[i].username != username) ==> s == current
  {
    match FirstIndex(users, (u: User) => u.username == username)
    case None => current
    case Some(i) =>
      // Any other first match would precede row i or be preceded by it.
      assert forall k ::
        (0 <= k < |users| && users[k].username == username &&
         forall j :: 0 <= j < k ==> users[j].username != username) ==> k == i;
      if passwordMatches(users[i].passwordHash, password)
      then LoggedIn(users[i].id, users[i].username, users[i].userType)
      else current
  }

  /** With usernames unique, as the users table declares them, the account
      with this username decides the login: a matching password gives its
      session, a wrong one keeps the request's session; with no such
      account the session is kept too. */
  lemma LoginFindsTheAccount(users: seq<User>, nextId: int, username: string, password: string,
                             passwordMatches: (string, string) -> bool, current: Session)
    requires UsersTable(users, nextId)
    ensures forall i :: 0 <= i < |users| && users[i].username == username ==>
      Login(users, username, password, passwordMatches, current) ==
        if passwordMatches(users[i].passwordHash, password)
        then LoggedIn(users[i].id, username, users[i].userType)
        else current
    ensures Login(users, username, password, passwordMatches, current) != current ==>
      exists i :: 0 <= i < |users| && users[i].username == username && passwordMatches(users[i].passwordHash, password)
  {
  }
}
