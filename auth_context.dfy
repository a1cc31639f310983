/** The authentication session: the signed-in user, the loading and error flags, and the
    four `localStorage` keys that carry the session across page loads. The pure
    transitions on `Session` say what each action does; the class `AuthProvider` holds
    the same state in fields and applies them step by step. */
module AuthContext {
  import opened Wrappers

  datatype User = User(id: string, name: string, email: string, isAdmin: bool)

  /** The user record of a login or register response. `serverId` is the response's
      `_id`; `isAdmin` may be missing from the response. */
  datatype ServerUser = ServerUser(serverId: string, name: string, email: string, isAdmin: Option<bool>)

  /** How a login or register call ended: a response (with or without a user), or a
      thrown error carrying the server's `message`, if any. */
  datatype AuthOutcome = Answered(user: Option<ServerUser>) | Rejected(message: Option<string>)

  /** `localStorage`. */
  type Storage = map<string, string>

  const UserIdKey: string := "userId"
  const UserNameKey: string := "userName"
  const UserEmailKey: string := "userEmail"
  const UserIsAdminKey: string := "userIsAdmin"
  const SessionKeys: set<string> := {UserIdKey, UserNameKey, UserEmailKey, UserIsAdminKey}

  const LoginFailed: string := "Failed to login"
  const RegisterFailed: string := "Failed to register"

  datatype Session = Session(
    user: Option<User>,
    isLoading: bool,
    error: Option<string>,
    isAuthenticated: bool,
    storage: Storage)

  /** The provider's state before the restore effect has run. */
  function InitialSession(storage: Storage): Session {
    Session(None, true, None, false, storage)
  }

  /** `localStorage.getItem(key)` tested for truthiness: present and not empty. */
  predicate Truthy(storage: Storage, key: string) {
    key in storage && storage[key] != ""
  }

  /** `'true'` / `'false'`, as `Boolean.prototype.toString` writes them. */
  function BoolText(b: bool): string {
    if b then "true" else "false"
  }

  /** The user `checkUserSession` rebuilds from the storage, if the three text keys are set. */
  function StoredUser(storage: Storage): (r: Option<User>)
    ensures r.Some? <==> Truthy(storage, UserIdKey) && Truthy(storage, UserNameKey) && Truthy(storage, UserEmailKey)
    ensures r.Some? ==> r.value.id == storage[UserIdKey] && r.value.name == storage[UserNameKey]
                        && r.value.email == storage[UserEmailKey]
    ensures r.Some? ==> (r.value.isAdmin <==> UserIsAdminKey in storage && storage[UserIsAdminKey] == "true")
  {
    if Truthy(storage, UserIdKey) && Truthy(storage, UserNameKey) && Truthy(storage, UserEmailKey) then
      Some(User(storage[UserIdKey], storage[UserNameKey], storage[UserEmailKey],
                UserIsAdminKey in storage && storage[UserIsAdminKey] == "true"))
    else None
  }

  /** `checkUserSession`: signs the stored user in, if there is one, and ends loading. */
  function Restore(s: Session): (r: Session)
    ensures !r.isLoading
    ensures r.storage == s.storage && r.error == s.error
    ensures r.isAuthenticated <==> s.isAuthenticated || StoredUser(s.storage).Some?
    ensures r.user == if StoredUser(s.storage).Some? then StoredUser(s.storage) else s.user
  {
    match StoredUser(s.storage)
    case Some(u) => s.(user := Some(u), isAuthenticated := true, isLoading := false)
    case None => s.(isLoading := false)
  }

  /** `err.response?.data?.message || fallback`. */
  function ErrorText(message: Option<string>, fallback: string): (e: string)
    ensures fallback != "" ==> e != ""
    ensures e == fallback || Some(e) == message
    ensures message.Some? && message.value != "" ==> e == message.value
  {
    if message.Some? && message.value != "" then message.value else fallback
  }

  /** The storage after the three text `setItem` calls of a successful response. */
  function WriteUserText(storage: Storage, u: ServerUser): Storage {
    storage[UserIdKey := u.serverId][UserNameKey := u.name][UserEmailKey := u.email]
  }

  /** The shared body of `login` and `register`: the error is cleared first; a response
      with a user stores it and signs it in. A missing `isAdmin` makes
      `userData.isAdmin.toString()` throw after the three text keys are written, so the
      error becomes `fallback` and no one is signed in. Loading ends in every case. */
  function SignIn(s: Session, outcome: AuthOutcome, fallback: string): (r: Session)
    ensures !r.isLoading
    ensures r.error.None? <==> outcome.Answered? && (outcome.user.None? || outcome.user.value.isAdmin.Some?)
    ensures r.error.Some? ==> outcome.Rejected? || r.error.value == fallback
    ensures r.user != s.user || r.isAuthenticated != s.isAuthenticated ==>
              outcome.Answered? && outcome.user.Some? && outcome.user.value.isAdmin.Some? && r.isAuthenticated
    ensures outcome.Answered? && outcome.user.Some? && outcome.user.value.isAdmin.Some? ==>
              var u := outcome.user.value;
              r.user == Some(User(u.serverId, u.name, u.email, u.isAdmin.value)) && r.isAuthenticated
    ensures r.storage.Keys >= s.storage.Keys
    ensures forall k :: k in s.storage && k !in SessionKeys ==> r.storage[k] == s.storage[k]
  {
    match outcome
    case Rejected(message) => s.(isLoading := false, error := Some(ErrorText(message, fallback)))
    case Answered(None) => s.(isLoading := false, error := None)
    case Answered(Some(u)) =>
      match u.isAdmin
      case None => s.(storage := WriteUserText(s.storage, u), isLoading := false, error := Some(fallback))
      case Some(admin) =>
        Session(Some(User(u.serverId, u.name, u.email, admin)), false, None, true,
                WriteUserText(s.storage, u)[UserIsAdminKey := BoolText(admin)])
  }

  /** `logout`: the four session keys go, the user is signed out; loading and error stay. */
  function SignOut(s: Session): (r: Session)
    ensures r.user.None? && !r.isAuthenticated
    ensures r.isLoading == s.isLoading && r.error == s.error
    ensures r.storage.Keys == s.storage.Keys - SessionKeys
    ensures forall k :: k in r.storage ==> r.storage[k] == s.storage[k]
  {
    s.(storage := s.storage - SessionKeys, user := None, isAuthenticated := false)
  }

  /** A response carrying a complete user signs in that user (`id` taken from `_id`),
      writes exactly the four session keys, and leaves every other key alone. */
  lemma SignInSuccess(s: Session, u: ServerUser, fallback: string)
    requires u.isAdmin.Some?
    ensures var r := SignIn(s, Answered(Some(u)), fallback);
            && r.user == Some(User(u.serverId, u.name, u.email, u.isAdmin.value))
            && r.isAuthenticated && !r.isLoading && r.error.None?
            && r.storage.Keys == s.storage.Keys + SessionKeys
            && r.storage[UserIdKey] == u.serverId && r.storage[UserNameKey] == u.name
            && r.storage[UserEmailKey] == u.email
            && r.storage[UserIsAdminKey] == (if u.isAdmin.value then "true" else "false")
            && forall k :: k in s.storage && k !in SessionKeys ==> r.storage[k] == s.storage[k]
  {
  }

  /** A failed call leaves the user, the sign-in flag and the storage as they were and
      reports the server's message or else the fallback; a response without a user
      changes nothing but clear the error and end loading. */
  lemma SignInFailure(s: Session, outcome: AuthOutcome, fallback: string)
    requires outcome.Rejected? || outcome == Answered(None)
    ensures var r := SignIn(s, outcome, fallback);
            && r.user == s.user && r.isAuthenticated == s.isAuthenticated && r.storage == s.storage
            && !r.isLoading
            && (outcome.Rejected? ==> r.error == Some(ErrorText(outcome.message, fallback)))
            && (outcome == Answered(None) ==> r.error.None?)
  {
  }

  /** Round trip: restoring from the storage a sign-in wrote gives back the signed-in
      user exactly when its id, name and email are all non-empty. */
  lemma {:induction false} RestoreAfterSignIn(s: Session, u: ServerUser, fallback: string, later: Session)
    requires u.isAdmin.Some?
    requires later.storage == SignIn(s, Answered(Some(u)), fallback).storage
    ensures u.serverId != "" && u.name != "" && u.email != "" ==>
              Restore(later).user == SignIn(s, Answered(Some(u)), fallback).user
    ensures StoredUser(later.storage).Some? <==> u.serverId != "" && u.name != "" && u.email != ""
  {
    var st := later.storage;
    assert st[UserIdKey] == u.serverId && st[UserNameKey] == u.name && st[UserEmailKey] == u.email;
    assert st[UserIsAdminKey] == BoolText(u.isAdmin.value);
  }

  /** After logout nothing is left to restore. */
  lemma SignOutLeavesNothingToRestore(s: Session)
    ensures StoredUser(SignOut(s).storage).None?
    ensures Restore(SignOut(s)).user.None? && !Restore(SignOut(s)).isAuthenticated
  {
    assert UserIdKey !in SignOut(s).storage;
  }

  /** A response whose user lacks `isAdmin` is reported as a failure, yet it has already
      written the three text keys: the next restore signs that user in. */
  lemma MissingAdminFlagStillRestores(s: Session, u: ServerUser, fallback: string)
    requires u.isAdmin.None? && u.serverId != "" && u.name != "" && u.email != ""
    ensures var r := SignIn(s, Answered(Some(u)), fallback);
            && r.error == Some(fallback) && r.user == s.user && r.isAuthenticated == s.isAuthenticated
            && Restore(r).isAuthenticated
            && Restore(r).user.Some? && Restore(r).user.value.id == u.serverId
  {
    var r := SignIn(s, Answered(Some(u)), fallback);
    assert r.storage == WriteUserText(s.storage, u);
    assert r.storage[UserIdKey] == u.serverId && r.storage[UserNameKey] == u.name && r.storage[UserEmailKey] == u.email;
  }

  /** The signed-in flag and the user agree: someone is signed in exactly when there is
      a user. */
  predicate Coherent(s: Session) {
    s.isAuthenticated <==> s.user.Some?
  }

  /** Every action keeps the flag and the user in agreement, starting from the mounted
      provider. */
  lemma ActionsKeepCoherent(s: Session, outcome: AuthOutcome, fallback: string)
    requires Coherent(s)
    ensures Coherent(InitialSession(s.storage))
    ensures Coherent(Restore(s))
    ensures Coherent(SignIn(s, outcome, fallback))
    ensures Coherent(SignOut(s))
  {
  }

  /** The provider component: the session state as fields the actions update. */
  class AuthProvider {
    var user: Option<User>
    var isLoading: bool
    var error: Option<string>
    var isAuthenticated: bool
    var storage: Storage

    function Snapshot(): Session
      reads this
    {
      Session(user, isLoading, error, isAuthenticated, storage)
    }

    /** Mounting the provider over the browser's current storage: loading has not finished. */
    constructor (storage: Storage)
      ensures Snapshot() == InitialSession(storage)
      ensures isLoading && user.None? && !isAuthenticated
    {
      this.user := None;
      this.isLoading := true;
      this.error := None;
      this.isAuthenticated := false;
      this.storage := storage;
    }

    /** The mount effect `checkUserSession`. */
    method CheckUserSession()
      modifies this
      ensures Snapshot() == Restore(old(Snapshot()))
      ensures !isLoading
    {
      var userId := if UserIdKey in storage then Some(storage[UserIdKey]) else None;
      var userName := if UserNameKey in storage then Some(storage[UserNameKey]) else None;
      var userEmail := if UserEmailKey in storage then Some(storage[UserEmailKey]) else None;
      var userIsAdmin := if UserIsAdminKey in storage then Some(storage[UserIsAdminKey]) else None;
      if userId.Some? && userId.value != "" && userName.Some? && userName.value != ""
         && userEmail.Some? && userEmail.value != "" {
        user := Some(User(userId.value, userName.value, userEmail.value, userIsAdmin == Some("true")));
        isAuthenticated := true;
      }
      isLoading := false;
    }

    method Login(outcome: AuthOutcome)
      modifies this
      ensures Snapshot() == SignIn(old(Snapshot()), outcome, LoginFailed)
    {
      Authenticate(outcome, LoginFailed);
    }

    method Register(outcome: AuthOutcome)
      modifies this
      ensures Snapshot() == SignIn(old(Snapshot()), outcome, RegisterFailed)
    {
      Authenticate(outcome, RegisterFailed);
    }

    /** The steps `login` and `register` share, with their own fallback message. */
    method Authenticate(outcome: AuthOutcome, fallback: string)
      modifies this
      ensures Snapshot() == SignIn(old(Snapshot()), outcome, fallback)
    {
      isLoading := true;
      error := None;
      match outcome {
        case Rejected(message) =>
          error := Some(ErrorText(message, fallback));
        case Answered(None) =>
        case Answered(Some(u)) =>
          storage := storage[UserIdKey := u.serverId];
          storage := storage[UserNameKey := u.name];
          storage := storage[UserEmailKey := u.email];
          match u.isAdmin {
            case None =>
              error := Some(fallback);
            case Some(admin) =>
              storage := storage[UserIsAdminKey := BoolText(admin)];
              user := Some(User(u.serverId, u.name, u.email, admin));
              isAuthenticated := true;
          }
      }
      isLoading := false;
    }

    method Logout()
      modifies this
      ensures Snapshot() == SignOut(old(Snapshot()))
    {
      storage := storage - {UserIdKey};
      storage := storage - {UserNameKey};
      storage := storage - {UserEmailKey};
      storage := storage - {UserIsAdminKey};
      user := None;
      isAuthenticated := false;
    }
  }
}
