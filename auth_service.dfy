/** Login and registration over the users collection (internal/services/auth/auth.go). */
module AuthService {
  import opened Wrappers
  import opened Models
  import opened Jwt
  import opened Database

  /** LoginRes: the user found and the access token issued for it. */
  datatype LoginRes = LoginRes(user: User, token: string)

  const NoLoginRes: LoginRes := LoginRes(NoUser, "")

  const InvalidCredentials: string := "invalid email or password"
  const TokenError: string := "error generating token"
  const AccountExists: string := "error creating user. email already exists"

  type Users = map<ObjectId, User>

  /** What Login answers: the user and token (or the zero result) and the error. There
      is no password parameter: the password a caller gives is never consulted. */
  ghost function LoginOutcome(users: Users, email: string, jose: Jose, secret: Secret, now: Time, fails: bool): (o: (LoginRes, Option<string>))
    ensures o.1 == Some(InvalidCredentials) <==> fails || email == "" || !EmailTaken(users, email)
    ensures o.1 == Some(InvalidCredentials) ==> o.0 == NoLoginRes
    ensures o.1 != Some(InvalidCredentials) ==>
      && o.0.user.email == email && (exists k | k in users :: users[k] == o.0.user)
      && (o.1.None? || o.1 == Some(TokenError))
      && (o.1.None? <==> GenereteJWT(jose, secret, now, AuthContext(o.0.user.id, "", o.0.user.name)).Ok?)
      && (o.1.None? ==> o.0.token == GenereteJWT(jose, secret, now, AuthContext(o.0.user.id, "", o.0.user.name)).value)
      && (o.1.Some? ==> o.0.token == "")
  {
    var found := if fails then None else LookupEmail(users, email);
    if found.None? then (NoLoginRes, Some(InvalidCredentials))
    else if found.value.email == "" then (NoLoginRes, Some(InvalidCredentials))
    else
      match GenereteJWT(jose, secret, now, AuthContext(found.value.id, "", found.value.name))
      case Err(_) => (LoginRes(found.value, ""), Some(TokenError))
      case Ok(token) => (LoginRes(found.value, token), None)
  }

  /** The record Register inserts, under the identifier the driver generated; the
      password is stored exactly as given. */
  function NewUser(id: ObjectId, name: string, email: string, password: string, msisdn: string): User {
    User(id, name, email, msisdn, "", password)
  }

  /** What Register answers and the table it leaves. */
  function RegisterOutcome(users: Users, name: string, email: string, password: string, msisdn: string,
                           newId: ObjectId, fails: bool): (o: (Option<string>, Users))
    ensures o.0.None? || o.0 == Some(AccountExists)
    ensures o.0.None? <==> !fails && newId !in users && !EmailTaken(users, email)
    ensures o.0.Some? ==> o.1 == users
    ensures o.0.None? ==>
      && o.1.Keys == users.Keys + {newId}
      && (forall k | k in users :: o.1[k] == users[k])
      && o.1[newId].email == email && o.1[newId].password == password
      && o.1[newId].name == name && o.1[newId].phone == msisdn && o.1[newId].id == newId
  {
    if fails || newId in users || EmailTaken(users, email) then (Some(AccountExists), users)
    else (None, users[newId := NewUser(newId, name, email, password, msisdn)])
  }

  // ---------------------------------------------------------------------------
  // Properties

  /** An email nobody registered, the empty email and a fault of the store all give
      the same zero result and the same error: the answer never tells which it was. */
  lemma UniformLoginFailure(users: Users, email: string, jose: Jose, secret: Secret, now: Time, k: ObjectId)
    requires UniqueEmails(users) && k in users && users[k].email == email
    ensures LoginOutcome(users - {k}, email, jose, secret, now, false) == (NoLoginRes, Some(InvalidCredentials))
    ensures LoginOutcome(users, email, jose, secret, now, true) == (NoLoginRes, Some(InvalidCredentials))
    ensures LoginOutcome(users, "", jose, secret, now, false) == (NoLoginRes, Some(InvalidCredentials))
  {
  }

  /** Registration keeps at most one user per email. */
  lemma RegisterKeepsEmailsUnique(users: Users, name: string, email: string, password: string, msisdn: string,
                                  newId: ObjectId, fails: bool)
    requires UniqueEmails(users)
    ensures UniqueEmails(RegisterOutcome(users, name, email, password, msisdn, newId, fails).1)
  {
    var o := RegisterOutcome(users, name, email, password, msisdn, newId, fails);
    if o.0.None? {
      forall k, k' | k in o.1 && k' in o.1 && o.1[k].email == o.1[k'].email
        ensures k == k'
      {
        if k != newId && k' != newId {
          assert users[k].email == users[k'].email;
        }
      }
    }
  }

  /** A second registration with an email already on file is refused and changes nothing. */
  lemma {:induction false} DuplicateEmailRefused(users: Users, name: string, email: string, password: string, msisdn: string,
                                                 firstId: ObjectId, name': string, password': string, msisdn': string,
                                                 secondId: ObjectId, fails: bool)
    requires RegisterOutcome(users, name, email, password, msisdn, firstId, false).0.None?
    ensures var users' := RegisterOutcome(users, name, email, password, msisdn, firstId, false).1;
      RegisterOutcome(users', name', email, password', msisdn', secondId, fails) == (Some(AccountExists), users')
  {
    var users' := RegisterOutcome(users, name, email, password, msisdn, firstId, false).1;
    assert users'[firstId].email == email;
  }

  /** Register then Login: the token Login issues for the new account passes the guard
      and names the stored record. */
  lemma {:induction false} RegisteredUserCanAuthenticate(users: Users, name: string, email: string, password: string,
                                                         msisdn: string, newId: ObjectId, jose: Jose, secret: Secret, now: Time)
    requires UniqueEmails(users) && IsObjectId(newId) && email != "" && Sound(jose)
    requires RegisterOutcome(users, name, email, password, msisdn, newId, false).0.None?
    ensures var users' := RegisterOutcome(users, name, email, password, msisdn, newId, false).1;
      var (res, err) := LoginOutcome(users', email, jose, secret, now, false);
      err.None? ==>
        && res.user == NewUser(newId, name, email, password, msisdn)
        && Authenticate(jose, secret, Request("Bearer " + res.token, Background)).Ok?
        && GetAuthContext(Authenticate(jose, secret, Request("Bearer " + res.token, Background)).value)
           == Ok(AuthContext(newId, IssuerName, name))
  {
    var users' := RegisterOutcome(users, name, email, password, msisdn, newId, false).1;
    RegisterKeepsEmailsUnique(users, name, email, password, msisdn, newId, false);
    LookupEmailUnique(users', email, newId);
    var (res, err) := LoginOutcome(users', email, jose, secret, now, false);
    if err.None? {
      assert res.user == users'[newId];
      IssuedTokenAuthenticates(jose, secret, now, AuthContext(newId, "", name), res.token);
    }
  }

  // ---------------------------------------------------------------------------
  // The service

  class Service {
    const db: UserStore

    constructor (db: UserStore)
      ensures this.db == db
    {
      this.db := db;
    }

    /** Login: an email lookup, then a token for {Sub: user.ID, Name: user.Name}. */
    method Login(email: string, password: string, jose: Jose, secret: Secret, now: Time, fails: bool)
      returns (result: LoginRes, err: Option<string>)
      requires db.Valid()
      ensures (result, err) == LoginOutcome(db.rows, email, jose, secret, now, fails)
    {
      result := NoLoginRes;
      var user := db.FindOne(email, fails);
      if user.None? {
        return result, Some(InvalidCredentials);
      }
      if user.value.email == "" {
        return result, Some(InvalidCredentials);
      }
      result := result.(user := user.value);
      var token := GenereteJWT(jose, secret, now, AuthContext(result.user.id, "", result.user.name));
      if token.Err? {
        return result, Some(TokenError);
      }
      result := result.(token := token.value);
      return result, None;
    }

    /** Register: one insert; any refusal reads as an existing email. */
    method Register(name: string, email: string, password: string, msisdn: string, newId: ObjectId, fails: bool)
      returns (err: Option<string>)
      requires db.Valid() && IsObjectId(newId)
      modifies db
      ensures db.Valid()
      ensures (err, db.rows) == RegisterOutcome(old(db.rows), name, email, password, msisdn, newId, fails)
    {
      var failed := db.InsertOne(NewUser(newId, name, email, password, msisdn), fails);
      if failed {
        return Some(AccountExists);
      }
      return None;
    }
  }
}
