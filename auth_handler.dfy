/** Signin and Signup (internal/handlers/auth/auth.go): the request checks, in their
    order, in front of the auth service, and the status each outcome is given. A body is
    `Some(request)` when it decoded and `None` when json decoding failed. Go's `len` counts
    bytes; here each char stands for one byte. */
module AuthHandler {
  import opened Wrappers
  import opened Models
  import opened Http
  import opened Jwt
  import opened Database
  import opened AuthService

  datatype LoginRequest = LoginRequest(email: string, password: string)

  datatype RegisterRequest = RegisterRequest(email: string, password: string, msisdn: string, name: string)

  const DecodeError: string := "error decoding request body"
  const CredentialsRequired: string := "email and password are required"
  const FieldsRequired: string := "email, password and msisdn is required"
  const PasswordTooShort: string := "password must be at least 6 characters"
  const MsisdnTooShort: string := "msisdn must be at least 10 characters"
  const InvalidEmail: string := "invalid email address"
  const NameTooShort: string := "name must be at least 3 characters"

  const MinPasswordLength: nat := 6
  const MinMsisdnLength: nat := 10
  const MinNameLength: nat := 3

  /** The checks Signin makes before calling Login. */
  function ValidateSignin(req: LoginRequest): (err: Option<string>)
    ensures err.None? <==> req.email != "" && req.password != ""
    ensures err.Some? ==> err == Some(CredentialsRequired)
  {
    if req.email == "" || req.password == "" then Some(CredentialsRequired) else None
  }

  /** The checks Signup makes before calling Register, first failure first;
      `isAddress` is what mail.ParseAddress accepts. */
  function ValidateSignup(req: RegisterRequest, isAddress: string -> bool): (err: Option<string>)
    ensures err.None? <==>
      && req.email != "" && req.password != "" && req.msisdn != "" && req.name != ""
      && |req.password| >= MinPasswordLength && |req.msisdn| >= MinMsisdnLength
      && isAddress(req.email) && |req.name| >= MinNameLength
    ensures err == Some(FieldsRequired) <==>
      req.email == "" || req.password == "" || req.msisdn == "" || req.name == ""
    ensures err == Some(PasswordTooShort) <==>
      && req.email != "" && req.password != "" && req.msisdn != "" && req.name != ""
      && |req.password| < MinPasswordLength
    ensures err == Some(MsisdnTooShort) <==>
      && req.email != "" && req.password != "" && req.msisdn != "" && req.name != ""
      && |req.password| >= MinPasswordLength && |req.msisdn| < MinMsisdnLength
    ensures err == Some(InvalidEmail) <==>
      && req.email != "" && req.password != "" && req.msisdn != "" && req.name != ""
      && |req.password| >= MinPasswordLength && |req.msisdn| >= MinMsisdnLength
      && !isAddress(req.email)
    ensures err == Some(NameTooShort) <==>
      && req.email != "" && req.password != "" && req.msisdn != "" && req.name != ""
      && |req.password| >= MinPasswordLength && |req.msisdn| >= MinMsisdnLength
      && isAddress(req.email) && |req.name| < MinNameLength
  {
    if req.email == "" || req.password == "" || req.msisdn == "" || req.name == "" then Some(FieldsRequired)
    else if |req.password| < MinPasswordLength then Some(PasswordTooShort)
    else if |req.msisdn| < MinMsisdnLength then Some(MsisdnTooShort)
    else if !isAddress(req.email) then Some(InvalidEmail)
    else if |req.name| < MinNameLength then Some(NameTooShort)
    else None
  }

  /** The name check comes last: a one-letter name with a well-formed rest of the request
      is refused for its name, and an empty name is refused as a missing field, under a
      message that does not mention it. */
  lemma NameCheckedLast(req: RegisterRequest, isAddress: string -> bool)
    requires req.email != "" && |req.password| >= MinPasswordLength && |req.msisdn| >= MinMsisdnLength
    requires isAddress(req.email)
    ensures |req.name| == 0 ==> ValidateSignup(req, isAddress) == Some(FieldsRequired)
    ensures 0 < |req.name| < MinNameLength ==> ValidateSignup(req, isAddress) == Some(NameTooShort)
    ensures |req.name| >= MinNameLength ==> ValidateSignup(req, isAddress) == None
  {
  }

  // ---------------------------------------------------------------------------
  // Status mapping

  /** Signin: 400 before the service, then 401 carrying the service's message, else 200
      with the login result. */
  function SigninReply(body: Option<LoginRequest>, result: LoginRes, serviceErr: Option<string>): (reply: Reply<LoginRes>)
    ensures reply.status == StatusBadRequest <==> body.None? || ValidateSignin(body.value).Some?
    ensures body.None? ==> reply == Reply(StatusBadRequest, ApiResponse(DecodeError, None))
    ensures body.Some? && ValidateSignin(body.value).Some? ==> reply == Reply(StatusBadRequest, ApiResponse(CredentialsRequired, None))
    ensures body.Some? && ValidateSignin(body.value).None? ==>
      reply == if serviceErr.Some? then Reply(StatusUnauthorized, ApiResponse(serviceErr.value, None))
               else Reply(StatusOK, ApiResponse("login successful", Some(result)))
  {
    if body.None? then Reply(StatusBadRequest, ApiResponse(DecodeError, None))
    else if ValidateSignin(body.value).Some? then Reply(StatusBadRequest, ApiResponse(ValidateSignin(body.value).value, None))
    else if serviceErr.Some? then Reply(StatusUnauthorized, ApiResponse(serviceErr.value, None))
    else Reply(StatusOK, ApiResponse("login successful", Some(result)))
  }

  /** Signup: 400 before the service, then 401 carrying the service's message, else 200. */
  function SignupReply(body: Option<RegisterRequest>, isAddress: string -> bool, serviceErr: Option<string>): (reply: Reply<LoginRes>)
    ensures reply.status == StatusBadRequest <==> body.None? || ValidateSignup(body.value, isAddress).Some?
    ensures reply.body.data.None?
    ensures body.None? ==> reply.body.message == DecodeError
    ensures body.Some? && ValidateSignup(body.value, isAddress).Some? ==>
      reply.body.message == ValidateSignup(body.value, isAddress).value
    ensures body.Some? && ValidateSignup(body.value, isAddress).None? ==>
      reply == if serviceErr.Some? then Reply(StatusUnauthorized, ApiResponse(serviceErr.value, None))
               else Reply(StatusOK, ApiResponse("account created successfully", None))
  {
    if body.None? then Reply(StatusBadRequest, ApiResponse(DecodeError, None))
    else if ValidateSignup(body.value, isAddress).Some? then
      Reply(StatusBadRequest, ApiResponse(ValidateSignup(body.value, isAddress).value, None))
    else if serviceErr.Some? then Reply(StatusUnauthorized, ApiResponse(serviceErr.value, None))
    else Reply(StatusOK, ApiResponse("account created successfully", None))
  }

  // ---------------------------------------------------------------------------
  // The handlers

  method Signin(w: ResponseWriter<LoginRes>, body: Option<LoginRequest>, db: UserStore,
                jose: Jose, secret: Secret, now: Time, fails: bool)
    requires w.Unwritten() && db.Valid()
    modifies w
    ensures body.None? || ValidateSignin(body.value).Some? ==> w.Sent(SigninReply(body, NoLoginRes, None))
    ensures body.Some? && ValidateSignin(body.value).None? ==>
      var (result, err) := LoginOutcome(db.rows, body.value.email, jose, secret, now, fails);
      w.Sent(SigninReply(body, result, err))
  {
    if body.None? {
      Respond(w, Reply(StatusBadRequest, ApiResponse(DecodeError, None)));
      return;
    }
    if body.value.email == "" || body.value.password == "" {
      Respond(w, Reply(StatusBadRequest, ApiResponse(CredentialsRequired, None)));
      return;
    }
    var service := new Service(db);
    var result, err := service.Login(body.value.email, body.value.password, jose, secret, now, fails);
    if err.Some? {
      Respond(w, Reply(StatusUnauthorized, ApiResponse(err.value, None)));
      return;
    }
    Respond(w, Reply(StatusOK, ApiResponse("login successful", Some(result))));
  }

  method Signup(w: ResponseWriter<LoginRes>, body: Option<RegisterRequest>, isAddress: string -> bool,
                db: UserStore, newId: ObjectId, fails: bool)
    requires w.Unwritten() && db.Valid() && IsObjectId(newId)
    modifies w, db
    ensures db.Valid()
    ensures body.None? || ValidateSignup(body.value, isAddress).Some? ==>
      db.rows == old(db.rows) && w.Sent(SignupReply(body, isAddress, None))
    ensures body.Some? && ValidateSignup(body.value, isAddress).None? ==>
      var req := body.value;
      var (err, rows) := RegisterOutcome(old(db.rows), req.name, req.email, req.password, req.msisdn, newId, fails);
      db.rows == rows && w.Sent(SignupReply(body, isAddress, err))
  {
    if body.None? {
      Respond(w, Reply(StatusBadRequest, ApiResponse(DecodeError, None)));
      return;
    }
    var req := body.value;
    if req.email == "" || req.password == "" || req.msisdn == "" || req.name == "" {
      Respond(w, Reply(StatusBadRequest, ApiResponse(FieldsRequired, None)));
      return;
    }
    if |req.password| < MinPasswordLength {
      Respond(w, Reply(StatusBadRequest, ApiResponse(PasswordTooShort, None)));
      return;
    }
    if |req.msisdn| < MinMsisdnLength {
      Respond(w, Reply(StatusBadRequest, ApiResponse(MsisdnTooShort, None)));
      return;
    }
    if !isAddress(req.email) {
      Respond(w, Reply(StatusBadRequest, ApiResponse(InvalidEmail, None)));
      return;
    }
    if |req.name| < MinNameLength {
      Respond(w, Reply(StatusBadRequest, ApiResponse(NameTooShort, None)));
      return;
    }
    var service := new Service(db);
    var err := service.Register(req.name, req.email, req.password, req.msisdn, newId, fails);
    if err.Some? {
      Respond(w, Reply(StatusUnauthorized, ApiResponse(err.value, None)));
      return;
    }
    Respond(w, Reply(StatusOK, ApiResponse("account created successfully", None)));
  }

  // ---------------------------------------------------------------------------
  // Properties across the two handlers

  /** Signin answers a wrong password and an unknown email alike: the password in the
      request has no effect on the reply once it is non-empty. */
  lemma SigninIgnoresPassword(users: Users, email: string, p: string, q: string, jose: Jose, secret: Secret,
                              now: Time, fails: bool)
    requires p != "" && q != ""
    ensures var (res, err) := LoginOutcome(users, email, jose, secret, now, fails);
      SigninReply(Some(LoginRequest(email, p)), res, err) == SigninReply(Some(LoginRequest(email, q)), res, err)
  {
  }

  /** A second signup with an email already on file answers 401 with the uniform
      account-exists message and leaves the users table as the first signup left it. */
  lemma {:induction false} SecondSignupRefused(users: Users, first: RegisterRequest, second: RegisterRequest,
                                               isAddress: string -> bool, firstId: ObjectId, secondId: ObjectId, fails: bool)
    requires ValidateSignup(first, isAddress).None? && ValidateSignup(second, isAddress).None?
    requires second.email == first.email
    requires RegisterOutcome(users, first.name, first.email, first.password, first.msisdn, firstId, false).0.None?
    ensures var users' := RegisterOutcome(users, first.name, first.email, first.password, first.msisdn, firstId, false).1;
      var (err, users'') := RegisterOutcome(users', second.name, second.email, second.password, second.msisdn, secondId, fails);
      users'' == users'
      && SignupReply(Some(second), isAddress, err) == Reply(StatusUnauthorized, ApiResponse(AccountExists, None))
  {
    DuplicateEmailRefused(users, first.name, first.email, first.password, first.msisdn,
                          firstId, second.name, second.password, second.msisdn, secondId, fails);
  }
}
