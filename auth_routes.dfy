/** `POST /register` and `POST /login` over the user collection. */
module Auth {
  import opened Common
  import opened External
  import opened UserModel
  import opened Http

  datatype RegisterBody = RegisterBody(
    name: Option<string>,
    mobileNumber: string,
    location: Option<string>,
    mpin: Option<string>)

  datatype LoginBody = LoginBody(mobileNumber: string, mpin: Option<string>)

  const Conflict: string := "A user with this mobile number already exists."
  const UserNotFound: string := "User not found!"
  const WrongMpin: string := "Wrong MPIN!"

  /** The user collection keyed by mobile number: the unique index means a
      key never names a document with another number. */
  predicate KeyedByMobile(users: map<string, User>)
  {
    forall m :: m in users ==> users[m].mobileNumber == m
  }

  /** The payload signed at login. */
  function TokenClaims(u: User): (c: Claims)
    ensures c.id == Some(u.id) && c.role == Some(RoleName(u.role))
  {
    Claims(Some(u.id), Some(RoleName(u.role)))
  }

  /** The new user collection and the response of `POST /register`, given the
      salt from `genSalt(10)`, the fresh `_id`, the clock and whether the store
      fails. The user is built without a role, so the schema default applies. */
  function RegisterOutcome(users: map<string, User>, body: RegisterBody, env: Env,
                           salt: string, id: string, now: int, fault: bool)
    : (r: (map<string, User>, Response))
    ensures KeyedByMobile(users) ==> KeyedByMobile(r.0)
    ensures r.1.status == 201 || r.0 == users
    ensures r.1.status in {201, 409, 500}
    ensures !fault && body.mobileNumber in users ==> r == (users, Response(409, Text(Conflict)))
    ensures r.1.status == 201 <==>
      && !fault && body.mobileNumber !in users && body.mpin.Some?
      && Truthy(body.name) && body.mobileNumber != "" && Truthy(body.location)
      && env.hash(body.mpin.value, salt) != ""
    ensures r.1.status == 201 ==>
      && r.1.body.UserDoc?
      && var u := r.1.body.user;
      && r.0 == users[body.mobileNumber := u]
      && |r.0| == |users| + 1
      && u == User(id, body.name.value, body.mobileNumber, body.location.value,
                   env.hash(body.mpin.value, salt), UserRole, now, now)
  {
    if fault then (users, Response(500, Failure("store unavailable")))
    else if body.mobileNumber in users then (users, Response(409, Text(Conflict)))
    else if body.mpin.None? then (users, Response(500, Failure("bcrypt: illegal arguments")))
    else
      var digest := env.hash(body.mpin.value, salt);
      var fields := UserFields(body.name, Some(body.mobileNumber), body.location, Some(digest), None);
      match NewUser(fields, id, now)
      case None => (users, Response(500, Failure("ValidationError")))
      case Some(u) => (users[body.mobileNumber := u], Response(201, UserDoc(u)))
  }

  /** The response of `POST /login`; the collection is only read. */
  function LoginOutcome(users: map<string, User>, body: LoginBody, env: Env, fault: bool): (r: Response)
    ensures r.status in {200, 400, 404, 500}
    ensures r.status == 200 <==>
      && !fault && body.mobileNumber in users && body.mpin.Some?
      && env.hashMatches(body.mpin.value, users[body.mobileNumber].mpin)
    ensures r.status == 200 ==>
      var u := users[body.mobileNumber];
      r.body == LoginDoc(WithoutMpin(u), env.sign(TokenClaims(u), env.jwtSecret, "3d"))
    ensures r.status != 200 ==> !r.body.LoginDoc?
    ensures !fault && body.mobileNumber !in users ==> r == Response(404, Text(UserNotFound))
    ensures !fault && body.mobileNumber in users && body.mpin.Some?
            && !env.hashMatches(body.mpin.value, users[body.mobileNumber].mpin) ==>
      r == Response(400, Text(WrongMpin))
  {
    if fault then Response(500, Failure("store unavailable"))
    else if body.mobileNumber !in users then Response(404, Text(UserNotFound))
    else
      var u := users[body.mobileNumber];
      if body.mpin.None? then Response(500, Failure("bcrypt: illegal arguments"))
      else if !env.hashMatches(body.mpin.value, u.mpin) then Response(400, Text(WrongMpin))
      else Response(200, LoginDoc(WithoutMpin(u), env.sign(TokenClaims(u), env.jwtSecret, "3d")))
  }

  /** Registering the same number twice: the second attempt is a conflict and
      the collection keeps exactly the first user. */
  lemma RegisterTwice(users: map<string, User>, b1: RegisterBody, b2: RegisterBody, env: Env,
                      s1: string, s2: string, id1: string, id2: string, t1: int, t2: int)
    requires b1.mobileNumber == b2.mobileNumber
    requires RegisterOutcome(users, b1, env, s1, id1, t1, false).1.status == 201
    ensures var after := RegisterOutcome(users, b1, env, s1, id1, t1, false).0;
      && RegisterOutcome(after, b2, env, s2, id2, t2, false) == (after, Response(409, Text(Conflict)))
      && |after| == |users| + 1
  {
  }

  /** A user who has just registered can log in with the same MPIN, provided
      bcrypt accepts a PIN against its own digest; the token carries the new
      id and the role "User", and the reply carries no digest. */
  lemma RegisterThenLogin(users: map<string, User>, body: RegisterBody, env: Env,
                          salt: string, id: string, now: int)
    requires RegisterOutcome(users, body, env, salt, id, now, false).1.status == 201
    requires env.hashMatches(body.mpin.value, env.hash(body.mpin.value, salt))
    ensures var after := RegisterOutcome(users, body, env, salt, id, now, false).0;
      var r := LoginOutcome(after, LoginBody(body.mobileNumber, body.mpin), env, false);
      && r.status == 200
      && r.body.others.role == UserRole
      && r.body.accessToken == env.sign(Claims(Some(id), Some("User")), env.jwtSecret, "3d")
  {
  }

  /** One `POST /register` request together with its salt, fresh id and clock reading. */
  datatype Registration = Registration(body: RegisterBody, salt: string, id: string, now: int)

  /** A sequence of registrations applied to a collection. */
  function RegisterAll(users: map<string, User>, calls: seq<Registration>, env: Env): (final: map<string, User>)
    decreases |calls|
  {
    if calls == [] then users
    else
      var c := calls[0];
      RegisterAll(RegisterOutcome(users, c.body, env, c.salt, c.id, c.now, false).0, calls[1..], env)
  }

  /** Registrations alone keep one user per mobile number, never change or
      drop a user already there (an admin included), and give every user they
      add the role "User". */
  lemma {:induction false} RegisterAllKeepsInvariant(users: map<string, User>, calls: seq<Registration>, env: Env)
    requires KeyedByMobile(users)
    ensures var final := RegisterAll(users, calls, env);
      && KeyedByMobile(final)
      && (forall m :: m in final && m !in users ==> final[m].role == UserRole)
      && (forall m :: m in users ==> m in final && final[m] == users[m])
    decreases |calls|
  {
    if calls != [] {
      var c := calls[0];
      var next := RegisterOutcome(users, c.body, env, c.salt, c.id, c.now, false).0;
      assert forall m :: m in next && m !in users ==> next[m].role == UserRole;
      RegisterAllKeepsInvariant(next, calls[1..], env);
    }
  }

  /** The user collection as the two handlers see it. */
  class UserStore {
    var users: map<string, User>

    ghost predicate Valid()
      reads this
    {
      KeyedByMobile(users)
    }

    constructor ()
      ensures Valid() && users == map[]
    {
      users := map[];
    }

    /** `POST /register`: `findOne` by number, `bcrypt.hash`, `new User(...).save()`. */
    method Register(body: RegisterBody, env: Env, salt: string, id: string, now: int, fault: bool)
      returns (r: Response)
      requires Valid()
      modifies this
      ensures Valid()
      ensures (users, r) == RegisterOutcome(old(users), body, env, salt, id, now, fault)
    {
      if fault {
        return Response(500, Failure("store unavailable"));
      }
      if body.mobileNumber in users {
        return Response(409, Text(Conflict));
      }
      if body.mpin.None? {
        return Response(500, Failure("bcrypt: illegal arguments"));
      }
      var hashedMpin := env.hash(body.mpin.value, salt);
      var newUser := NewUser(UserFields(body.name, Some(body.mobileNumber), body.location,
                                        Some(hashedMpin), None), id, now);
      if newUser.None? {
        return Response(500, Failure("ValidationError"));
      }
      users := users[body.mobileNumber := newUser.value];
      r := Response(201, UserDoc(newUser.value));
    }

    /** `POST /login`: `findOne` by number, `bcrypt.compare`, `jwt.sign`, and
        the reply without `mpin`. */
    method Login(body: LoginBody, env: Env, fault: bool) returns (r: Response)
      requires Valid()
      ensures r == LoginOutcome(users, body, env, fault)
    {
      if fault {
        return Response(500, Failure("store unavailable"));
      }
      if body.mobileNumber !in users {
        return Response(404, Text(UserNotFound));
      }
      var user := users[body.mobileNumber];
      if body.mpin.None? {
        return Response(500, Failure("bcrypt: illegal arguments"));
      }
      var validMpin := env.hashMatches(body.mpin.value, user.mpin);
      if !validMpin {
        return Response(400, Text(WrongMpin));
      }
      var accessToken := env.sign(TokenClaims(user), env.jwtSecret, "3d");
      var others := WithoutMpin(user);
      r := Response(200, LoginDoc(others, accessToken));
    }
  }
}
