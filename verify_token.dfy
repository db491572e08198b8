/** The access guard: `verifyToken` reads the `Authorization` header, verifies
    the token after the first space and attaches its payload to the request;
    `verifyTokenAndAdmin` lets only an "Admin" payload through. Each call
    either writes an error response or calls `next()`, never both: a `Guard`
    value is one or the other. */
module AccessGuard {
  import opened Common
  import opened Text
  import opened External

  /** `Respond`: the middleware wrote `res.status(status).json(message)` and
      stopped; `Next`: it called `next()` with `req.user` set to `user`. */
  datatype Guard = Respond(status: int, message: string) | Next(user: Claims)

  const NotAuthenticated: string := "You are not authenticated!"
  const TokenNotValid: string := "Token is not valid!"
  const NotAllowed: string := "You are not allowed to do that!"

  /** `jwt.verify(token, secret)`: an absent or empty token is refused before
      any signature is looked at ("jwt must be provided"); any other token is
      up to the library. */
  function VerifyJwt(token: Option<string>, env: Env): (c: Option<Claims>)
    ensures !Truthy(token) ==> c.None?
    ensures Truthy(token) ==> c == env.verify(token.value, env.jwtSecret)
  {
    if Truthy(token) then env.verify(token.value, env.jwtSecret) else None
  }

  /** The decision `verifyToken` takes for a header. */
  function Authenticate(header: Option<string>, env: Env): (g: Guard)
    ensures !Truthy(header) ==> g == Respond(401, NotAuthenticated)
    ensures Truthy(header) ==>
      (g.Next? <==> VerifyJwt(SecondWord(header.value), env).Some?)
    ensures Truthy(header) && g.Respond? ==> g == Respond(403, TokenNotValid)
    ensures g.Next? ==> Truthy(header) && VerifyJwt(SecondWord(header.value), env) == Some(g.user)
  {
    if !Truthy(header) then Respond(401, NotAuthenticated)
    else
      match VerifyJwt(SecondWord(header.value), env)
      case None => Respond(403, TokenNotValid)
      case Some(payload) => Next(payload)
  }

  /** The decision `verifyTokenAndAdmin` takes for a header. */
  function AuthorizeAdmin(header: Option<string>, env: Env): (g: Guard)
    ensures g.Next? <==>
      Authenticate(header, env).Next? && Authenticate(header, env).user.role == Some("Admin")
    ensures g.Next? ==> g == Authenticate(header, env)
    ensures Authenticate(header, env).Respond? ==> g == Authenticate(header, env)
    ensures Authenticate(header, env).Next? && Authenticate(header, env).user.role != Some("Admin") ==>
      g == Respond(403, NotAllowed)
  {
    match Authenticate(header, env)
    case Respond(status, message) => Respond(status, message)
    case Next(payload) =>
      if payload.role == Some("Admin") then Next(payload) else Respond(403, NotAllowed)
  }

  /** The admin gate passes exactly the headers whose second word is a token
      the library accepts with the claim role "Admin"; every other caller is
      stopped with 401 or 403. */
  lemma AdminGateExactly(header: Option<string>, env: Env)
    ensures AuthorizeAdmin(header, env).Next? <==>
      && Truthy(header)
      && var c := VerifyJwt(SecondWord(header.value), env);
         c.Some? && c.value.role == Some("Admin")
    ensures AuthorizeAdmin(header, env).Respond? ==> AuthorizeAdmin(header, env).status in {401, 403}
  {
  }

  /** A header of the documented form `Bearer <token>`, or with any other
      first word, is decided by the library's verdict on `<token>` alone. */
  lemma {:induction false} BearerHeader(scheme: string, token: string, env: Env)
    requires ' ' !in scheme && ' ' !in token && token != ""
    ensures Authenticate(Some(scheme + " " + token), env) ==
      match env.verify(token, env.jwtSecret)
      case None => Respond(403, TokenNotValid)
      case Some(payload) => Next(payload)
  {
    var h := scheme + " " + token;
    assert h == scheme + " " + token + "";
    SecondWordOfShape(h, scheme, token, "");
    assert h != "";
  }

  /** The part of `req` the guard touches. */
  class Request {
    /** `req.headers.authorization` */
    const authorization: Option<string>
    /** `req.user`, unset until a token is accepted */
    var user: Option<Claims>

    constructor (authorization: Option<string>)
      ensures this.authorization == authorization && user == None
    {
      this.authorization := authorization;
      user := None;
    }

    /** `verifyToken(req, res, next)`. */
    method VerifyToken(env: Env) returns (g: Guard)
      modifies this`user
      ensures g == Authenticate(authorization, env)
      ensures g.Next? ==> user == Some(g.user)
      ensures g.Respond? ==> user == old(user)
    {
      if authorization.Some? && authorization.value != "" {
        var token := SecondWord(authorization.value);
        var payload := VerifyJwt(token, env);
        if payload.None? {
          return Respond(403, TokenNotValid);
        }
        user := payload;
        g := Next(payload.value);
      } else {
        return Respond(401, NotAuthenticated);
      }
    }

    /** `verifyTokenAndAdmin(req, res, next)`; `req.user` is set even when
        the role check then refuses. */
    method VerifyTokenAndAdmin(env: Env) returns (g: Guard)
      modifies this`user
      ensures g == AuthorizeAdmin(authorization, env)
      ensures user == (if Authenticate(authorization, env).Next?
                       then Some(Authenticate(authorization, env).user) else old(user))
    {
      var inner := VerifyToken(env);
      if inner.Respond? {
        return inner;
      }
      if user.value.role == Some("Admin") {
        g := Next(user.value);
      } else {
        g := Respond(403, NotAllowed);
      }
    }
  }
}
