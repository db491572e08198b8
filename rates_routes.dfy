/** `GET /` (find the rates document, creating the all-zero default when
    there is none) and `PUT /update` (admin only; upsert of all four tier
    prices) over the rates collection. */
module RatesRoutes {
  import opened Common
  import opened External
  import opened RatesModel
  import opened Http
  import opened AccessGuard

  /** The update body: `goldRate` and `silverRate` may be missing. */
  datatype RatesBody = RatesBody(goldRate: Option<GoldRate>, silverRate: Option<SilverRate>)

  /** The collection and the response of `GET /` at clock reading `now`.
      `findOne()` sees the first document. */
  function GetOutcome(docs: seq<Rates>, now: int, fault: bool): (r: (seq<Rates>, Response))
    ensures fault ==> r == (docs, Response(500, Failure("store unavailable")))
    ensures !fault ==> r.1.status == 200 && r.1.body.RatesDoc? && r.0 != [] && r.1.body.rates == r.0[0]
    ensures !fault && docs == [] ==> r.0 == [DefaultRates(now)] && AllZero(r.1.body.rates)
    ensures docs != [] ==> r.0 == docs
  {
    if fault then (docs, Response(500, Failure("store unavailable")))
    else if docs == [] then
      var created := DefaultRates(now);
      ([created], Response(200, RatesDoc(created)))
    else (docs, Response(200, RatesDoc(docs[0])))
  }

  /** The collection and the response of the `PUT /update` handler once the
      guard has let it through: `goldRate` and `silverRate` must be there
      before anything is written; then the first document gets all four
      prices (both sub-objects replaced) or, if there is none, is created. */
  function UpdateOutcome(docs: seq<Rates>, body: RatesBody, now: int, fault: bool)
    : (r: (seq<Rates>, Response))
    ensures r.1.status == 200 <==> body.goldRate.Some? && body.silverRate.Some? && !fault
    ensures r.1.status != 200 ==> r.0 == docs && r.1.status == 500
    ensures (body.goldRate.None? || body.silverRate.None?) ==>
      r == (docs, Response(500, Failure("TypeError")))
    ensures r.1.status == 200 ==>
      && r.1.body.RatesDoc?
      && var doc := r.1.body.rates;
      && doc.goldRate == body.goldRate.value
      && doc.silverRate == body.silverRate.value
      && doc.updatedAt == now
      && (docs == [] ==> r.0 == [doc] && doc.createdAt == now)
      && (docs != [] ==> r.0 == [doc] + docs[1..] && doc.createdAt == docs[0].createdAt)
  {
    match (body.goldRate, body.silverRate)
    case (Some(gold), Some(silver)) =>
      if fault then (docs, Response(500, Failure("store unavailable")))
      else if docs == [] then
        var created := Rates(gold, silver, now, now);
        ([created], Response(200, RatesDoc(created)))
      else
        var updated := docs[0].(goldRate := gold, silverRate := silver, updatedAt := now);
        ([updated] + docs[1..], Response(200, RatesDoc(updated)))
    case _ => (docs, Response(500, Failure("TypeError")))
  }

  /** `router.put("/update", verifyTokenAndAdmin, handler)`: the guard's
      response, or the handler's. */
  function PutOutcome(header: Option<string>, env: Env, docs: seq<Rates>, body: RatesBody,
                      now: int, fault: bool): (r: (seq<Rates>, Response))
    ensures AuthorizeAdmin(header, env).Respond? ==>
      r == (docs, Response(AuthorizeAdmin(header, env).status, Text(AuthorizeAdmin(header, env).message)))
    ensures AuthorizeAdmin(header, env).Next? ==> r == UpdateOutcome(docs, body, now, fault)
  {
    match AuthorizeAdmin(header, env)
    case Respond(status, message) => (docs, Response(status, Text(message)))
    case Next(_) => UpdateOutcome(docs, body, now, fault)
  }

  /** Only an admin token can change the rates: any other request leaves the
      collection as it was and is answered 401 or 403. */
  lemma OnlyAdminsChangeRates(header: Option<string>, env: Env, docs: seq<Rates>, body: RatesBody,
                              now: int, fault: bool)
    requires PutOutcome(header, env, docs, body, now, fault).0 != docs
    ensures Truthy(header)
    ensures var c := VerifyJwt(Text.SecondWord(header.value), env);
      c.Some? && c.value.role == Some("Admin")
  {
    AdminGateExactly(header, env);
  }

  /** A second `GET /` answers with the same document and writes nothing. */
  lemma GetIsIdempotent(docs: seq<Rates>, now1: int, now2: int)
    ensures var (after, first) := GetOutcome(docs, now1, false);
      GetOutcome(after, now2, false) == (after, first)
  {
  }

  /** After an accepted update, `GET /` shows exactly the new prices. */
  lemma GetAfterUpdate(docs: seq<Rates>, body: RatesBody, now1: int, now2: int)
    requires UpdateOutcome(docs, body, now1, false).1.status == 200
    ensures var after := UpdateOutcome(docs, body, now1, false).0;
      var shown := GetOutcome(after, now2, false).1.body.rates;
      shown.goldRate == body.goldRate.value && shown.silverRate == body.silverRate.value
  {
  }

  /** One request to the rates router. */
  datatype RatesCall =
    | GetCall(now: int, fault: bool)
    | PutCall(header: Option<string>, body: RatesBody, now: int, fault: bool)

  /** The collection after a sequence of requests. */
  function Replay(docs: seq<Rates>, calls: seq<RatesCall>, env: Env): (final: seq<Rates>)
    decreases |calls|
  {
    if calls == [] then docs
    else
      var next := match calls[0]
        case GetCall(now, fault) => GetOutcome(docs, now, fault).0
        case PutCall(header, body, now, fault) => PutOutcome(header, env, docs, body, now, fault).0;
      Replay(next, calls[1..], env)
  }

  /** From a collection with at most one document (the empty one included),
      any sequence of requests leaves at most one, and from the first
      successful request on there is exactly one. */
  lemma {:induction false} AtMostOneDocument(docs: seq<Rates>, calls: seq<RatesCall>, env: Env)
    requires |docs| <= 1
    ensures |Replay(docs, calls, env)| <= 1
    ensures docs != [] ==> |Replay(docs, calls, env)| == 1
    decreases |calls|
  {
    if calls != [] {
      var next := match calls[0]
        case GetCall(now, fault) => GetOutcome(docs, now, fault).0
        case PutCall(header, body, now, fault) => PutOutcome(header, env, docs, body, now, fault).0;
      assert |next| <= 1 && (docs != [] ==> |next| == 1);
      AtMostOneDocument(next, calls[1..], env);
    }
  }

  /** The rates collection. */
  class RatesStore {
    var docs: seq<Rates>

    constructor ()
      ensures docs == []
    {
      docs := [];
    }

    /** `GET /`: `findOne()`, then `new Rates().save()` when nothing was found. */
    method Get(now: int, fault: bool) returns (r: Response)
      modifies this
      ensures (docs, r) == GetOutcome(old(docs), now, fault)
    {
      if fault {
        return Response(500, Failure("store unavailable"));
      }
      var rates: Option<Rates> := if docs == [] then None else Some(docs[0]);
      if rates.None? {
        var created := DefaultRates(now);
        assert docs + [created] == [created];
        docs := docs + [created];
        rates := Some(created);
      }
      r := Response(200, RatesDoc(rates.value));
    }

    /** `PUT /update`: the admin guard, then `findOneAndUpdate({}, { $set },
        { new: true, upsert: true })`. */
    method Update(req: Request, env: Env, body: RatesBody, now: int, fault: bool) returns (r: Response)
      modifies this, req`user
      ensures (docs, r) == PutOutcome(req.authorization, env, old(docs), body, now, fault)
      ensures req.user == (if Authenticate(req.authorization, env).Next?
                           then Some(Authenticate(req.authorization, env).user) else old(req.user))
    {
      var g := req.VerifyTokenAndAdmin(env);
      if g.Respond? {
        return Response(g.status, Text(g.message));
      }
      if body.goldRate.None? || body.silverRate.None? {
        return Response(500, Failure("TypeError"));
      }
      var gold, silver := body.goldRate.value, body.silverRate.value;
      if fault {
        return Response(500, Failure("store unavailable"));
      }
      var updated: Rates;
      if docs == [] {
        updated := Rates(gold, silver, now, now);
        docs := [updated];
      } else {
        updated := docs[0].(goldRate := gold, silverRate := silver, updatedAt := now);
        assert docs[0 := updated] == [updated] + docs[1..];
        docs := docs[0 := updated];
      }
      r := Response(200, RatesDoc(updated));
    }
  }
}
