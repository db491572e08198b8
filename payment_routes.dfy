/** `POST /create-order` and `POST /verify`: building the Razorpay order
    options, and checking the checkout's signature. Neither handler stores
    anything. */
module PaymentRoutes {
  import opened Common
  import opened External
  import opened Http
  import Hex

  /** What `crypto.randomBytes(6)` returns. */
  type RandomBytes = b: seq<Hex.Byte> | |b| == 6 witness [0, 0, 0, 0, 0, 0]

  const ReceiptPrefix: string := "receipt_"
  const OrderFailed: string := "Something went wrong while creating the order."
  const Verified: string := "Payment verified successfully"
  const InvalidSignature: string := "Invalid signature sent!"

  /** The options for an amount in rupees: paise, "INR" and a receipt made
      of the hex of the random bytes. */
  function OrderOptionsFor(amount: int, random: RandomBytes): (o: OrderOptions)
    ensures o.amount == amount * 100
    ensures o.currency == "INR"
    ensures o.receipt == ReceiptPrefix + Hex.Encode(random)
  {
    OrderOptions(amount * 100, "INR", ReceiptPrefix + Hex.Encode(random))
  }

  /** A receipt is "receipt_" and twelve lower-case hex digits, from which
      the six random bytes can be read back. */
  lemma ReceiptShape(amount: int, random: RandomBytes)
    ensures var receipt := OrderOptionsFor(amount, random).receipt;
      && |receipt| == 20
      && receipt[..8] == ReceiptPrefix
      && (forall i :: 8 <= i < 20 ==> Hex.IsHexDigit(receipt[i]))
      && Hex.Decode(receipt[8..]) == Some(random)
  {
    var receipt := OrderOptionsFor(amount, random).receipt;
    assert receipt[8..] == Hex.Encode(random);
    Hex.DecodeEncode(random);
  }

  /** `POST /create-order`: the gateway's order with 200, or 500 and no order
      when the gateway call throws. */
  function CreateOrder(amount: int, random: RandomBytes, env: Env): (r: Response)
    ensures var sent := env.createOrder(OrderOptionsFor(amount, random));
      && (sent.Some? ==> r == Response(200, OrderDoc(sent.value)))
      && (sent.None? ==> r == Response(500, Message(OrderFailed)))
  {
    match env.createOrder(OrderOptionsFor(amount, random))
    case Some(order) => Response(200, OrderDoc(order))
    case None => Response(500, Message(OrderFailed))
  }

  /** The checkout's callback fields, each possibly missing. */
  datatype VerifyBody = VerifyBody(orderId: Option<string>, paymentId: Option<string>, signature: Option<string>)

  /** `razorpay_order_id + "|" + razorpay_payment_id`: the order id's text,
      one "|", then the payment id's text. */
  function SignedMessage(orderId: Option<string>, paymentId: Option<string>): (m: string)
    ensures |m| == |JsString(orderId)| + 1 + |JsString(paymentId)|
    ensures m[..|JsString(orderId)|] == JsString(orderId)
    ensures m[|JsString(orderId)|] == '|'
    ensures m[|JsString(orderId)| + 1..] == JsString(paymentId)
  {
    JsString(orderId) + "|" + JsString(paymentId)
  }

  /** In `o + "|" + p` with no "|" in `o`, the first "|" sits right after `o`. */
  lemma FirstBar(o: string, p: string)
    requires '|' !in o
    ensures (o + "|" + p)[|o|] == '|'
    ensures forall i :: 0 <= i < |o| ==> (o + "|" + p)[i] != '|'
  {
  }

  /** When the order id holds no "|", as Razorpay's ids do not, the message
      names the order and the payment unambiguously. */
  lemma SignedMessageInjective(o1: string, p1: string, o2: string, p2: string)
    requires '|' !in o1 && '|' !in o2
    requires o1 + "|" + p1 == o2 + "|" + p2
    ensures o1 == o2 && p1 == p2
  {
    var m := o1 + "|" + p1;
    FirstBar(o1, p1);
    FirstBar(o2, p2);
    assert |o1| == |o2|;
    assert o1 == m[..|o1|] == o2;
    assert p1 == m[|o1| + 1..] == p2;
  }

  /** `POST /verify`: 200 exactly when the supplied signature equals the hex
      HMAC-SHA256 of the message under the key secret, compared as plain
      strings; 400 otherwise. Nothing is recorded either way. */
  function VerifyPayment(body: VerifyBody, env: Env): (r: Response)
    ensures var expected := env.hmacHex(env.razorpaySecret, SignedMessage(body.orderId, body.paymentId));
      && (r.status == 200 <==> body.signature == Some(expected))
      && (r.status == 200 ==> r.body == Message(Verified))
      && (r.status != 200 ==> r == Response(400, Message(InvalidSignature)))
  {
    var sign := SignedMessage(body.orderId, body.paymentId);
    var expectedSign := env.hmacHex(env.razorpaySecret, sign);
    if body.signature == Some(expectedSign) then Response(200, Message(Verified))
    else Response(400, Message(InvalidSignature))
  }

  /** A checkout that sends the genuine signature for its order and payment
      is accepted; a signature for a different order or payment is accepted
      only if the HMAC collides on the two messages. */
  lemma VerifyAcceptsGenuine(orderId: string, paymentId: string, other: string, env: Env)
    requires '|' !in orderId && '|' !in other && other != orderId
    ensures VerifyPayment(VerifyBody(Some(orderId), Some(paymentId),
                                     Some(env.hmacHex(env.razorpaySecret, orderId + "|" + paymentId))), env).status == 200
    ensures var forged := VerifyBody(Some(other), Some(paymentId),
                                     Some(env.hmacHex(env.razorpaySecret, orderId + "|" + paymentId)));
      VerifyPayment(forged, env).status == 200 ==>
        env.hmacHex(env.razorpaySecret, other + "|" + paymentId)
          == env.hmacHex(env.razorpaySecret, orderId + "|" + paymentId)
        && other + "|" + paymentId != orderId + "|" + paymentId
  {
    if other + "|" + paymentId == orderId + "|" + paymentId {
      SignedMessageInjective(other, paymentId, orderId, paymentId);
    }
  }
}
