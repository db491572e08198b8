/** The collaborators the handlers call but whose code is not part of this
    model: bcrypt, jsonwebtoken, Node's HMAC-SHA256 and the Razorpay client.
    Each is an uninterpreted function carried in `Env`; a lemma that needs
    one of them to behave says so in its own `requires`. */
module External {
  import opened Common

  /** The decoded token payload, reduced to the two claims the handlers read;
      either may be missing from a token signed elsewhere. */
  datatype Claims = Claims(id: Option<string>, role: Option<string>)

  /** The options object passed to `instance.orders.create`. */
  datatype OrderOptions = OrderOptions(amount: int, currency: string, receipt: string)

  /** The order that Razorpay returns. */
  datatype Order = Order(id: string, amount: int, currency: string, receipt: string)

  datatype Env = Env(
    /** `process.env.JWT_SECRET` */
    jwtSecret: string,
    /** `process.env.RAZORPAY_KEY_SECRET` */
    razorpaySecret: string,
    /** `bcrypt.hash(plain, salt)` */
    hash: (string, string) -> string,
    /** `bcrypt.compare(plain, digest)` */
    hashMatches: (string, string) -> bool,
    /** `jwt.sign(payload, secret, { expiresIn })` */
    sign: (Claims, string, string) -> string,
    /** `jwt.verify(token, secret)` on a non-empty token: the payload, or none
        when the signature or the expiry check fails */
    verify: (string, string) -> Option<Claims>,
    /** `createHmac("sha256", secret).update(message).digest("hex")` */
    hmacHex: (string, string) -> string,
    /** `instance.orders.create(options)`: the created order, or none when the
        gateway call throws */
    createOrder: OrderOptions -> Option<Order>
  )
}
