/** What a handler sends: a status code and the JSON body passed to `res.json`. */
module Http {
  import opened UserModel
  import opened RatesModel
  import opened NotificationModel
  import opened External

  datatype Body =
    /** a bare JSON string, `res.json("...")` */
    | Text(text: string)
    /** `res.json({ message: "..." })` */
    | Message(message: string)
    /** `res.json(err)` for a caught error; `reason` names what threw */
    | Failure(reason: string)
    /** a saved user document, digest included */
    | UserDoc(user: User)
    /** the user's other fields spread next to `accessToken` */
    | LoginDoc(others: PublicUser, accessToken: string)
    | RatesDoc(rates: Rates)
    | NotificationList(items: seq<Notification>)
    | OrderDoc(order: Order)

  datatype Response = Response(status: int, body: Body)
}
