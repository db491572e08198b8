/** The `Notification` schema: a required message, a required target role
    from `['Admin', 'User']`, an optional target user, the payer's amount and
    mobile number, and an unread flag. */
module NotificationModel {
  import opened Common
  import opened UserModel

  datatype Notification = Notification(
    message: string,
    targetRole: Role,
    /** absent on Admin-targeted records */
    targetUserId: Option<string>,
    amountPaid: int,
    userMobile: string,
    isRead: bool,
    createdAt: int)

  /** The fields handed to `new Notification({...})`, each possibly absent. */
  datatype NotificationFields = NotificationFields(
    message: Option<string>,
    targetRole: Option<string>,
    targetUserId: Option<string>,
    amountPaid: Option<int>,
    userMobile: Option<string>,
    isRead: Option<bool>,
    createdAt: Option<int>)

  /** Document validation and defaults at clock reading `now`: the message,
      the target role, the amount and the mobile number are required, the
      role must name an enum value; `isRead` defaults to false and
      `createdAt` to `now`. */
  function NewNotification(f: NotificationFields, now: int): (r: Option<Notification>)
    ensures r.Some? <==>
      && Truthy(f.message) && f.targetRole.Some? && ParseRole(f.targetRole.value).Some?
      && f.amountPaid.Some? && Truthy(f.userMobile)
    ensures r.Some? ==>
      && Some(r.value.message) == f.message
      && Some(RoleName(r.value.targetRole)) == f.targetRole
      && r.value.targetUserId == f.targetUserId
      && Some(r.value.amountPaid) == f.amountPaid
      && Some(r.value.userMobile) == f.userMobile
      && r.value.isRead == (if f.isRead.Some? then f.isRead.value else false)
      && r.value.createdAt == (if f.createdAt.Some? then f.createdAt.value else now)
  {
    if !(Truthy(f.message) && f.targetRole.Some? && f.amountPaid.Some? && Truthy(f.userMobile)) then None
    else
      match ParseRole(f.targetRole.value)
      case None => None
      case Some(role) =>
        Some(Notification(f.message.value, role, f.targetUserId, f.amountPaid.value, f.userMobile.value,
                          if f.isRead.Some? then f.isRead.value else false,
                          if f.createdAt.Some? then f.createdAt.value else now))
  }
}
