/** The `User` schema: four required strings, a unique mobile number, a role
    enum defaulting to "User", and Mongoose timestamps. */
module UserModel {
  import opened Common

  /** The schema's role enum `['User', 'Admin']`. */
  datatype Role = UserRole | AdminRole

  /** The string stored in the document and signed into tokens. */
  function RoleName(r: Role): (s: string)
    ensures s == "User" || s == "Admin"
  {
    match r
    case UserRole => "User"
    case AdminRole => "Admin"
  }

  /** The enum validator: only the two listed strings are accepted. */
  function ParseRole(s: string): (r: Option<Role>)
    ensures r.Some? <==> s == "User" || s == "Admin"
    ensures r.Some? ==> RoleName(r.value) == s
  {
    if s == "User" then Some(UserRole)
    else if s == "Admin" then Some(AdminRole)
    else None
  }

  /** Parsing the stored name of a role gives the role back. */
  lemma ParseRoleName(r: Role)
    ensures ParseRole(RoleName(r)) == Some(r)
  {
  }

  /** A saved user document: `mpin` holds the bcrypt digest, `id` is `_id`. */
  datatype User = User(
    id: string,
    name: string,
    mobileNumber: string,
    location: string,
    mpin: string,
    role: Role,
    createdAt: int,
    updatedAt: int)

  /** The fields handed to `new User({...})`, each possibly absent. */
  datatype UserFields = UserFields(
    name: Option<string>,
    mobileNumber: Option<string>,
    location: Option<string>,
    mpin: Option<string>,
    role: Option<string>)

  /** Document validation at `save()` for a fresh `_id` and clock reading
      `now`: every required string present and non-empty, the role absent or
      one of the enum values; an absent role becomes "User". */
  function NewUser(f: UserFields, id: string, now: int): (r: Option<User>)
    ensures r.Some? <==>
      && Truthy(f.name) && Truthy(f.mobileNumber) && Truthy(f.location) && Truthy(f.mpin)
      && (f.role.None? || ParseRole(f.role.value).Some?)
    ensures r.Some? ==>
      && r.value.id == id
      && Some(r.value.name) == f.name
      && Some(r.value.mobileNumber) == f.mobileNumber
      && Some(r.value.location) == f.location
      && Some(r.value.mpin) == f.mpin
      && (f.role.None? ==> r.value.role == UserRole)
      && (f.role.Some? ==> RoleName(r.value.role) == f.role.value)
      && r.value.createdAt == now && r.value.updatedAt == now
  {
    if !(Truthy(f.name) && Truthy(f.mobileNumber) && Truthy(f.location) && Truthy(f.mpin)) then None
    else
      var role := if f.role.None? then Some(UserRole) else ParseRole(f.role.value);
      if role.None? then None
      else Some(User(id, f.name.value, f.mobileNumber.value, f.location.value, f.mpin.value,
                     role.value, now, now))
  }

  /** A user document without its `mpin`: what login sends back. */
  datatype PublicUser = PublicUser(
    id: string,
    name: string,
    mobileNumber: string,
    location: string,
    role: Role,
    createdAt: int,
    updatedAt: int)

  /** `const { mpin, ...others } = user._doc`. */
  function WithoutMpin(u: User): (p: PublicUser)
    ensures User(p.id, p.name, p.mobileNumber, p.location, u.mpin, p.role, p.createdAt, p.updatedAt) == u
  {
    PublicUser(u.id, u.name, u.mobileNumber, u.location, u.role, u.createdAt, u.updatedAt)
  }

  /** Puts a digest back into a public view. */
  function WithMpin(p: PublicUser, mpin: string): (u: User)
  {
    User(p.id, p.name, p.mobileNumber, p.location, mpin, p.role, p.createdAt, p.updatedAt)
  }

  /** Dropping the digest keeps everything else: the view plus the digest is
      the document again, and two documents share a view exactly when they
      differ at most in their digest. */
  lemma WithoutMpinKeepsTheRest(u: User, v: User)
    ensures WithMpin(WithoutMpin(u), u.mpin) == u
    ensures WithoutMpin(WithMpin(WithoutMpin(u), v.mpin)) == WithoutMpin(u)
    ensures WithoutMpin(u) == WithoutMpin(v) <==> u.(mpin := v.mpin) == v
  {
  }
}
