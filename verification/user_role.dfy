/** `useUserRole`: the signed-in user's role and the two role tests. */
module UserRole {
  import opened Wrappers
  import opened JsValues

  /** The user's two metadata objects; the user is absent until sign-in has loaded. */
  datatype User = User(publicMetadata: JsValue, unsafeMetadata: JsValue)

  function PublicRole(user: Option<User>): JsValue {
    if user.Some? then Field(user.value.publicMetadata, "role") else Undefined
  }

  function UnsafeRole(user: Option<User>): JsValue {
    if user.Some? then Field(user.value.unsafeMetadata, "role") else Undefined
  }

  /** `role`: the public role if truthy, else the unsafe role if truthy, else `user`. */
  function Role(user: Option<User>): (r: JsValue)
    ensures Truthy(r)
    ensures Truthy(PublicRole(user)) ==> r == PublicRole(user)
    ensures !Truthy(PublicRole(user)) && Truthy(UnsafeRole(user)) ==> r == UnsafeRole(user)
    ensures !Truthy(PublicRole(user)) && !Truthy(UnsafeRole(user)) ==> r == Str("user")
  {
    JsOr(PublicRole(user), JsOr(UnsafeRole(user), Str("user")))
  }

  /** `role === "admin"`. */
  predicate IsAdmin(user: Option<User>) {
    Role(user) == Str("admin")
  }

  /** `role === "user"`. */
  predicate IsUser(user: Option<User>) {
    Role(user) == Str("user")
  }

  /** No user is both an admin and a plain user. */
  lemma NeverBoth(user: Option<User>)
    ensures !(IsAdmin(user) && IsUser(user))
  {
  }

  /** Without any role metadata, or before the user has loaded, the user is a plain user. */
  lemma NoMetadataIsUser(user: Option<User>)
    requires !Truthy(PublicRole(user)) && !Truthy(UnsafeRole(user))
    ensures IsUser(user) && !IsAdmin(user)
  {
  }

  /** A public `admin` role wins whatever the unsafe metadata says. */
  lemma PublicAdminWins(pub: seq<(string, JsValue)>, unsafe: JsValue)
    requires |pub| > 0 && pub[0] == ("role", Str("admin"))
    ensures IsAdmin(Some(User(Obj(pub), unsafe)))
  {
  }

  /** The unsafe metadata decides only when the public role is falsy. */
  lemma UnsafeRoleFallback(pub: JsValue, unsafe: JsValue)
    requires !Truthy(Field(pub, "role"))
    ensures IsAdmin(Some(User(pub, unsafe))) <==> Field(unsafe, "role") == Str("admin")
  {
  }
}
