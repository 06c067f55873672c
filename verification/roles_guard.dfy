/** `RolesGuard.canActivate`: the request-boundary role check.  The route's
    required roles (the `roles` metadata, `undefined` when the route declares
    none) and the user attached to the request are passed in directly. */
module RolesGuard {
  import opened Wrappers

  /** The `user` object an earlier token-verification step attached. */
  datatype RequestUser = RequestUser(role: string)

  datatype UnauthorizedException = UnauthorizedException(message: string)

  /** `canActivate` either returns a boolean or throws. */
  datatype Activation = Returns(allowed: bool) | Throws(exception: UnauthorizedException)

  const NoUserMessage := "Access Denied: No user provided."
  const InsufficientRoleMessage := "Access Denied: Insufficient role."

  /** JavaScript truthiness: `undefined` is falsy, every array (the empty one
      included) is truthy, and `includes` is membership. */
  function CanActivate(requiredRoles: Option<seq<string>>, user: Option<RequestUser>): (r: Activation)
    ensures r.Returns? ==> r.allowed
    ensures r.Returns? <==>
      requiredRoles.None? || (user.Some? && user.value.role in requiredRoles.value)
    ensures requiredRoles.Some? && user.None? ==>
      r == Throws(UnauthorizedException(NoUserMessage))
    ensures requiredRoles.Some? && user.Some? && user.value.role !in requiredRoles.value ==>
      r == Throws(UnauthorizedException(InsufficientRoleMessage))
  {
    if requiredRoles.None? then Returns(true)
    else if user.None? then Throws(UnauthorizedException(NoUserMessage))
    else if user.value.role !in requiredRoles.value then Throws(UnauthorizedException(InsufficientRoleMessage))
    else Returns(true)
  }

  /** A route that declares an empty role list is closed to everyone, with
      or without a user. */
  lemma EmptyRoleListDeniesEveryone(user: Option<RequestUser>)
    ensures CanActivate(Some([]), user).Throws?
  {
  }

  /** Adding roles to a route's list never locks out a caller it admitted. */
  lemma MoreRolesAdmitMore(roles: seq<string>, extra: seq<string>, user: Option<RequestUser>)
    ensures CanActivate(Some(roles), user).Returns? ==> CanActivate(Some(roles + extra), user).Returns?
  {
  }
}
