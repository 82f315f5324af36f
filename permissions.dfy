/**
 * The permission classes the views use and how the REST framework evaluates
 * a list of them: the two defined by the app (recipes/permissions.py), the
 * library's IsAuthenticated and IsAdminUser, and the `|` composition.
 *
 * A permission answers two questions. `HasPermission` is asked of every
 * request; `HasObjectPermission` is asked only when the handler fetches an
 * object, about that object's owner. A class that does not define one of the
 * two inherits the library default, which grants. Neither question sees the
 * view: both depend on the HTTP method, the caller and the object only.
 */
module Permissions {
  import opened Models

  /** The methods a read-only caller may use. */
  const SafeMethods: set<string> := {"GET", "HEAD", "OPTIONS"}

  datatype Permission =
    | IsAuthenticated            // library class
    | IsAdminUser                // library class
    | IsOwner                    // recipes/permissions.py
    | IsAuthenticatedOrReadOnly  // recipes/permissions.py
    | Or(left: Permission, right: Permission)

  /** The request-level question, asked before any object is fetched. */
  function HasPermission(p: Permission, httpMethod: string, user: Principal): bool {
    match p
    case IsAuthenticated => user.IsLoggedIn()
    case IsAdminUser => user.IsStaff()
    case IsOwner => true
    case IsAuthenticatedOrReadOnly => httpMethod in SafeMethods || user.IsLoggedIn()
    case Or(l, r) => HasPermission(l, httpMethod, user) || HasPermission(r, httpMethod, user)
  }

  /**
   * The object-level question, about an object whose `user` is `owner`.
   * An operand of `|` grants the object only if it also grants the request.
   */
  function HasObjectPermission(p: Permission, httpMethod: string, user: Principal, owner: UserId): bool {
    match p
    case IsOwner => user.Is(owner)
    case Or(l, r) =>
      (HasPermission(l, httpMethod, user) && HasObjectPermission(l, httpMethod, user, owner))
      || (HasPermission(r, httpMethod, user) && HasObjectPermission(r, httpMethod, user, owner))
    case _ => true
  }

  /** Every permission of the list grants the request (the framework stops at the first refusal). */
  function AllHavePermission(ps: seq<Permission>, httpMethod: string, user: Principal): bool {
    if ps == [] then true
    else HasPermission(ps[0], httpMethod, user) && AllHavePermission(ps[1..], httpMethod, user)
  }

  /** Every permission of the list grants the object. */
  function AllHaveObjectPermission(ps: seq<Permission>, httpMethod: string, user: Principal, owner: UserId): bool {
    if ps == [] then true
    else HasObjectPermission(ps[0], httpMethod, user, owner) && AllHaveObjectPermission(ps[1..], httpMethod, user, owner)
  }

  /**
   * Whether a request passes a view's permission list: every permission
   * grants the request and, when the handler fetched an object owned by
   * `target.value`, every permission grants that object.
   */
  function Permits(ps: seq<Permission>, httpMethod: string, user: Principal, target: Option<UserId>): bool {
    AllHavePermission(ps, httpMethod, user)
    && (target.Some? ==> AllHaveObjectPermission(ps, httpMethod, user, target.value))
  }

  /** The list evaluation grants exactly when each of its members grants. */
  lemma {:induction false} AllHavePermissionIff(ps: seq<Permission>, httpMethod: string, user: Principal)
    ensures AllHavePermission(ps, httpMethod, user)
        <==> forall i :: 0 <= i < |ps| ==> HasPermission(ps[i], httpMethod, user)
  {
    if ps != [] {
      AllHavePermissionIff(ps[1..], httpMethod, user);
      assert forall i :: 1 <= i < |ps| ==> ps[i] == ps[1..][i - 1];
    }
  }

  /** The same for the object-level question. */
  lemma {:induction false} AllHaveObjectPermissionIff(ps: seq<Permission>, httpMethod: string, user: Principal, owner: UserId)
    ensures AllHaveObjectPermission(ps, httpMethod, user, owner)
        <==> forall i :: 0 <= i < |ps| ==> HasObjectPermission(ps[i], httpMethod, user, owner)
  {
    if ps != [] {
      AllHaveObjectPermissionIff(ps[1..], httpMethod, user, owner);
      assert forall i :: 1 <= i < |ps| ==> ps[i] == ps[1..][i - 1];
    }
  }

  /** A one-permission list asks that permission's two questions. */
  lemma {:induction false} PermitsSingleton(p: Permission, httpMethod: string, user: Principal, target: Option<UserId>)
    ensures Permits([p], httpMethod, user, target)
        <==> HasPermission(p, httpMethod, user)
             && (target.Some? ==> HasObjectPermission(p, httpMethod, user, target.value))
  {
    assert [p][1..] == [];
    assert AllHavePermission([p], httpMethod, user) == HasPermission(p, httpMethod, user);
    if target.Some? {
      assert AllHaveObjectPermission([p], httpMethod, user, target.value)
          == HasObjectPermission(p, httpMethod, user, target.value);
    }
  }

  /** An empty permission list lets every request through. */
  lemma EmptyListPermitsAll(httpMethod: string, user: Principal, target: Option<UserId>)
    ensures Permits([], httpMethod, user, target)
  {
  }

  /** IsOwner grants an object exactly when the caller is the user row that owns it. */
  lemma IsOwnerIff(httpMethod: string, user: Principal, owner: UserId)
    ensures HasPermission(IsOwner, httpMethod, user)
    ensures HasObjectPermission(IsOwner, httpMethod, user, owner) <==> (user.User? && user.id == owner)
  {
  }

  /** Every object has a real user as owner, so an anonymous caller is never granted it by IsOwner. */
  lemma IsOwnerDeniesAnonymous(httpMethod: string, owner: UserId)
    ensures !HasObjectPermission(IsOwner, httpMethod, Anonymous, owner)
  {
  }

  /** IsAuthenticatedOrReadOnly grants every safe request, whoever makes it. */
  lemma ReadOnlyGrantsSafeMethods(httpMethod: string, user: Principal)
    requires httpMethod in SafeMethods
    ensures HasPermission(IsAuthenticatedOrReadOnly, httpMethod, user)
  {
  }

  /** On any other method, IsAuthenticatedOrReadOnly grants exactly the authenticated callers. */
  lemma ReadOnlyUnsafeNeedsAuthentication(httpMethod: string, user: Principal)
    requires httpMethod !in SafeMethods
    ensures HasPermission(IsAuthenticatedOrReadOnly, httpMethod, user) <==> user.User?
  {
  }

  /**
   * `IsOwner | IsAdminUser` lets every request reach the object check, and
   * grants the object to its owner and to staff users, and to nobody else.
   */
  lemma OwnerOrAdminIff(httpMethod: string, user: Principal, owner: UserId)
    ensures HasPermission(Or(IsOwner, IsAdminUser), httpMethod, user)
    ensures HasObjectPermission(Or(IsOwner, IsAdminUser), httpMethod, user, owner)
        <==> (user.Is(owner) || user.IsStaff())
  {
  }
}
