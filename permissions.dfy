/** The ownership predicates of api/utils/permissions.py, and the way the
    REST framework evaluates a view's permission list: every permission's
    class-level check runs before the handler, and the object-level checks
    run only when a handler fetches a single object. */
module Permissions {
  import opened Rest

  /** The identity a request resolves to. */
  datatype Actor = Anonymous | Authenticated(id: UserId)

  /** `IsObjectOwner.has_object_permission`: the requesting user is the
      object's `user`. An anonymous caller equals no user, and no user
      equals a missing owner. */
  predicate IsObjectOwner(actor: Actor, objUser: Option<UserId>)
    ensures IsObjectOwner(actor, objUser) <==> objUser.Some? && actor == Authenticated(objUser.value)
  {
    actor.Authenticated? && objUser == Some(actor.id)
  }

  /** `IsAccountOwner.has_object_permission`: the requesting user is the
      target account itself. */
  predicate IsAccountOwner(actor: Actor, account: UserId)
    ensures IsAccountOwner(actor, account) <==> actor == Authenticated(account)
  {
    actor.Authenticated? && actor.id == account
  }

  datatype Permission = AllowAny | IsAuthenticated | ObjectOwner | AccountOwner

  /** The object a handler fetched: a task (with its `user` column) or an
      account. */
  datatype Target = TaskObject(user: Option<UserId>) | AccountObject(account: UserId)

  /** Class-level `has_permission`. The two ownership classes inherit the
      default, which allows every request. */
  predicate HasPermission(p: Permission, actor: Actor)
    ensures !HasPermission(p, actor) <==> p == IsAuthenticated && actor.Anonymous?
  {
    match p
    case IsAuthenticated => actor.Authenticated?
    case _ => true
  }

  /** Object-level `has_object_permission`. `AllowAny` and `IsAuthenticated`
      inherit the default, which allows. The viewsets pair `ObjectOwner`
      only with tasks and `AccountOwner` only with accounts; the other
      pairings deny. */
  predicate HasObjectPermission(p: Permission, actor: Actor, obj: Target)
    ensures p == AllowAny || p == IsAuthenticated ==> HasObjectPermission(p, actor, obj)
    ensures p == ObjectOwner ==>
              (HasObjectPermission(p, actor, obj) <==>
               actor.Authenticated? && obj == TaskObject(Some(actor.id)))
    ensures p == AccountOwner ==>
              (HasObjectPermission(p, actor, obj) <==>
               actor.Authenticated? && obj == AccountObject(actor.id))
  {
    match p
    case ObjectOwner => obj.TaskObject? && IsObjectOwner(actor, obj.user)
    case AccountOwner => obj.AccountObject? && IsAccountOwner(actor, obj.account)
    case _ => true
  }

  /** What the framework raises when a permission fails: "not authenticated"
      when no credential was accepted, "permission denied" otherwise. */
  function Denial(actor: Actor): (e: Error)
    ensures e == NotAuthenticated <==> actor.Anonymous?
    ensures e == PermissionDenied <==> actor.Authenticated?
  {
    if actor.Anonymous? then NotAuthenticated else PermissionDenied
  }

  /** `check_permissions`: the first permission whose class-level check
      fails stops the request. */
  function CheckPermissions(ps: seq<Permission>, actor: Actor): (r: Option<Error>)
    ensures r.None? <==> forall i :: 0 <= i < |ps| ==> HasPermission(ps[i], actor)
    ensures r.Some? ==> r.value == Denial(actor)
  {
    if forall i :: 0 <= i < |ps| ==> HasPermission(ps[i], actor) then None
    else Some(Denial(actor))
  }

  /** `check_object_permissions`, run by `get_object` on the fetched object. */
  function CheckObjectPermissions(ps: seq<Permission>, actor: Actor, obj: Target): (r: Option<Error>)
    ensures r.None? <==> forall i :: 0 <= i < |ps| ==> HasObjectPermission(ps[i], actor, obj)
    ensures r.Some? ==> r.value == Denial(actor)
  {
    if forall i :: 0 <= i < |ps| ==> HasObjectPermission(ps[i], actor, obj) then None
    else Some(Denial(actor))
  }

  /** A request whose method no handler serves: the class-level checks of
      the list still run first, and a request that passes them is refused
      as "method not allowed". */
  function RefuseMethod(ps: seq<Permission>, actor: Actor): (e: Error)
    ensures e == MethodNotAllowed <==> CheckPermissions(ps, actor).None?
    ensures e != MethodNotAllowed ==> e == Denial(actor)
  {
    match CheckPermissions(ps, actor)
    case Some(denied) => denied
    case None => MethodNotAllowed
  }

  /** For distinct users A and B and a task owned by A, the task check
      allows A and denies B and every anonymous caller. */
  lemma ObjectOwnerSeparates(a: UserId, b: UserId)
    requires a != b
    ensures IsObjectOwner(Authenticated(a), Some(a))
    ensures !IsObjectOwner(Authenticated(b), Some(a))
    ensures !IsObjectOwner(Anonymous, Some(a))
    ensures !IsObjectOwner(Authenticated(a), None)
  {
  }

  /** For distinct users A and B, the account check on A's account allows A
      only. */
  lemma AccountOwnerSeparates(a: UserId, b: UserId)
    requires a != b
    ensures IsAccountOwner(Authenticated(a), a)
    ensures !IsAccountOwner(Authenticated(b), a)
    ensures !IsAccountOwner(Anonymous, a)
  {
  }

  /** An object-level permission list that contains the task ownership
      check lets through only the task's owner. */
  lemma OwnerListAllowsOnlyOwner(ps: seq<Permission>, actor: Actor, owner: UserId)
    requires ObjectOwner in ps
    requires CheckObjectPermissions(ps, actor, TaskObject(Some(owner))).None?
    ensures actor == Authenticated(owner)
  {
    var i :| 0 <= i < |ps| && ps[i] == ObjectOwner;
    assert HasObjectPermission(ps[i], actor, TaskObject(Some(owner)));
  }

  /** The account counterpart of `OwnerListAllowsOnlyOwner`. */
  lemma AccountListAllowsOnlyOwner(ps: seq<Permission>, actor: Actor, account: UserId)
    requires AccountOwner in ps
    requires CheckObjectPermissions(ps, actor, AccountObject(account)).None?
    ensures actor == Authenticated(account)
  {
    var i :| 0 <= i < |ps| && ps[i] == AccountOwner;
    assert HasObjectPermission(ps[i], actor, AccountObject(account));
  }
}
