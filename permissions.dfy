/**
 * The permission classes of backend/library/project/permissions.py. Each is
 * a yes/no decision over the HTTP method, the requesting user and, for the
 * object-level checks, the user the object belongs to.
 */
module Permissions {
  import opened Python

  /** `request.user`: an account, or Django's AnonymousUser. */
  datatype User = AnonymousUser | Account(id: nat, isStaff: bool)

  /** What the permission classes read from a request. `user` is None only
      when authentication is configured to leave unauthenticated users as
      None instead of AnonymousUser. */
  datatype Request = Request(verb: string, user: Option<User>)

  /** `rest_framework.permissions.SAFE_METHODS` */
  const SafeMethods: set<string> := {"GET", "HEAD", "OPTIONS"}

  /** `owner == request.user`, where `owner` is a foreign key to the user
      model given by its id (None when the column is null). Model instances
      are equal when their pks are; AnonymousUser equals no account; None
      equals only None. */
  predicate SameUser(owner: Option<nat>, user: Option<User>)
  {
    match owner
    case None => user.None?
    case Some(id) => user.Some? && user.value.Account? && user.value.id == id
  }

  /** The request comes from the account with this id: `SameUser` for an
      owner that is not null. */
  predicate IsAccount(user: Option<User>, id: nat)
  {
    SameUser(Some(id), user)
  }

  /** `IsOwnerOrReadOnly.has_object_permission` for an object whose (non-null)
      `user` is account `owner`: reads for everyone, writes for the owner. */
  function OwnerOrReadOnly(request: Request, owner: nat): (allowed: bool)
    ensures request.verb in SafeMethods ==> allowed
    ensures request.verb !in SafeMethods ==> (allowed <==> IsAccount(request.user, owner))
  {
    if request.verb in SafeMethods then true
    else SameUser(Some(owner), request.user)
  }

  /** `IsBookOwnerOrReadOnly.has_object_permission` for a book whose nullable
      `uploaded_by` is `uploader`: reads for everyone, writes for the
      uploader; a book without uploader matches only a request whose user is
      None. */
  function BookOwnerOrReadOnly(request: Request, uploader: Option<nat>): (allowed: bool)
    ensures request.verb in SafeMethods ==> allowed
    ensures request.verb !in SafeMethods && uploader.Some? ==> (allowed <==> IsAccount(request.user, uploader.value))
    ensures request.verb !in SafeMethods && uploader.None? ==> (allowed <==> request.user.None?)
  {
    if request.verb in SafeMethods then true
    else SameUser(uploader, request.user)
  }

  /** `IsProfileOwner.has_object_permission` for a profile of account
      `owner`: only the owner, for every method, reads included. */
  function ProfileOwner(request: Request, owner: nat): (allowed: bool)
    ensures allowed <==> IsAccount(request.user, owner)
  {
    SameUser(Some(owner), request.user)
  }

  /** `IsAdminOrReadOnly.has_permission`: reads for everyone, writes only for
      a present user whose `is_staff` is set (AnonymousUser has it unset). */
  function AdminOrReadOnly(request: Request): (allowed: bool)
    ensures request.verb in SafeMethods ==> allowed
    ensures request.verb !in SafeMethods ==>
      (allowed <==> request.user.Some? && request.user.value.Account? && request.user.value.isStaff)
  {
    if request.verb in SafeMethods then true
    else
      match request.user
      case None => false
      case Some(AnonymousUser) => false
      case Some(Account(_, isStaff)) => isStaff
  }

  /** For every read-only style class, a user allowed to write is allowed to
      read the same object: writes are never granted where reads are refused. */
  lemma WriteImpliesRead(user: Option<User>, write: string, read: string, owner: nat, uploader: Option<nat>)
    requires read in SafeMethods
    ensures OwnerOrReadOnly(Request(write, user), owner) ==> OwnerOrReadOnly(Request(read, user), owner)
    ensures BookOwnerOrReadOnly(Request(write, user), uploader) ==> BookOwnerOrReadOnly(Request(read, user), uploader)
    ensures AdminOrReadOnly(Request(write, user)) ==> AdminOrReadOnly(Request(read, user))
  {
  }

  /** An anonymous user may read but never write through the owner and admin
      classes, and may not even read a profile. */
  lemma AnonymousNeverWrites(verb: string, owner: nat, uploader: Option<nat>)
    requires verb !in SafeMethods
    ensures !OwnerOrReadOnly(Request(verb, Some(AnonymousUser)), owner)
    ensures !BookOwnerOrReadOnly(Request(verb, Some(AnonymousUser)), uploader)
    ensures !AdminOrReadOnly(Request(verb, Some(AnonymousUser)))
    ensures !ProfileOwner(Request("GET", Some(AnonymousUser)), owner)
  {
  }

  /** `IsProfileOwner` ignores the method: a read is decided like a write. */
  lemma ProfileIgnoresMethod(user: Option<User>, verb1: string, verb2: string, owner: nat)
    ensures ProfileOwner(Request(verb1, user), owner) == ProfileOwner(Request(verb2, user), owner)
  {
  }
}
