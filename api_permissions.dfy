/** The two custom permission classes of api/permissions.py, as boolean
    functions of the request's method and user and of the object's owner. */
module ApiPermissions {
  import AccountsModels

  /** `request.user`: an anonymous visitor or a signed-in user. */
  datatype RequestUser = Anonymous | Authenticated(user: AccountsModels.User)

  datatype Request = Request(verb: string, user: RequestUser)

  /** Django REST framework's SAFE_METHODS. */
  const SafeMethods: set<string> := {"GET", "HEAD", "OPTIONS"}

  predicate IsSafe(verb: string) {
    verb in SafeMethods
  }

  predicate IsAuthenticatedTrader(u: RequestUser) {
    u.Authenticated? && u.user.isTrader
  }

  /** `IsTraderOrReadOnly.has_permission`. */
  function TraderOrReadOnly(req: Request): (granted: bool)
    ensures IsSafe(req.verb) ==> granted
    ensures req.user.Anonymous? && !IsSafe(req.verb) ==> !granted
  {
    IsSafe(req.verb) || IsAuthenticatedTrader(req.user)
  }

  /** `IsTraderOrReadOnly.has_object_permission`; `owner` is the object's `user`. */
  function TraderOrReadOnlyForObject(req: Request, owner: AccountsModels.UserId): (granted: bool)
    ensures IsSafe(req.verb) ==> granted
  {
    IsSafe(req.verb) || IsAuthenticatedTrader(req.user)
  }

  /** `IsOwnerOrReadOnly.has_object_permission`: `obj.user == request.user`
      compares primary keys. */
  function OwnerOrReadOnlyForObject(req: Request, owner: AccountsModels.UserId): (granted: bool)
    ensures IsSafe(req.verb) ==> granted
  {
    IsSafe(req.verb) || (req.user.Authenticated? && req.user.user.id == owner)
  }

  /** Every safe request is allowed by both classes, whoever asks. */
  lemma SafeMethodsAlwaysAllowed(req: Request, owner: AccountsModels.UserId)
    requires IsSafe(req.verb)
    ensures TraderOrReadOnly(req) && TraderOrReadOnlyForObject(req, owner) && OwnerOrReadOnlyForObject(req, owner)
  {
  }

  /** For any other method, writing needs a signed-in trader. */
  lemma TraderWriteRule(req: Request)
    requires !IsSafe(req.verb)
    ensures TraderOrReadOnly(req) <==> req.user.Authenticated? && req.user.user.isTrader
  {
  }

  /** The object-level answer of IsTraderOrReadOnly is the view-level one: the object plays no part. */
  lemma TraderObjectPermissionIgnoresObject(req: Request, owner: AccountsModels.UserId)
    ensures TraderOrReadOnlyForObject(req, owner) == TraderOrReadOnly(req)
  {
  }

  /** For any other method, writing an object needs its signed-in owner. */
  lemma OwnerWriteRule(req: Request, owner: AccountsModels.UserId)
    requires !IsSafe(req.verb)
    ensures OwnerOrReadOnlyForObject(req, owner) <==> req.user.Authenticated? && req.user.user.id == owner
  {
  }
}
