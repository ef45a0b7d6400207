/** The base views of api/views.py: which permission classes each kind of
    view combines, and the client-address lookup of GetIpAddress. */
module ApiViews {
  import opened Results
  import opened Text
  import opened ApiPermissions
  import AccountsModels

  /** The permission classes the views list, from Django REST framework and api/permissions.py. */
  datatype PermissionClass =
    | AllowAny
    | IsAuthenticated
    | IsAuthenticatedOrReadOnly
    | IsTraderOrReadOnly
    | IsOwnerOrReadOnly

  /** `has_permission` of each class; the classes that do not override it allow. */
  function HasPermission(c: PermissionClass, req: Request): bool {
    match c
    case AllowAny => true
    case IsAuthenticated => req.user.Authenticated?
    case IsAuthenticatedOrReadOnly => IsSafe(req.verb) || req.user.Authenticated?
    case IsTraderOrReadOnly => TraderOrReadOnly(req)
    case IsOwnerOrReadOnly => true
  }

  /** `has_object_permission` of each class; the classes that do not override it allow. */
  function HasObjectPermission(c: PermissionClass, req: Request, owner: AccountsModels.UserId): bool {
    match c
    case IsTraderOrReadOnly => TraderOrReadOnlyForObject(req, owner)
    case IsOwnerOrReadOnly => OwnerOrReadOnlyForObject(req, owner)
    case _ => true
  }

  /** A view admits a request when every listed class grants it. */
  function ViewAllows(classes: seq<PermissionClass>, req: Request): (granted: bool)
    ensures granted <==> forall i :: 0 <= i < |classes| ==> HasPermission(classes[i], req)
  {
    if classes == [] then true else HasPermission(classes[0], req) && ViewAllows(classes[1..], req)
  }

  /** An object is reached only after the view check, and then every class must grant it too. */
  function ObjectAllows(classes: seq<PermissionClass>, req: Request, owner: AccountsModels.UserId): (granted: bool)
    ensures granted <==> ViewAllows(classes, req)
                         && forall i :: 0 <= i < |classes| ==> HasObjectPermission(classes[i], req, owner)
  {
    ViewAllows(classes, req) && ObjectChecks(classes, req, owner)
  }

  function ObjectChecks(classes: seq<PermissionClass>, req: Request, owner: AccountsModels.UserId): (granted: bool)
    ensures granted <==> forall i :: 0 <= i < |classes| ==> HasObjectPermission(classes[i], req, owner)
  {
    if classes == [] then true
    else HasObjectPermission(classes[0], req, owner) && ObjectChecks(classes[1..], req, owner)
  }

  /** `ServerModelViewSet` and `ServerAPIView`. */
  const ServerPermissions: seq<PermissionClass> := [IsAuthenticatedOrReadOnly]

  /** `DashboardModelViewSet` and `DashboardAPIView`. */
  const DashboardPermissions: seq<PermissionClass> := [IsAuthenticated, IsTraderOrReadOnly, IsOwnerOrReadOnly]

  /** `PublucModelViewSet`, `PublicServerAPIView` and therefore `GetIpAddress`. */
  const PublicPermissions: seq<PermissionClass> := [AllowAny]

  /** Dashboard views: only signed-in users get in; for other than safe
      methods they must be traders as well. */
  lemma DashboardViewRule(req: Request)
    ensures ViewAllows(DashboardPermissions, req)
            <==> req.user.Authenticated? && (IsSafe(req.verb) || req.user.user.isTrader)
  {
  }

  /** Dashboard objects: any signed-in user may read; writing needs a
      signed-in trader who owns the object. */
  lemma DashboardObjectRule(req: Request, owner: AccountsModels.UserId)
    ensures IsSafe(req.verb) ==> (ObjectAllows(DashboardPermissions, req, owner) <==> req.user.Authenticated?)
    ensures !IsSafe(req.verb) ==>
              (ObjectAllows(DashboardPermissions, req, owner)
               <==> req.user.Authenticated? && req.user.user.isTrader && req.user.user.id == owner)
  {
    var cs := DashboardPermissions;
    assert cs[0] == IsAuthenticated && cs[1] == IsTraderOrReadOnly && cs[2] == IsOwnerOrReadOnly;
  }

  /** Server views: reading is open; anything else needs a signed-in user. */
  lemma ServerViewRule(req: Request, owner: AccountsModels.UserId)
    ensures ViewAllows(ServerPermissions, req) <==> IsSafe(req.verb) || req.user.Authenticated?
    ensures ObjectAllows(ServerPermissions, req, owner) == ViewAllows(ServerPermissions, req)
  {
  }

  /** Public views admit every request. */
  lemma PublicViewRule(req: Request, owner: AccountsModels.UserId)
    ensures ViewAllows(PublicPermissions, req) && ObjectAllows(PublicPermissions, req, owner)
  {
  }

  const ForwardedForKey: string := "HTTP_X_FORWARDED_FOR"
  const RemoteAddrKey: string := "REMOTE_ADDR"

  /** `GetIpAddress.get`: the part of X-Forwarded-For before its first comma
      when the header is present and non-empty, otherwise REMOTE_ADDR (None
      when that is missing too). `meta` is `request.META`. */
  function ClientIp(meta: map<string, string>): (ip: Option<string>)
    ensures ForwardedForKey in meta && meta[ForwardedForKey] != [] ==>
              ip.Some? && |ip.value| <= |meta[ForwardedForKey]| && ',' !in ip.value
              && ip.value == meta[ForwardedForKey][..|ip.value|]
              && (|ip.value| == |meta[ForwardedForKey]| || meta[ForwardedForKey][|ip.value|] == ',')
    ensures (ForwardedForKey !in meta || meta[ForwardedForKey] == []) ==>
              ip == (if RemoteAddrKey in meta then Some(meta[RemoteAddrKey]) else None)
  {
    if ForwardedForKey in meta && meta[ForwardedForKey] != [] then Some(FirstField(meta[ForwardedForKey]))
    else if RemoteAddrKey in meta then Some(meta[RemoteAddrKey])
    else None
  }

  /** A header without a comma is returned whole, spaces included. */
  lemma ClientIpWholeHeader(meta: map<string, string>)
    requires ForwardedForKey in meta && meta[ForwardedForKey] != [] && ',' !in meta[ForwardedForKey]
    ensures ClientIp(meta) == Some(meta[ForwardedForKey])
  {
    var h := meta[ForwardedForKey];
    FirstFieldUnique(h, h);
  }

  /** The header "first, rest" yields "first" for any comma-free first part,
      even when it is empty: ",10.0.0.1" gives "". */
  lemma {:induction false} ClientIpFirstHop(meta: map<string, string>, first: string, rest: string)
    requires ',' !in first
    requires ForwardedForKey in meta && meta[ForwardedForKey] == first + "," + rest
    ensures ClientIp(meta) == Some(first)
  {
    var h := meta[ForwardedForKey];
    FirstFieldUnique(h, first);
  }
}
