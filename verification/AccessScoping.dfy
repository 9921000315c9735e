/** Who may see what: one object's effective access, the list filter, and grants
    (accounts/scoping.py, accounts/services/grants.py). */
module AccessScoping {
  import opened Options

  type UserId = nat
  type ResourceId = nat

  datatype Role = Admin | Editor | Viewer

  datatype User = User(id: UserId, role: Role, superuser: bool) {
    predicate IsAdmin() { role.Admin? || superuser }
  }

  datatype Scope = Worker | Tenant | Gateway

  datatype Level = View | Edit

  /** The existing resources: a tenant may have a worker, a gateway has a tenant. */
  datatype Directory = Directory(
    workers: set<ResourceId>,
    tenants: map<ResourceId, Option<ResourceId>>,
    gateways: map<ResourceId, ResourceId>)
  {
    predicate Exists(scope: Scope, id: ResourceId) {
      match scope
      case Worker => id in workers
      case Tenant => id in tenants
      case Gateway => id in gateways
    }

    function WorkerOf(tenant: ResourceId): Option<ResourceId> {
      if tenant in tenants then tenants[tenant] else None
    }
  }

  /** At most one grant per user and resource. */
  type Grants = map<(UserId, Scope, ResourceId), Level>

  // ----- Access to one object -----

  /** The resources a grant may be on for it to reach the object: the object itself and what it belongs to. */
  function Reaching(d: Directory, scope: Scope, id: ResourceId): set<(Scope, ResourceId)> {
    {(scope, id)} +
    match scope
    case Worker => {}
    case Tenant => if d.WorkerOf(id).Some? then {(Scope.Worker, d.WorkerOf(id).value)} else {}
    case Gateway =>
      if id !in d.gateways then {}
      else
        {(Scope.Tenant, d.gateways[id])} +
        if d.WorkerOf(d.gateways[id]).Some? then {(Scope.Worker, d.WorkerOf(d.gateways[id]).value)} else {}
  }

  ghost predicate Gives(grants: Grants, user: User, reaching: set<(Scope, ResourceId)>, level: Level) {
    exists r :: r in reaching && (user.id, r.0, r.1) in grants && grants[(user.id, r.0, r.1)] == level
  }

  /** The access a user has: admins may edit; a viewer may view what a view grant on the tenant itself
      says; an editor has the highest level any reaching grant gives. */
  ghost function Access(d: Directory, grants: Grants, user: User, scope: Scope, id: ResourceId): Option<Level> {
    if user.IsAdmin() then Some(Edit)
    else if user.role.Viewer? then
      if scope.Tenant? && Gives(grants, user, {(scope, id)}, View) then Some(View) else None
    else
      var reaching := Reaching(d, scope, id);
      if Gives(grants, user, reaching, Edit) then Some(Edit)
      else if Gives(grants, user, reaching, View) then Some(View)
      else None
  }

  /** A grant of this level on this very resource. */
  predicate Holds(grants: Grants, user: User, scope: Scope, id: ResourceId, level: Level) {
    (user.id, scope, id) in grants && grants[(user.id, scope, id)] == level
  }

  predicate HoldsOnWorker(d: Directory, grants: Grants, user: User, tenant: ResourceId, level: Level) {
    tenant in d.tenants && d.tenants[tenant].Some? && Holds(grants, user, Scope.Worker, d.tenants[tenant].value, level)
  }

  /** A grant of this level on the resource, or on the tenant or worker it belongs to. */
  predicate HoldsHereOrAbove(d: Directory, grants: Grants, user: User, scope: Scope, id: ResourceId, level: Level) {
    || Holds(grants, user, scope, id, level)
    || (scope.Tenant? && HoldsOnWorker(d, grants, user, id, level))
    || (scope.Gateway? && id in d.gateways &&
        (Holds(grants, user, Scope.Tenant, d.gateways[id], level) || HoldsOnWorker(d, grants, user, d.gateways[id], level)))
  }

  lemma GivesWhatIsHeld(d: Directory, grants: Grants, user: User, scope: Scope, id: ResourceId, level: Level)
    ensures Gives(grants, user, Reaching(d, scope, id), level) <==> HoldsHereOrAbove(d, grants, user, scope, id, level)
  {
    var reaching := Reaching(d, scope, id);
    assert Holds(grants, user, scope, id, level) ==> (scope, id) in reaching;
  }

  /** Who may edit and who may view: edit goes to admins and to editors with an edit grant here or above;
      view to viewers with a view grant on this tenant, and to editors with a view grant but no edit
      grant here or above. */
  lemma AccessLevels(d: Directory, grants: Grants, user: User, scope: Scope, id: ResourceId)
    ensures Access(d, grants, user, scope, id) == Some(Edit) <==>
            user.IsAdmin() || (user.role.Editor? && HoldsHereOrAbove(d, grants, user, scope, id, Edit))
    ensures Access(d, grants, user, scope, id) == Some(View) <==>
            && !user.IsAdmin()
            && (|| (user.role.Viewer? && scope.Tenant? && Holds(grants, user, scope, id, View))
                || (user.role.Editor? && HoldsHereOrAbove(d, grants, user, scope, id, View)
                    && !HoldsHereOrAbove(d, grants, user, scope, id, Edit)))
  {
    GivesWhatIsHeld(d, grants, user, scope, id, View);
    GivesWhatIsHeld(d, grants, user, scope, id, Edit);
  }

  function DirectGrantLevels(grants: Grants, user: User, scope: Scope, id: ResourceId): seq<Level> {
    if (user.id, scope, id) in grants then [grants[(user.id, scope, id)]] else []
  }

  method MaxAccessLevel(levels: seq<Level>) returns (best: Option<Level>)
    ensures best == if Edit in levels then Some(Edit) else if View in levels then Some(View) else None
  {
    if levels == [] {
      return None;
    }
    var top := levels[0];
    for i := 1 to |levels|
      invariant top in levels[..i]
      invariant top.View? ==> Edit !in levels[..i]
    {
      if top.View? && levels[i].Edit? {
        top := levels[i];
      }
    }
    best := Some(top);
  }

  /** The levels listed are exactly those some grant on one of these resources gives. */
  ghost predicate ListsLevels(grants: Grants, user: User, reaching: set<(Scope, ResourceId)>, levels: seq<Level>) {
    forall l :: l in levels <==> Gives(grants, user, reaching, l)
  }

  lemma OneGrant(grants: Grants, user: User, scope: Scope, id: ResourceId)
    ensures ListsLevels(grants, user, {(scope, id)}, DirectGrantLevels(grants, user, scope, id))
  {
  }

  lemma MoreLevels(grants: Grants, user: User, a: set<(Scope, ResourceId)>, b: set<(Scope, ResourceId)>,
                   la: seq<Level>, lb: seq<Level>)
    requires ListsLevels(grants, user, a, la) && ListsLevels(grants, user, b, lb)
    ensures ListsLevels(grants, user, a + b, la + lb)
  {
  }

  /** What the object belongs to, without itself. */
  function Above(d: Directory, scope: Scope, id: ResourceId): set<(Scope, ResourceId)> {
    Reaching(d, scope, id) - {(scope, id)}
  }

  method EditorInheritedLevels(d: Directory, grants: Grants, user: User, scope: Scope, id: ResourceId)
    returns (levels: seq<Level>)
    ensures ListsLevels(grants, user, Above(d, scope, id), levels)
  {
    levels := [];
    ghost var above: set<(Scope, ResourceId)> := {};
    if scope.Tenant? {
      var worker := d.WorkerOf(id);
      if worker.Some? {
        levels := levels + DirectGrantLevels(grants, user, Worker, worker.value);
        OneGrant(grants, user, Worker, worker.value);
        above := {(Scope.Worker, worker.value)};
      }
    } else if scope.Gateway? {
      if id in d.gateways {
        var tenant := d.gateways[id];
        levels := levels + DirectGrantLevels(grants, user, Tenant, tenant);
        OneGrant(grants, user, Tenant, tenant);
        above := {(Scope.Tenant, tenant)};
        var worker := d.WorkerOf(tenant);
        if worker.Some? {
          OneGrant(grants, user, Worker, worker.value);
          MoreLevels(grants, user, above, {(Scope.Worker, worker.value)}, levels,
                     DirectGrantLevels(grants, user, Worker, worker.value));
          levels := levels + DirectGrantLevels(grants, user, Worker, worker.value);
          above := above + {(Scope.Worker, worker.value)};
        }
      }
    }
    assert above == Above(d, scope, id);
  }

  method EffectiveAccess(d: Directory, grants: Grants, user: User, scope: Scope, id: ResourceId)
    returns (access: Option<Level>)
    ensures access == Access(d, grants, user, scope, id)
    ensures access == Some(Edit) <==>
            user.IsAdmin() || (user.role.Editor? && HoldsHereOrAbove(d, grants, user, scope, id, Edit))
    ensures access == Some(View) <==>
            && !user.IsAdmin()
            && (|| (user.role.Viewer? && scope.Tenant? && Holds(grants, user, scope, id, View))
                || (user.role.Editor? && HoldsHereOrAbove(d, grants, user, scope, id, View)
                    && !HoldsHereOrAbove(d, grants, user, scope, id, Edit)))
  {
    AccessLevels(d, grants, user, scope, id);
    if user.IsAdmin() {
      return Some(Edit);
    }
    OneGrant(grants, user, scope, id);
    if user.role.Viewer? {
      if !scope.Tenant? {
        return None;
      }
      var levels := DirectGrantLevels(grants, user, scope, id);
      return if View in levels then Some(View) else None;
    }
    var levels := DirectGrantLevels(grants, user, scope, id);
    var inherited := EditorInheritedLevels(d, grants, user, scope, id);
    MoreLevels(grants, user, {(scope, id)}, Above(d, scope, id), levels, inherited);
    assert {(scope, id)} + Above(d, scope, id) == Reaching(d, scope, id);
    access := MaxAccessLevel(levels + inherited);
  }

  // ----- The list filter -----

  function GrantScopeIds(grants: Grants, user: User, scope: Scope): set<ResourceId> {
    set g | g in grants && g.0 == user.id && g.1 == scope :: g.2
  }

  /** Whether the filter built for a user lets an existing object through. */
  predicate Listed(d: Directory, grants: Grants, user: User, scope: Scope, id: ResourceId)
    requires d.Exists(scope, id)
  {
    if user.IsAdmin() then true
    else if user.role.Viewer? then scope.Tenant? && id in GrantScopeIds(grants, user, Tenant)
    else
      match scope
      case Worker => id in GrantScopeIds(grants, user, Worker)
      case Tenant =>
        || id in GrantScopeIds(grants, user, Tenant)
        || (d.tenants[id].Some? && d.tenants[id].value in GrantScopeIds(grants, user, Worker))
      case Gateway =>
        var tenant := d.gateways[id];
        || id in GrantScopeIds(grants, user, Gateway)
        || tenant in GrantScopeIds(grants, user, Tenant)
        || (d.WorkerOf(tenant).Some? && d.WorkerOf(tenant).value in GrantScopeIds(grants, user, Worker))
  }

  /** The two implementations agree on every existing object, whatever the grants and relations, except
      for one family: a viewer holding an edit grant on a tenant sees it listed but may not open it. */
  lemma ListingAgreesWithAccess(d: Directory, grants: Grants, user: User, scope: Scope, id: ResourceId)
    requires d.Exists(scope, id)
    ensures (Listed(d, grants, user, scope, id) <==> Access(d, grants, user, scope, id).Some?) <==>
            !(!user.IsAdmin() && user.role.Viewer? && scope.Tenant?
              && (user.id, scope, id) in grants && grants[(user.id, scope, id)] == Edit)
  {
  }

  function Rank(access: Option<Level>): nat {
    match access
    case None => 0
    case Some(View) => 1
    case Some(Edit) => 2
  }

  /** An editor's access never drops from a worker to any of its tenants. */
  lemma AccessGrowsFromWorker(d: Directory, grants: Grants, user: User, tenant: ResourceId)
    requires user.IsAdmin() || user.role.Editor?
    requires d.WorkerOf(tenant).Some?
    ensures Rank(Access(d, grants, user, Worker, d.WorkerOf(tenant).value)) <= Rank(Access(d, grants, user, Tenant, tenant))
  {
  }

  /** Nor from a tenant to any of its gateways. */
  lemma AccessGrowsFromTenant(d: Directory, grants: Grants, user: User, gateway: ResourceId)
    requires user.IsAdmin() || user.role.Editor?
    requires gateway in d.gateways
    ensures Rank(Access(d, grants, user, Tenant, d.gateways[gateway])) <= Rank(Access(d, grants, user, Gateway, gateway))
  {
  }

  /** Hence along the whole chain, where there is one. */
  lemma AccessGrowsDownwards(d: Directory, grants: Grants, user: User, gateway: ResourceId)
    requires user.IsAdmin() || user.role.Editor?
    requires gateway in d.gateways
    ensures var tenant := d.gateways[gateway];
            && Rank(Access(d, grants, user, Tenant, tenant)) <= Rank(Access(d, grants, user, Gateway, gateway))
            && (d.WorkerOf(tenant).Some? ==>
                  Rank(Access(d, grants, user, Worker, d.WorkerOf(tenant).value)) <=
                  Rank(Access(d, grants, user, Tenant, tenant)))
  {
    AccessGrowsFromTenant(d, grants, user, gateway);
    if d.WorkerOf(d.gateways[gateway]).Some? { AccessGrowsFromWorker(d, grants, user, d.gateways[gateway]); }
  }

  // ----- Granting -----

  datatype Refusal =
    | OnlyAdminsGrant
    | AdminsNeedNoGrants
    | ViewersTenantOnly
    | ViewersViewOnly
    | InvalidLevel
    | InvalidScope
    | NotFound

  /** A request as it comes in; None for a scope type or level that is none of the known ones. */
  datatype Request = Request(user: User, scope: Option<Scope>, id: ResourceId, level: Option<Level>, issuer: User)

  predicate Grantable(d: Directory, r: Request) {
    && r.issuer.IsAdmin() && !r.user.IsAdmin()
    && r.scope.Some? && r.level.Some? && d.Exists(r.scope.value, r.id)
    && (r.user.role.Viewer? ==> r.scope.value.Tenant? && r.level.value.View?)
  }

  function Granted(grants: Grants, r: Request): Grants
    requires r.scope.Some? && r.level.Some?
  {
    grants[(r.user.id, r.scope.value, r.id) := r.level.value]
  }

  class GrantTable {
    var grants: Grants

    constructor ()
      ensures grants == map[]
    {
      grants := map[];
    }

    method CreateGrant(d: Directory, r: Request) returns (refused: Option<Refusal>)
      modifies this
      ensures refused.None? <==> Grantable(d, r)
      ensures refused.None? ==> grants == Granted(old(grants), r)
      ensures refused.Some? ==> grants == old(grants)
      ensures refused == Some(OnlyAdminsGrant) <==> !r.issuer.IsAdmin()
      ensures refused == Some(AdminsNeedNoGrants) <==> r.issuer.IsAdmin() && r.user.IsAdmin()
      ensures refused == Some(ViewersTenantOnly) <==>
                r.issuer.IsAdmin() && !r.user.IsAdmin() && r.user.role.Viewer? && r.scope != Some(Tenant)
      ensures refused == Some(ViewersViewOnly) <==>
                && r.issuer.IsAdmin() && !r.user.IsAdmin() && r.user.role.Viewer?
                && r.scope == Some(Tenant) && r.level != Some(View)
      ensures refused == Some(InvalidLevel) <==>
                r.issuer.IsAdmin() && !r.user.IsAdmin() && r.user.role.Editor? && r.level.None?
      ensures refused == Some(InvalidScope) <==>
                r.issuer.IsAdmin() && !r.user.IsAdmin() && r.user.role.Editor? && r.level.Some? && r.scope.None?
      ensures refused == Some(NotFound) <==>
                && r.issuer.IsAdmin() && !r.user.IsAdmin() && r.scope.Some? && r.level.Some?
                && (r.user.role.Viewer? ==> r.scope == Some(Tenant) && r.level == Some(View))
                && !(match r.scope.value
                     case Worker => r.id in d.workers
                     case Tenant => r.id in d.tenants
                     case Gateway => r.id in d.gateways)
    {
      if !r.issuer.IsAdmin() {
        return Some(OnlyAdminsGrant);
      }
      if r.user.IsAdmin() {
        return Some(AdminsNeedNoGrants);
      }
      if r.user.role.Viewer? {
        if r.scope != Some(Tenant) {
          return Some(ViewersTenantOnly);
        }
        if r.level != Some(View) {
          return Some(ViewersViewOnly);
        }
      }
      if r.user.role.Editor? && r.level.None? {
        return Some(InvalidLevel);
      }
      if r.scope.None? {
        return Some(InvalidScope);
      }
      if !d.Exists(r.scope.value, r.id) {
        return Some(NotFound);
      }
      grants := grants[(r.user.id, r.scope.value, r.id) := r.level.value];
      refused := None;
    }
  }

  /** Every grant a viewer holds is a view grant on a tenant. */
  ghost predicate ViewersOnlyView(grants: Grants, users: map<UserId, User>) {
    forall g :: g in grants && g.0 in users && users[g.0].role.Viewer? ==> g.1.Tenant? && grants[g].View?
  }

  ghost function GrantAll(d: Directory, rs: seq<Request>): Grants {
    if rs == [] then map[]
    else
      var before := GrantAll(d, rs[..|rs| - 1]);
      if Grantable(d, rs[|rs| - 1]) then Granted(before, rs[|rs| - 1]) else before
  }

  lemma {:induction false} GrantingKeepsViewersOnlyView(d: Directory, users: map<UserId, User>, rs: seq<Request>)
    requires forall r :: r in rs ==> r.user.id in users && users[r.user.id] == r.user
    ensures ViewersOnlyView(GrantAll(d, rs), users)
  {
    if rs != [] {
      GrantingKeepsViewersOnlyView(d, users, rs[..|rs| - 1]);
      assert rs[|rs| - 1] in rs;
    }
  }

  /** Whatever is requested, no viewer ever has edit access to anything, and view access exactly
      where the viewer holds a grant at all. */
  lemma ViewersNeverEdit(d: Directory, users: map<UserId, User>, rs: seq<Request>, user: User, scope: Scope, id: ResourceId)
    requires forall r :: r in rs ==> r.user.id in users && users[r.user.id] == r.user
    requires user.id in users && users[user.id] == user && user.role.Viewer? && !user.superuser
    ensures Access(d, GrantAll(d, rs), user, scope, id) != Some(Edit)
    ensures Access(d, GrantAll(d, rs), user, scope, id) == Some(View) <==> (user.id, scope, id) in GrantAll(d, rs)
  {
    GrantingKeepsViewersOnlyView(d, users, rs);
    AccessLevels(d, GrantAll(d, rs), user, scope, id);
  }

  /** So while roles stay as they are, the list filter and the access check agree for everyone. */
  lemma NoDisagreementAfterGranting(d: Directory, users: map<UserId, User>, rs: seq<Request>,
                                    user: User, scope: Scope, id: ResourceId)
    requires forall r :: r in rs ==> r.user.id in users && users[r.user.id] == r.user
    requires user.id in users && users[user.id] == user && d.Exists(scope, id)
    ensures Listed(d, GrantAll(d, rs), user, scope, id) <==> Access(d, GrantAll(d, rs), user, scope, id).Some?
  {
    GrantingKeepsViewersOnlyView(d, users, rs);
    ListingAgreesWithAccess(d, GrantAll(d, rs), user, scope, id);
  }

  /** A role change is all it takes: an editor is granted edit access to tenant 7, then becomes a viewer,
      and now sees the tenant in the list without being allowed to open it. */
  lemma DemotedEditorExample() returns (d: Directory, granted: seq<Request>, user: User)
    ensures |granted| == 1 && Grantable(d, granted[0]) && granted[0].user == user.(role := Editor)
    ensures user.role.Viewer? && d.Exists(Tenant, 7)
    ensures Listed(d, GrantAll(d, granted), user, Tenant, 7)
    ensures Access(d, GrantAll(d, granted), user, Tenant, 7) == None
  {
    d := Directory({}, map[7 := None], map[]);
    user := User(1, Viewer, false);
    var request := Request(User(1, Editor, false), Some(Tenant), 7, Some(Edit), User(0, Admin, false));
    granted := [request];
    assert granted[..0] == [];
    assert GrantAll(d, granted) == map[(1, Scope.Tenant, 7) := Edit];
    ListingAgreesWithAccess(d, GrantAll(d, granted), user, Tenant, 7);
    var g := (1, Scope.Tenant, 7);
    assert g in GrantAll(d, granted) && g.0 == user.id && g.1 == Scope.Tenant && g.2 == 7;
  }
}
