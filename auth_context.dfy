// Session state and access-control rules of the authentication provider.
module AuthContext {
  import opened Wrappers

  /** The role codes the provider compares `user.role` against. A code it does
      not know is kept as it arrived. */
  datatype Role = CrownAdmin | FranchisorAdmin | FranchiseAdmin | Agent | OtherRole(raw: string)

  function RoleOf(code: string): (r: Role)
    ensures r.OtherRole? ==> r.raw == code
  {
    if code == "CROWN_ADMIN" then CrownAdmin
    else if code == "FRANCHISOR_ADMIN" then FranchisorAdmin
    else if code == "FRANCHISE_ADMIN" then FranchiseAdmin
    else if code == "AGENT" then Agent
    else OtherRole(code)
  }

  function RoleCode(r: Role): string {
    match r
    case CrownAdmin => "CROWN_ADMIN"
    case FranchisorAdmin => "FRANCHISOR_ADMIN"
    case FranchiseAdmin => "FRANCHISE_ADMIN"
    case Agent => "AGENT"
    case OtherRole(raw) => raw
  }

  /** Classifying a role code loses nothing: the code comes back unchanged. */
  lemma RoleCodeOfRole(code: string)
    ensures RoleCode(RoleOf(code)) == code
  {
  }

  /** A known role survives the trip to its code and back; so does an unknown
      code that is not itself one of the known codes. */
  lemma RoleOfRoleCode(r: Role)
    requires r.OtherRole? ==> r.raw !in {"CROWN_ADMIN", "FRANCHISOR_ADMIN", "FRANCHISE_ADMIN", "AGENT"}
    ensures RoleOf(RoleCode(r)) == r
  {
  }

  /** The tenant kinds (`tenant.type`). */
  datatype TenantType = Crown | Franchisor | Franchise | OtherType(raw: string)

  function TenantTypeOf(code: string): (t: TenantType)
    ensures t.OtherType? ==> t.raw == code
  {
    if code == "CROWN" then Crown
    else if code == "FRANCHISOR" then Franchisor
    else if code == "FRANCHISE" then Franchise
    else OtherType(code)
  }

  /** A tenant record. `type` and `childTenants` are optional: the provider
      reads them but not every response carries them. Ids are kept as the
      strings the provider compares them with. */
  datatype Tenant = Tenant(
    id: string,
    name: string,
    slug: string,
    cnpj: string,
    brand: string,
    segment: string,
    kind: Option<string>,
    childTenants: Option<seq<Tenant>>)

  datatype User = User(id: string, name: string, email: string, role: string, tenant: Option<Tenant>)

  /** What the authentication service answers to a successful login, in the
      fields `login` reads. The declared response type carries `access_token`
      and `user` only, so `token` and `tenant` may be missing (`None`). */
  datatype LoginResponse = LoginResponse(token: Option<string>, user: User, tenant: Option<Tenant>)

  /** Something thrown: an `Error` carries a message, anything else does not. */
  datatype Thrown = ErrorValue(message: string) | NonErrorValue

  /** The access levels `getAccessLevel` returns. */
  datatype AccessLevel = CrownLevel | FranchisorLevel | FranchiseLevel | UserLevel

  /** JavaScript truthiness of an optional string: present and not empty. */
  predicate Truthy(s: Option<string>) {
    s.Some? && s.value != ""
  }

  /** `isAuthenticated`: `!!user && !!token`. */
  predicate IsAuthenticated(user: Option<User>, token: Option<string>) {
    user.Some? && Truthy(token)
  }

  /** `hasRole`: the current user's role code is exactly the one asked for. */
  function HasRole(user: Option<User>, role: string): (r: bool)
    ensures r <==> user.Some? && user.value.role == role
    ensures r ==> RoleOf(user.value.role) == RoleOf(role)
  {
    match user
    case None => false
    case Some(u) => u.role == role
  }

  function RoleOfUser(user: Option<User>): Option<Role> {
    match user
    case None => None
    case Some(u) => Some(RoleOf(u.role))
  }

  /** `getAccessLevel`. */
  function GetAccessLevel(user: Option<User>): (level: AccessLevel)
    ensures level == CrownLevel <==> RoleOfUser(user) == Some(CrownAdmin)
    ensures level == FranchisorLevel <==> RoleOfUser(user) == Some(FranchisorAdmin)
    ensures level == FranchiseLevel <==> RoleOfUser(user) == Some(FranchiseAdmin)
    ensures user.None? ==> level == UserLevel
  {
    if user.None? then UserLevel
    else if user.value.role == "CROWN_ADMIN" then CrownLevel
    else if user.value.role == "FRANCHISOR_ADMIN" then FranchisorLevel
    else if user.value.role == "FRANCHISE_ADMIN" then FranchiseLevel
    else UserLevel
  }

  /** `childTenants?.some(child => child.id === tenantId)`. */
  function SomeChildHasId(children: seq<Tenant>, id: string): (r: bool)
    ensures r <==> exists k :: 0 <= k < |children| && children[k].id == id
  {
    if children == [] then false
    else children[0].id == id || SomeChildHasId(children[1..], id)
  }

  function ChildMatches(t: Tenant, id: string): bool {
    match t.childTenants
    case None => false
    case Some(children) => SomeChildHasId(children, id)
  }

  /** `hasAccessToTenant`, written as the provider's chain of early returns. */
  function HasAccessToTenant(user: Option<User>, tenant: Option<Tenant>, tenantId: string): bool {
    if user.None? || tenant.None? then false
    else if user.value.role == "CROWN_ADMIN" then true
    else if user.value.role == "FRANCHISOR_ADMIN" && tenant.value.id == tenantId then true
    else if user.value.role == "FRANCHISOR_ADMIN" && ChildMatches(tenant.value, tenantId) then true
    else tenant.value.id == tenantId
  }

  /** Tenant access, role by role: crown admins reach every tenant, franchisor
      admins their own tenant and its child tenants, everyone else only their
      own tenant; nobody reaches anything without a user and a tenant. */
  lemma TenantAccessRule(user: Option<User>, tenant: Option<Tenant>, tenantId: string)
    ensures HasAccessToTenant(user, tenant, tenantId) <==>
      user.Some? && tenant.Some? &&
      match RoleOf(user.value.role)
      case CrownAdmin => true
      case FranchisorAdmin =>
        tenant.value.id == tenantId ||
        (tenant.value.childTenants.Some? &&
         exists k :: 0 <= k < |tenant.value.childTenants.value| && tenant.value.childTenants.value[k].id == tenantId)
      case _ => tenant.value.id == tenantId
  {
  }

  /** A signed-in user with a tenant always reaches that tenant. */
  lemma OwnTenantReachable(user: User, tenant: Tenant)
    ensures HasAccessToTenant(Some(user), Some(tenant), tenant.id)
  {
  }

  /** Being listed among the child tenants grants access only to franchisor and crown admins. */
  lemma ChildTenantReachable(user: User, tenant: Tenant, k: nat)
    requires tenant.childTenants.Some? && k < |tenant.childTenants.value|
    requires tenant.childTenants.value[k].id != tenant.id
    ensures HasAccessToTenant(Some(user), Some(tenant), tenant.childTenants.value[k].id) <==>
      user.role == "CROWN_ADMIN" || user.role == "FRANCHISOR_ADMIN"
  {
  }

  /** `hasAccessToBrand`. */
  function HasAccessToBrand(user: Option<User>, tenant: Option<Tenant>, brand: string): (r: bool)
    ensures r <==> user.Some? && tenant.Some? && (RoleOf(user.value.role) == CrownAdmin || tenant.value.brand == brand)
  {
    if user.None? || tenant.None? then false
    else if user.value.role == "CROWN_ADMIN" then true
    else tenant.value.brand == brand
  }

  /** `hasAccessToSegment`. */
  function HasAccessToSegment(user: Option<User>, tenant: Option<Tenant>, segment: string): (r: bool)
    ensures r <==> user.Some? && tenant.Some? && (RoleOf(user.value.role) == CrownAdmin || tenant.value.segment == segment)
  {
    if user.None? || tenant.None? then false
    else if user.value.role == "CROWN_ADMIN" then true
    else tenant.value.segment == segment
  }

  /** `canManageTenants`. */
  function CanManageTenants(user: Option<User>): bool {
    user.Some? && user.value.role in ["CROWN_ADMIN", "FRANCHISOR_ADMIN"]
  }

  /** `canManageUsers`. */
  function CanManageUsers(user: Option<User>): bool {
    user.Some? && user.value.role in ["CROWN_ADMIN", "FRANCHISOR_ADMIN", "FRANCHISE_ADMIN"]
  }

  /** `canManageTickets`. */
  function CanManageTickets(user: Option<User>): bool {
    user.Some? && user.value.role in ["CROWN_ADMIN", "FRANCHISOR_ADMIN", "FRANCHISE_ADMIN", "AGENT"]
  }

  /** `canViewReports`. */
  function CanViewReports(user: Option<User>): bool {
    user.Some? && user.value.role in ["CROWN_ADMIN", "FRANCHISOR_ADMIN", "FRANCHISE_ADMIN"]
  }

  /** The capabilities nest, reports go with user management, and nothing is
      allowed without a user. */
  lemma CapabilitiesNest(user: Option<User>)
    ensures CanManageTenants(user) ==> CanManageUsers(user)
    ensures CanManageUsers(user) ==> CanManageTickets(user)
    ensures CanViewReports(user) == CanManageUsers(user)
    ensures user.None? ==> !CanManageTickets(user)
  {
  }

  /** Each capability is a set of access levels, with agents the one role that
      manages tickets on the USER level. */
  lemma CapabilitiesByLevel(user: Option<User>)
    ensures CanManageTenants(user) <==> GetAccessLevel(user) in {CrownLevel, FranchisorLevel}
    ensures CanManageUsers(user) <==> GetAccessLevel(user) != UserLevel
    ensures CanManageTickets(user) <==> GetAccessLevel(user) != UserLevel || RoleOfUser(user) == Some(Agent)
  {
  }

  /** `getBrandName`. */
  function GetBrandName(tenant: Option<Tenant>): (name: string)
    ensures tenant.None? ==> name == ""
    ensures tenant.Some? && tenant.value.kind == Some("CROWN") ==> name == "Crown Company"
    ensures tenant.Some? && tenant.value.kind != Some("CROWN") ==>
      name == if tenant.value.brand != "" then tenant.value.brand else tenant.value.name
  {
    match tenant
    case None => ""
    case Some(t) =>
      if t.kind == Some("CROWN") then "Crown Company"
      else if t.brand != "" then t.brand
      else t.name
  }

  /** A non-crown tenant with a brand is named by its brand, without a brand by its name. */
  lemma BrandNameSources(t: Tenant)
    requires t.kind != Some("CROWN")
    ensures GetBrandName(Some(t)) in {t.brand, t.name}
    ensures GetBrandName(Some(t)) == "" ==> t.brand == "" && t.name == ""
  {
  }

  /** `getTenantTypeLabel`; a tenant without a type gives the empty label. */
  function GetTenantTypeLabel(tenant: Option<Tenant>): string {
    match tenant
    case None => ""
    case Some(t) =>
      match t.kind
      case None => ""
      case Some(code) =>
        match TenantTypeOf(code)
        case Crown => "Crown Company"
        case Franchisor => "Franqueador"
        case Franchise => "Franquia"
        case OtherType(raw) => raw
  }

  const TenantTypeCodes: set<string> := {"CROWN", "FRANCHISOR", "FRANCHISE"}

  /** The type label passes the code through exactly when the code is unknown;
      the three known codes get three different labels. */
  lemma TenantTypeLabelPassThrough(t: Tenant, code: string)
    requires t.kind == Some(code)
    ensures GetTenantTypeLabel(Some(t)) == code <==> code !in TenantTypeCodes
    ensures code in TenantTypeCodes ==>
      GetTenantTypeLabel(Some(t)) in {"Crown Company", "Franqueador", "Franquia"}
  {
  }

  /** `getSegmentLabel`. */
  function GetSegmentLabel(tenant: Option<Tenant>): string {
    match tenant
    case None => ""
    case Some(t) =>
      var s := t.segment;
      if s == "MODA" then "Moda"
      else if s == "FOOD" then "Alimentação"
      else if s == "FARMA" then "Farmácia"
      else if s == "TECH" then "Tecnologia"
      else if s == "BEAUTY" then "Beleza"
      else if s == "SPORT" then "Esporte"
      else if s == "OTHER" then "Outros"
      else s
  }

  const SegmentCodes: set<string> := {"MODA", "FOOD", "FARMA", "TECH", "BEAUTY", "SPORT", "OTHER"}

  /** The segment label passes the code through exactly when the code is unknown,
      and two different known codes never share a label. */
  lemma SegmentLabelPassThrough(t: Tenant, u: Tenant)
    ensures GetSegmentLabel(Some(t)) == t.segment <==> t.segment !in SegmentCodes
    ensures t.segment in SegmentCodes && u.segment in SegmentCodes && t.segment != u.segment ==>
      GetSegmentLabel(Some(t)) != GetSegmentLabel(Some(u))
  {
  }

  /** With no tenant every label getter gives the empty string. */
  lemma LabelsWithoutTenant()
    ensures GetBrandName(None) == "" && GetTenantTypeLabel(None) == "" && GetSegmentLabel(None) == ""
  {
  }

  /** The provider's state: `user`, `tenant`, `token` and `isLoading`. */
  class AuthSession {
    var user: Option<User>
    var tenant: Option<Tenant>
    var token: Option<string>
    var isLoading: bool

    /** The initial state: nobody signed in, loading. */
    constructor ()
      ensures user.None? && tenant.None? && token.None? && isLoading
    {
      user := None;
      tenant := None;
      token := None;
      isLoading := true;
    }

    function Authenticated(): bool
      reads this
    {
      IsAuthenticated(user, token)
    }

    /** `logout`; the service's own logout is outside the model. */
    method Logout()
      modifies this
      ensures user.None? && tenant.None? && token.None?
      ensures isLoading == old(isLoading)
      ensures !Authenticated()
    {
      user := None;
      tenant := None;
      token := None;
    }

    /** `loadUser`: `storedToken` is what the service finds stored and
        `currentUser` what it answers when asked for the current user. */
    method LoadUser(storedToken: Option<string>, currentUser: Result<User, Thrown>)
      modifies this
      ensures !isLoading
      ensures !Truthy(storedToken) ==>
        user == old(user) && tenant == old(tenant) && token == old(token)
      ensures Truthy(storedToken) && currentUser.Failure? ==>
        user.None? && tenant.None? && token.None? && !Authenticated()
      ensures Truthy(storedToken) && currentUser.Success? ==>
        user == Some(currentUser.value) && tenant == currentUser.value.tenant &&
        token == storedToken && Authenticated()
    {
      if Truthy(storedToken) {
        token := storedToken;
        if currentUser.Success? {
          user := Some(currentUser.value);
          tenant := currentUser.value.tenant;
        } else {
          Logout();
        }
      }
      isLoading := false;
    }

    /** `login`: `response` is the service's answer; a failure is rethrown. */
    method Login(response: Result<LoginResponse, Thrown>) returns (outcome: Result<(), Thrown>)
      modifies this
      ensures !isLoading
      ensures response.Success? ==>
        outcome.Success? &&
        token == response.value.token && user == Some(response.value.user) &&
        tenant == response.value.tenant &&
        (Authenticated() <==> Truthy(response.value.token))
      ensures response.Failure? ==>
        outcome == Failure(response.error) &&
        user == old(user) && tenant == old(tenant) && token == old(token)
    {
      isLoading := true;
      if response.Success? {
        var r := response.value;
        token := r.token;
        user := Some(r.user);
        tenant := r.tenant;
        outcome := Success(());
      } else {
        outcome := Failure(response.error);
      }
      isLoading := false;
    }

    /** `updateUser`. */
    method UpdateUser(updated: User)
      modifies this
      ensures user == Some(updated)
      ensures tenant == if updated.tenant.Some? then updated.tenant else old(tenant)
      ensures token == old(token) && isLoading == old(isLoading)
    {
      user := Some(updated);
      if updated.tenant.Some? {
        tenant := updated.tenant;
      }
    }
  }
}
