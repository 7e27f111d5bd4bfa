/**
 * CAS single sign-on: the role rule for users who log in through CAS, the
 * callback that turns a verified ticket into a login (updating or creating
 * the account), the lazily created CAS client and the logout URL.
 */
module Cas {
  import opened Wrappers

  const ADMIN_ROLE: string := "admin"

  /** The `base_url` default of `get_or_create_client` and `get_logout_url`. */
  const DEFAULT_BASE_URL: string := "http://localhost:8080"

  /** The attribute the callback looks the account up by. */
  const MAIL_ATTRIBUTE: string := "mail"

  /** `CAS_PROVIDER`: the CAS version and server URL, each possibly missing from the mapping. */
  datatype CasProvider = CasProvider(version: Option<string>, serverUrl: Option<string>)

  /**
   * The configuration the manager reads; `provider` is `None` when `CAS_PROVIDER`
   * is unset or empty (falsy).
   */
  datatype CasConfig = CasConfig(
    provider: Option<CasProvider>,
    defaultUserRole: string,
    enableSignup: bool,
    usernameClaim: string,
    emailClaim: string)

  /** `urljoin(base, reference)`, kept unevaluated. */
  datatype Url = UrlJoin(base: Option<string>, reference: string)

  /** The `CASClient` built from the provider and the service URL. */
  datatype CasClient = CasClient(version: Option<string>, serverUrl: Option<string>, serviceUrl: Url)

  /** The logout URL `f"{casLogoutUrl}?service={serviceUrl}"`. */
  datatype LogoutUrl = LogoutUrl(casLogoutUrl: Url, serviceUrl: Url)

  /** A raised `HTTPException`. */
  datatype HttpError = HttpError(status: int, detail: string)

  const MissingTicket := HttpError(400, "Missing CAS ticket")
  const NotConfigured := HttpError(400, "CAS is not configured")
  const AuthenticationFailed := HttpError(403, "CAS authentication failed")
  const AccessProhibited := HttpError(403, "ACCESS_PROHIBITED")

  /** The attributes CAS releases for a user. */
  type Attributes = map<string, string>

  /** `attrs.get(key)`. */
  function Attribute(attrs: Attributes, key: string): Option<string> {
    if key in attrs then Some(attrs[key]) else None
  }

  /** What `verify_ticket` reports: the CAS user name and the released attributes. */
  datatype Verification = Verification(casUser: string, attributes: Attributes)

  /** The request carries a non-empty `ticket` query parameter. */
  predicate TicketPresent(ticket: Option<string>) {
    ticket.Some? && ticket.value != ""
  }

  /** `verify_ticket` yielded a (truthy) CAS user. */
  predicate Verified(verification: Option<Verification>) {
    verification.Some? && verification.value.casUser != ""
  }

  // ---------------------------------------------------------------------
  // The user table the callback works on
  // ---------------------------------------------------------------------

  /** An account of the web UI. */
  datatype User = User(id: string, name: Option<string>, email: Option<string>, role: string)

  predicate UniqueUserIds(users: seq<User>) {
    forall i, j :: 0 <= i < j < |users| ==> users[i].id != users[j].id
  }

  /** `Users.get_user_by_email`: the first account whose email equals the argument. */
  function FindUserByEmail(users: seq<User>, email: Option<string>): (r: Option<User>)
    ensures r.Some? ==> r.value in users && r.value.email == email
    ensures r.None? <==> forall u :: u in users ==> u.email != email
  {
    if |users| == 0 then None
    else if users[0].email == email then Some(users[0])
    else FindUserByEmail(users[1..], email)
  }

  /** One write to the user table. */
  datatype UserWrite =
    | ProfileWrite(id: string, name: Option<string>, email: Option<string>)  // Users.update_user_by_id
    | RoleWrite(id: string, role: string)                                    // Users.update_user_role_by_id
    | AuthInsert(user: User)                                                 // Auths.insert_new_auth

  /** The user table after one write: updates keep every id in place, an insert appends. */
  function ApplyWrite(users: seq<User>, w: UserWrite): (r: seq<User>)
    ensures w.AuthInsert? ==> r == users + [w.user]
    ensures !w.AuthInsert? ==> |r| == |users| && forall j :: 0 <= j < |r| ==> r[j].id == users[j].id
  {
    match w
    case ProfileWrite(id, name, email) =>
      seq(|users|, j requires 0 <= j < |users| =>
        if users[j].id == id then users[j].(name := name, email := email) else users[j])
    case RoleWrite(id, role) =>
      seq(|users|, j requires 0 <= j < |users| =>
        if users[j].id == id then users[j].(role := role) else users[j])
    case AuthInsert(user) =>
      users + [user]
  }

  /** The user table after a sequence of writes, in order. */
  function ApplyWrites(users: seq<User>, ws: seq<UserWrite>): seq<User>
    decreases |ws|
  {
    if ws == [] then users else ApplyWrites(ApplyWrite(users, ws[0]), ws[1..])
  }

  /** Writing one more is applying it to the table the earlier writes left. */
  lemma {:induction false} ApplyWritesSnoc(users: seq<User>, ws: seq<UserWrite>, w: UserWrite)
    ensures ApplyWrites(users, ws + [w]) == ApplyWrite(ApplyWrites(users, ws), w)
    decreases |ws|
  {
    if ws == [] {
      assert [w][1..] == [];
    } else {
      assert (ws + [w])[1..] == ws[1..] + [w];
      ApplyWritesSnoc(ApplyWrite(users, ws[0]), ws[1..], w);
    }
  }

  // ---------------------------------------------------------------------
  // CASManager
  // ---------------------------------------------------------------------

  /**
   * `get_user_role`: the sole existing user is repaired to admin, the first user
   * ever becomes admin, other new users get the default role and other existing
   * users keep theirs.
   */
  function GetUserRole(user: Option<User>, numUsers: nat, defaultUserRole: string): (role: string)
    ensures user.Some? && numUsers == 1 ==> role == ADMIN_ROLE
    ensures user.None? && numUsers == 0 ==> role == ADMIN_ROLE
    ensures user.None? && numUsers != 0 ==> role == defaultUserRole
    ensures user.Some? && numUsers != 1 ==> role == user.value.role
  {
    if user.Some? && numUsers == 1 then ADMIN_ROLE
    else if user.None? && numUsers == 0 then ADMIN_ROLE
    else if user.None? then defaultUserRole
    else user.value.role
  }

  /**
   * `get_or_create_client`: refused when CAS is not configured; otherwise the cached
   * client, or a new one for `baseUrl` when none is cached yet.
   */
  function ClientFor(config: CasConfig, cached: Option<CasClient>, baseUrl: string): (r: Result<CasClient, HttpError>)
    ensures r.Failure? <==> config.provider.None?
    ensures r.Failure? ==> r.error == NotConfigured
    ensures r.Success? && cached.Some? ==> r.value == cached.value
    ensures r.Success? && cached.None? ==>
      && r.value.version == config.provider.value.version
      && r.value.serverUrl == config.provider.value.serverUrl
      && r.value.serviceUrl == UrlJoin(Some(baseUrl), "/cas/callback")
  {
    if config.provider.None? then Failure(NotConfigured)
    else if cached.Some? then Success(cached.value)
    else
      var p := config.provider.value;
      Success(CasClient(p.version, p.serverUrl, UrlJoin(Some(baseUrl), "/cas/callback")))
  }

  /** The cached client after a call of `get_or_create_client`. */
  function CachedAfter(r: Result<CasClient, HttpError>, cached: Option<CasClient>): Option<CasClient> {
    if r.Success? then Some(r.value) else cached
  }

  /** `get_logout_url`: refused when CAS is not configured, like the client. */
  function GetLogoutUrl(config: CasConfig, baseUrl: string): (r: Result<LogoutUrl, HttpError>)
    ensures r.Failure? <==> config.provider.None?
    ensures r.Failure? ==> r.error == NotConfigured
    ensures r.Success? ==>
      && r.value.casLogoutUrl == UrlJoin(config.provider.value.serverUrl, "./logout")
      && r.value.serviceUrl == UrlJoin(Some(baseUrl), "/auth")
  {
    if config.provider.None? then Failure(NotConfigured)
    else Success(LogoutUrl(UrlJoin(config.provider.value.serverUrl, "./logout"), UrlJoin(Some(baseUrl), "/auth")))
  }

  /** A successful callback: the account logged in and the writes made to the user table. */
  datatype Login = Login(userId: string, writes: seq<UserWrite>)

  /**
   * The decisions of `handle_callback`, with `newId` standing for the id the
   * account table assigns to a new account.
   */
  function Callback(config: CasConfig, users: seq<User>, ticket: Option<string>, verification: Option<Verification>, newId: string)
    : (r: Result<Login, HttpError>)
    ensures !TicketPresent(ticket) ==> r == Failure(MissingTicket)
    ensures TicketPresent(ticket) && config.provider.None? ==> r == Failure(NotConfigured)
    ensures TicketPresent(ticket) && config.provider.Some? && !Verified(verification) ==> r == Failure(AuthenticationFailed)
    ensures TicketPresent(ticket) && config.provider.Some? && Verified(verification) && r.Failure? ==> r.error == AccessProhibited
  {
    if !TicketPresent(ticket) then Failure(MissingTicket)
    else if config.provider.None? then Failure(NotConfigured)
    else if !Verified(verification) then Failure(AuthenticationFailed)
    else
      var attrs := verification.value.attributes;
      var name := Attribute(attrs, config.usernameClaim);
      var email := Attribute(attrs, config.emailClaim);
      match FindUserByEmail(users, Attribute(attrs, MAIL_ATTRIBUTE))
      case Some(user) =>
        var role := GetUserRole(Some(user), |users|, config.defaultUserRole);
        var roleWrites := if user.role != role then [RoleWrite(user.id, role)] else [];
        Success(Login(user.id, [ProfileWrite(user.id, name, email)] + roleWrites))
      case None =>
        if config.enableSignup then
          var role := GetUserRole(None, |users|, config.defaultUserRole);
          Success(Login(newId, [AuthInsert(User(newId, name, email, role))]))
        else
          Failure(AccessProhibited)
  }

  /** `CASManager`: the configuration, the cached client and the user table it writes. */
  class CasManager {
    const config: CasConfig
    var casClient: Option<CasClient>
    var users: seq<User>

    ghost predicate Valid()
      reads this
    {
      UniqueUserIds(users)
    }

    constructor (config: CasConfig, users: seq<User>)
      requires UniqueUserIds(users)
      ensures Valid()
      ensures this.config == config && casClient.None? && this.users == users
    {
      this.config := config;
      casClient := None;
      this.users := users;
    }

    /** `get_or_create_client`. */
    method GetOrCreateClient(baseUrl: string) returns (r: Result<CasClient, HttpError>)
      modifies this`casClient
      ensures r == ClientFor(config, old(casClient), baseUrl)
      ensures casClient == CachedAfter(r, old(casClient))
    {
      if config.provider.None? {
        return Failure(NotConfigured);
      }
      if casClient.None? {
        var provider := config.provider.value;
        casClient := Some(CasClient(provider.version, provider.serverUrl, UrlJoin(Some(baseUrl), "/cas/callback")));
      }
      r := Success(casClient.value);
    }

    /**
     * `handle_callback`, up to the issue of the token: returns the id of the account
     * logged in. `verification` is what `verify_ticket` reports for the ticket, and
     * `newId` the id a new account receives.
     */
    method HandleCallback(ticket: Option<string>, verification: Option<Verification>, newId: string)
      returns (r: Result<string, HttpError>)
      requires Valid()
      requires forall u :: u in users ==> u.id != newId
      modifies this
      ensures Valid()
      ensures Callback(config, old(users), ticket, verification, newId).Failure? ==>
        && r == Failure(Callback(config, old(users), ticket, verification, newId).error)
        && users == old(users)
      ensures Callback(config, old(users), ticket, verification, newId).Success? ==>
        && r == Success(Callback(config, old(users), ticket, verification, newId).value.userId)
        && users == ApplyWrites(old(users), Callback(config, old(users), ticket, verification, newId).value.writes)
      ensures casClient ==
        if TicketPresent(ticket) then CachedAfter(ClientFor(config, old(casClient), DEFAULT_BASE_URL), old(casClient))
        else old(casClient)
    {
      if ticket.None? || ticket.value == "" {
        return Failure(MissingTicket);
      }
      var client := GetOrCreateClient(DEFAULT_BASE_URL);
      if client.Failure? {
        return Failure(client.error);
      }
      if verification.None? || verification.value.casUser == "" {
        return Failure(AuthenticationFailed);
      }
      var attrs := verification.value.attributes;
      var name := Attribute(attrs, config.usernameClaim);
      var email := Attribute(attrs, config.emailClaim);
      ghost var before, writes := users, [];
      var user := FindUserByEmail(users, Attribute(attrs, MAIL_ATTRIBUTE));
      if user.Some? {
        ApplyWritesSnoc(before, writes, ProfileWrite(user.value.id, name, email));
        users, writes := ApplyWrite(users, ProfileWrite(user.value.id, name, email)), writes + [ProfileWrite(user.value.id, name, email)];
      }
      if user.Some? {
        var determinedRole := GetUserRole(user, |users|, config.defaultUserRole);
        if user.value.role != determinedRole {
          ApplyWritesSnoc(before, writes, RoleWrite(user.value.id, determinedRole));
          users, writes := ApplyWrite(users, RoleWrite(user.value.id, determinedRole)), writes + [RoleWrite(user.value.id, determinedRole)];
        }
      }
      if user.None? {
        if config.enableSignup {
          var role := GetUserRole(None, |users|, config.defaultUserRole);
          var created := User(newId, name, email, role);
          ApplyWritesSnoc(before, writes, AuthInsert(created));
          users, writes := ApplyWrite(users, AuthInsert(created)), writes + [AuthInsert(created)];
          user := Some(created);
        } else {
          return Failure(AccessProhibited);
        }
      }
      assert writes == Callback(config, before, ticket, verification, newId).value.writes;
      r := Success(user.value.id);
    }
  }
}
