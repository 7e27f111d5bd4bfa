/** Properties of the CAS callback, the role rule and the cached client. */
module CasLemmas {
  import opened Wrappers
  import opened Cas

  /** The callback got past the ticket, configuration and verification checks. */
  predicate Accepted(config: CasConfig, ticket: Option<string>, verification: Option<Verification>) {
    TicketPresent(ticket) && config.provider.Some? && Verified(verification)
  }

  /** The account the callback finds for the released attributes. */
  function Existing(users: seq<User>, verification: Option<Verification>): Option<User>
    requires verification.Some?
  {
    FindUserByEmail(users, Attribute(verification.value.attributes, MAIL_ATTRIBUTE))
  }

  function ClaimedName(config: CasConfig, verification: Option<Verification>): Option<string>
    requires verification.Some?
  {
    Attribute(verification.value.attributes, config.usernameClaim)
  }

  function ClaimedEmail(config: CasConfig, verification: Option<Verification>): Option<string>
    requires verification.Some?
  {
    Attribute(verification.value.attributes, config.emailClaim)
  }

  /**
   * A known account logs in: its name and email are refreshed from the claims, its
   * role becomes the determined one, nobody else changes and no account is added.
   */
  lemma KnownUserLogin(config: CasConfig, users: seq<User>, ticket: Option<string>, verification: Option<Verification>, newId: string)
    requires UniqueUserIds(users)
    requires Accepted(config, ticket, verification)
    requires Existing(users, verification).Some?
    ensures var user := Existing(users, verification).value;
            var role := GetUserRole(Some(user), |users|, config.defaultUserRole);
            var r := Callback(config, users, ticket, verification, newId);
            var after := ApplyWrites(users, r.value.writes);
            && r.Success? && r.value.userId == user.id
            && |after| == |users|
            && UniqueUserIds(after)
            && forall j :: 0 <= j < |users| ==>
                 after[j] == if users[j].id == user.id
                             then users[j].(name := ClaimedName(config, verification), email := ClaimedEmail(config, verification), role := role)
                             else users[j]
  {
    var user := Existing(users, verification).value;
    var role := GetUserRole(Some(user), |users|, config.defaultUserRole);
    var name, email := ClaimedName(config, verification), ClaimedEmail(config, verification);
    var r := Callback(config, users, ticket, verification, newId);
    var profiled := ApplyWrite(users, ProfileWrite(user.id, name, email));
    ApplyWritesSnoc(users, [], ProfileWrite(user.id, name, email));
    assert ApplyWrites(users, [ProfileWrite(user.id, name, email)]) == profiled;
    if user.role != role {
      assert r.value.writes == [ProfileWrite(user.id, name, email)] + [RoleWrite(user.id, role)];
      ApplyWritesSnoc(users, [ProfileWrite(user.id, name, email)], RoleWrite(user.id, role));
    } else {
      assert r.value.writes == [ProfileWrite(user.id, name, email)];
      forall j | 0 <= j < |users| && users[j].id == user.id
        ensures users[j].role == role
      {
        assert users[j] == user by {
          var i :| 0 <= i < |users| && users[i] == user;
          assert i == j;
        }
      }
    }
  }

  /** The role of a known account is written only when it differs from the determined role. */
  lemma RoleWrittenOnlyWhenItDiffers(config: CasConfig, users: seq<User>, ticket: Option<string>, verification: Option<Verification>, newId: string)
    requires Accepted(config, ticket, verification)
    requires Existing(users, verification).Some?
    ensures var user := Existing(users, verification).value;
            var r := Callback(config, users, ticket, verification, newId);
            && r.Success?
            && ((exists w :: w in r.value.writes && w.RoleWrite?) <==> user.role != GetUserRole(Some(user), |users|, config.defaultUserRole))
            && (forall w :: w in r.value.writes ==> !w.AuthInsert?)
  {
    var user := Existing(users, verification).value;
    var r := Callback(config, users, ticket, verification, newId);
    if user.role != GetUserRole(Some(user), |users|, config.defaultUserRole) {
      assert r.value.writes[1].RoleWrite?;
    }
  }

  /** The account a signup creates. */
  function SignedUp(config: CasConfig, users: seq<User>, verification: Option<Verification>, newId: string): User
    requires verification.Some?
  {
    User(newId, ClaimedName(config, verification), ClaimedEmail(config, verification),
         GetUserRole(None, |users|, config.defaultUserRole))
  }

  /**
   * An unknown user with signup enabled gets exactly one new account, appended to the
   * table, with the claimed name and email and the role for a new user: admin when the
   * table was empty, the default role otherwise.
   */
  lemma NewUserSignup(config: CasConfig, users: seq<User>, ticket: Option<string>, verification: Option<Verification>, newId: string)
    requires Accepted(config, ticket, verification)
    requires Existing(users, verification).None?
    requires config.enableSignup
    ensures var r := Callback(config, users, ticket, verification, newId);
            && r.Success? && r.value.userId == newId
            && ApplyWrites(users, r.value.writes) == users + [SignedUp(config, users, verification, newId)]
    ensures SignedUp(config, users, verification, newId).role == if |users| == 0 then ADMIN_ROLE else config.defaultUserRole
  {
    var created := SignedUp(config, users, verification, newId);
    SignupDecision(config, users, ticket, verification, newId);
    ApplyWritesSnoc(users, [], AuthInsert(created));
    assert [] + [AuthInsert(created)] == [AuthInsert(created)];
  }

  /** The one write of a signup. */
  lemma SignupDecision(config: CasConfig, users: seq<User>, ticket: Option<string>, verification: Option<Verification>, newId: string)
    requires Accepted(config, ticket, verification)
    requires Existing(users, verification).None?
    requires config.enableSignup
    ensures Callback(config, users, ticket, verification, newId)
         == Success(Login(newId, [AuthInsert(SignedUp(config, users, verification, newId))]))
  {
  }

  /** An unknown user with signup disabled is refused and no account is created. */
  lemma NewUserSignupDisabled(config: CasConfig, users: seq<User>, ticket: Option<string>, verification: Option<Verification>, newId: string)
    requires Accepted(config, ticket, verification)
    requires Existing(users, verification).None?
    requires !config.enableSignup
    ensures Callback(config, users, ticket, verification, newId) == Failure(AccessProhibited)
  {
  }

  /**
   * Whoever logs in successfully and is then the only account is an admin: the sole
   * known user is repaired, and the very first account is created as admin.
   */
  lemma SoleUserIsAdmin(config: CasConfig, users: seq<User>, ticket: Option<string>, verification: Option<Verification>, newId: string)
    requires UniqueUserIds(users)
    requires Callback(config, users, ticket, verification, newId).Success?
    requires |ApplyWrites(users, Callback(config, users, ticket, verification, newId).value.writes)| == 1
    ensures var r := Callback(config, users, ticket, verification, newId);
            var after := ApplyWrites(users, r.value.writes);
            after[0].id == r.value.userId && after[0].role == ADMIN_ROLE
  {
    assert Accepted(config, ticket, verification);
    var existing := Existing(users, verification);
    if existing.Some? {
      KnownUserLogin(config, users, ticket, verification, newId);
      assert existing.value == users[0];
    } else {
      NewUserSignup(config, users, ticket, verification, newId);
    }
  }

  /**
   * When the email claim is the `mail` attribute, the account created at the first
   * login is found again at the next one: no second account is made.
   */
  lemma RepeatLoginReusesAccount(config: CasConfig, users: seq<User>, ticket: Option<string>, verification: Option<Verification>, newId: string, laterId: string)
    requires UniqueUserIds(users) && forall u :: u in users ==> u.id != newId
    requires Accepted(config, ticket, verification)
    requires config.enableSignup && config.emailClaim == MAIL_ATTRIBUTE
    requires MAIL_ATTRIBUTE in verification.value.attributes
    requires Existing(users, verification).None?
    ensures var first := Callback(config, users, ticket, verification, newId);
            var after := ApplyWrites(users, first.value.writes);
            var second := Callback(config, after, ticket, verification, laterId);
            && second.Success? && second.value.userId == newId
            && |ApplyWrites(after, second.value.writes)| == |after|
  {
  }

  /**
   * The account is looked up by the `mail` attribute while it is written with the
   * configured email claim: when CAS releases only the claim, and no account has an
   * empty email, every login creates a further account.
   */
  lemma RepeatLoginCreatesAnotherAccount(config: CasConfig, users: seq<User>, ticket: Option<string>, verification: Option<Verification>, newId: string, laterId: string)
    requires Accepted(config, ticket, verification)
    requires config.enableSignup && config.emailClaim != MAIL_ATTRIBUTE
    requires MAIL_ATTRIBUTE !in verification.value.attributes
    requires config.emailClaim in verification.value.attributes
    requires forall u :: u in users ==> u.email.Some?
    ensures var first := Callback(config, users, ticket, verification, newId);
            var after := ApplyWrites(users, first.value.writes);
            var second := Callback(config, after, ticket, verification, laterId);
            && first.Success? && first.value.userId == newId
            && second.Success? && second.value.userId == laterId
            && |ApplyWrites(after, second.value.writes)| == |users| + 2
  {
  }

  /**
   * A login whose attributes lack `mail` is looked up as a missing email: when some
   * account has no email, the callback logs in as such an account, writes only its
   * profile (and perhaps its role) and creates no account.
   */
  lemma MissingMailMatchesAccountWithoutEmail(config: CasConfig, users: seq<User>, ticket: Option<string>, verification: Option<Verification>, newId: string)
    requires Accepted(config, ticket, verification)
    requires MAIL_ATTRIBUTE !in verification.value.attributes
    requires exists u :: u in users && u.email.None?
    ensures var r := Callback(config, users, ticket, verification, newId);
            && r.Success?
            && (exists u :: u in users && u.email.None? && u.id == r.value.userId)
            && |ApplyWrites(users, r.value.writes)| == |users|
  {
    var user := Existing(users, verification).value;
    RoleWrittenOnlyWhenItDiffers(config, users, ticket, verification, newId);
    var r := Callback(config, users, ticket, verification, newId);
    ApplyWritesSnoc(users, [], r.value.writes[0]);
    assert [] + [r.value.writes[0]] == [r.value.writes[0]];
    if |r.value.writes| == 2 {
      assert r.value.writes == [r.value.writes[0]] + [r.value.writes[1]];
      ApplyWritesSnoc(users, [r.value.writes[0]], r.value.writes[1]);
    } else {
      assert r.value.writes == [r.value.writes[0]];
    }
  }

  /** Once created, the client is returned unchanged by every later call, whatever its base URL. */
  lemma ClientIsCreatedOnce(config: CasConfig, cached: Option<CasClient>, firstUrl: string, laterUrl: string)
    ensures var first := ClientFor(config, cached, firstUrl);
            first.Success? ==>
              && ClientFor(config, CachedAfter(first, cached), laterUrl) == first
              && CachedAfter(ClientFor(config, CachedAfter(first, cached), laterUrl), CachedAfter(first, cached)) == CachedAfter(first, cached)
  {
  }

  /** The logout URL and the client refuse exactly the same configurations, with the same error. */
  lemma LogoutAgreesWithClient(config: CasConfig, cached: Option<CasClient>, baseUrl: string, logoutBase: string)
    ensures GetLogoutUrl(config, logoutBase).Failure? <==> ClientFor(config, cached, baseUrl).Failure?
    ensures GetLogoutUrl(config, logoutBase).Failure? ==>
      GetLogoutUrl(config, logoutBase).error == ClientFor(config, cached, baseUrl).error == NotConfigured
  {
  }
}
