/**
 * The authentication store: the current user, a loading flag, and the one
 * session token the store keeps in the browser's local storage under the key
 * `auth_token`. Each asynchronous operation is one atomic step; where its
 * `try` block may throw is a parameter (`Fault`), so that both the success
 * and the failure path can be specified.
 */
module Auth {
  import opened Wrappers
  import opened Text

  /** The identity record; `roles` is optional in the record type. */
  datatype User = User(id: string, email: string, name: string, roles: Option<seq<string>>)

  const LocalUserId := "123"
  const ExternalUserId := "ext_456"
  const LocalTokenPrefix := "mock_token_"
  const ExternalTokenPrefix := "external_token_"
  const LoginFailed := "Login failed. Please check your credentials."
  const ExternalLoginFailed := "External authentication failed. Please try again."

  /**
   * Where the `try` block of an operation throws, if it does.
   * RequestFails: the awaited (simulated) request rejects, before any field is set.
   * StorageFails: the local-storage call throws (`setItem`/`removeItem` after
   * the user was set; `getItem` at the start of `checkAuth`).
   */
  datatype Fault = NoFault | RequestFails | StorageFails

  /** How a login promise settles: resolved, or rejected with a fixed message. */
  datatype Outcome = Resolved | Rejected(message: string)

  /** The user a credential login builds from the e-mail address; the password plays no part. */
  function LocalUser(email: string): (u: User)
    ensures u.id == LocalUserId && u.email == email && u.roles == Some(["user"])
    ensures IsPrefix(u.name, email) && '@' !in u.name
    ensures |u.name| == |email| || email[|u.name|] == '@'
  {
    User(LocalUserId, email, LocalPart(email), Some(["user"]))
  }

  /** The fixed user of the external-provider login. */
  function ExternalUser(): (u: User)
    ensures u.roles == Some(["user", "external"])
    ensures u.id != LocalUserId
  {
    User(ExternalUserId, "external.user@provider.com", "External User", Some(["user", "external"]))
  }

  /** The placeholder user that session restore sets whenever a token is present. */
  function RestoredUser(): (u: User)
    ensures u.id == LocalUserId && u.email == "test@example.com" && u.name == "test"
    ensures u.roles == Some(["user"])
  {
    User(LocalUserId, "test@example.com", "test", Some(["user"]))
  }

  /** The restored placeholder is exactly what a credential login as test@example.com builds. */
  lemma RestoredUserIsLocalTestUser()
    ensures RestoredUser() == LocalUser("test@example.com")
  {
    LocalPartUnique("test@example.com", "test");
  }

  /** An external login never yields the identity of any credential login. */
  lemma ExternalUserIsNoLocalUser(email: string)
    ensures ExternalUser() != LocalUser(email)
  {
  }

  /** The token a credential login stores: `'mock_token_' + Date.now()`. */
  function LocalToken(now: nat): (t: string)
    ensures IsPrefix(LocalTokenPrefix, t) && !IsPrefix(ExternalTokenPrefix, t)
  {
    var t := LocalTokenPrefix + Decimal(now);
    assert t[0] == 'm' != ExternalTokenPrefix[0];
    t
  }

  /** The token an external login stores: `'external_token_' + Date.now()`. */
  function ExternalToken(now: nat): (t: string)
    ensures IsPrefix(ExternalTokenPrefix, t) && !IsPrefix(LocalTokenPrefix, t)
  {
    var t := ExternalTokenPrefix + Decimal(now);
    assert t[0] == 'e' != LocalTokenPrefix[0];
    t
  }

  /** JavaScript truthiness of `localStorage.getItem(...)`: null and "" are falsy. */
  function IsTruthy(stored: Option<string>): (b: bool)
    ensures b <==> stored != None && stored != Some("")
  {
    stored.Some? && stored.value != ""
  }

  datatype Origin = CredentialLogin | ExternalLogin
  datatype TokenInfo = TokenInfo(origin: Origin, issuedAt: nat)

  /** Reads a stored token as `<prefix><timestamp>`; None for any other string. */
  function ParseToken(t: string): Option<TokenInfo> {
    if IsPrefix(LocalTokenPrefix, t) && |t| > |LocalTokenPrefix| && IsDigits(t[|LocalTokenPrefix|..]) then
      Some(TokenInfo(CredentialLogin, ParseDecimal(t[|LocalTokenPrefix|..])))
    else if IsPrefix(ExternalTokenPrefix, t) && |t| > |ExternalTokenPrefix| && IsDigits(t[|ExternalTokenPrefix|..]) then
      Some(TokenInfo(ExternalLogin, ParseDecimal(t[|ExternalTokenPrefix|..])))
    else
      None
  }

  /** A credential-login token tells its origin and the time it was issued. */
  lemma LocalTokenParses(now: nat)
    ensures ParseToken(LocalToken(now)) == Some(TokenInfo(CredentialLogin, now))
  {
    var t := LocalToken(now);
    assert t[|LocalTokenPrefix|..] == Decimal(now);
    ParseDecimalOfDecimal(now);
  }

  /** An external-login token tells its origin and the time it was issued. */
  lemma ExternalTokenParses(now: nat)
    ensures ParseToken(ExternalToken(now)) == Some(TokenInfo(ExternalLogin, now))
  {
    var t := ExternalToken(now);
    assert t[|ExternalTokenPrefix|..] == Decimal(now);
    ParseDecimalOfDecimal(now);
  }

  /** Every token either login stores is truthy, so a later session restore sees it. */
  lemma StoredTokensAreTruthy(now: nat)
    ensures IsTruthy(Some(LocalToken(now))) && IsTruthy(Some(ExternalToken(now)))
  {
  }

  class AuthStore {
    var user: Option<User>
    var isLoading: bool
    /** The `auth_token` entry of local storage; None when the key is absent. */
    var token: Option<string>

    /** A new store starts signed out and idle; local storage keeps whatever a previous page left. */
    constructor (storedToken: Option<string>)
      ensures user == None && !isLoading && token == storedToken
    {
      user := None;
      isLoading := false;
      token := storedToken;
    }

    /** Authenticated exactly when a user is present; computed on each read, never stored. */
    function IsAuthenticated(): (b: bool)
      reads this
      ensures b <==> user != None
    {
      user.Some?
    }

    method SetLoading(loading: bool)
      modifies this`isLoading
      ensures isLoading == loading
    {
      isLoading := loading;
    }

    method SetUser(u: Option<User>)
      modifies this`user
      ensures user == u
    {
      user := u;
    }

    /** Credential login; the password is accepted and never inspected. */
    method Login(email: string, password: string, now: nat, fault: Fault) returns (outcome: Outcome)
      modifies this
      ensures !isLoading
      ensures user == (if fault == RequestFails then old(user) else Some(LocalUser(email)))
      ensures token == (if fault == NoFault then Some(LocalToken(now)) else old(token))
      ensures outcome == (if fault == NoFault then Resolved else Rejected(LoginFailed))
    {
      SetLoading(true);
      if fault == RequestFails {
        outcome := Rejected(LoginFailed);
      } else {
        SetUser(Some(LocalUser(email)));
        if fault == StorageFails {
          outcome := Rejected(LoginFailed);
        } else {
          token := Some(LocalToken(now));
          outcome := Resolved;
        }
      }
      SetLoading(false);
    }

    /** Login through the (simulated) external provider; takes no credentials. */
    method LoginWithExternalProvider(now: nat, fault: Fault) returns (outcome: Outcome)
      modifies this
      ensures !isLoading
      ensures user == (if fault == RequestFails then old(user) else Some(ExternalUser()))
      ensures token == (if fault == NoFault then Some(ExternalToken(now)) else old(token))
      ensures outcome == (if fault == NoFault then Resolved else Rejected(ExternalLoginFailed))
    {
      SetLoading(true);
      if fault == RequestFails {
        outcome := Rejected(ExternalLoginFailed);
      } else {
        SetUser(Some(ExternalUser()));
        if fault == StorageFails {
          outcome := Rejected(ExternalLoginFailed);
        } else {
          token := Some(ExternalToken(now));
          outcome := Resolved;
        }
      }
      SetLoading(false);
    }

    /** Logout; a failure is swallowed (only logged), so the promise always resolves. */
    method Logout(fault: Fault)
      modifies this
      ensures !isLoading
      ensures user == (if fault == RequestFails then old(user) else None)
      ensures token == (if fault == NoFault then None else old(token))
    {
      SetLoading(true);
      if fault != RequestFails {
        SetUser(None);
        if fault == NoFault {
          token := None;
        }
      }
      SetLoading(false);
    }

    /**
     * Session restore: a truthy stored token brings back the placeholder user.
     * On a failure the token is removed and the user is left as it was; the
     * failure is swallowed.
     */
    method CheckAuth(fault: Fault)
      modifies this
      ensures !isLoading
      ensures user == (if fault == NoFault && IsTruthy(old(token)) then Some(RestoredUser()) else old(user))
      ensures token == (if fault == StorageFails || (fault == RequestFails && IsTruthy(old(token))) then None
                        else old(token))
    {
      SetLoading(true);
      if fault == StorageFails {
        // reading the entry threw; the handler removes it
        token := None;
      } else {
        var stored := token;
        if IsTruthy(stored) {
          if fault == RequestFails {
            token := None;
          } else {
            SetUser(Some(RestoredUser()));
          }
        }
      }
      SetLoading(false);
    }
  }
}
