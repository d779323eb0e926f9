/**
 * Client code. The authentication scenarios follow how the application drives
 * that store: restore the session at start-up, log in (with credentials or
 * through the external provider), log out. The application never calls the
 * protected-data store, so its scenarios are call sequences a caller could
 * make. Each method works on fresh stores and states what a caller observes.
 */
module Scenarios {
  import opened Wrappers
  import opened Text
  import opened Auth
  import opened Data

  /**
   * A login of either kind followed by a successful logout signs the store
   * out and removes the token, whatever the login left behind.
   */
  method LoginThenLogout(email: string, password: string, external: bool, now: nat,
                         loginFault: Fault, stored: Option<string>)
    returns (signedInAfterLogin: bool, signedInAfterLogout: bool, tokenAfterLogout: Option<string>)
    ensures signedInAfterLogin <==> loginFault != RequestFails
    ensures !signedInAfterLogout && tokenAfterLogout == None
  {
    var auth := new AuthStore(stored);
    var outcome;
    if external {
      outcome := auth.LoginWithExternalProvider(now, loginFault);
    } else {
      outcome := auth.Login(email, password, now, loginFault);
    }
    signedInAfterLogin := auth.IsAuthenticated();
    auth.Logout(NoFault);
    signedInAfterLogout := auth.IsAuthenticated();
    tokenAfterLogout := auth.token;
  }

  /**
   * After a credential login and a page reload, session restore signs the
   * user in again, but as the placeholder user: the same identity as before
   * only when the login was as test@example.com.
   */
  method RestoreAfterReload(email: string, password: string, now: nat, stored: Option<string>)
    returns (restored: Option<User>, sameAsLogin: bool)
    ensures restored == Some(RestoredUser())
    ensures sameAsLogin <==> email == "test@example.com"
  {
    var before := new AuthStore(stored);
    var outcome := before.Login(email, password, now, NoFault);
    StoredTokensAreTruthy(now);
    var after := new AuthStore(before.token);
    after.CheckAuth(NoFault);
    restored := after.user;
    sameAsLogin := restored == before.user;
    RestoredUserIsLocalTestUser();
  }

  /** With no stored token, session restore leaves the store signed out, whatever happens. */
  method FreshStart(fault: Fault) returns (signedIn: bool, token: Option<string>)
    ensures !signedIn && token == None
  {
    var auth := new AuthStore(None);
    auth.CheckAuth(fault);
    signedIn := auth.IsAuthenticated();
    token := auth.token;
  }

  /** Logging in as a@b.com shows the name "a", with any password. */
  method LoginAsAAtB(password: string, now: nat) returns (name: string, roles: Option<seq<string>>)
    ensures name == "a" && roles == Some(["user"])
  {
    var auth := new AuthStore(None);
    var outcome := auth.Login("a@b.com", password, now, NoFault);
    LocalPartUnique("a@b.com", "a");
    name := auth.user.value.name;
    roles := auth.user.value.roles;
  }

  /**
   * A successful fetch with the signed-in user's id and roles, then a failed
   * one, then two clears: the failure keeps
   * the payload and reports the fixed message; clearing discards both, twice
   * the same, and leaves the authentication store alone.
   */
  method FetchFailClear(email: string, password: string,
                        now: nat, offset: nat, later: nat, laterOffset: nat)
    returns (afterFetch: Option<ProtectedDataItem>, afterFailure: Option<ProtectedDataItem>,
             failureMessage: string, afterClear: Option<ProtectedDataItem>, errorAfterClear: string,
             signedInBeforeClear: bool, signedInAfterClear: bool)
    requires offset <= SessionLength && laterOffset <= SessionLength
    ensures afterFetch.Some? && afterFetch.value.userPermissions == ["user"]
    ensures afterFetch.value.userId == LocalUserId
    ensures afterFailure == afterFetch && failureMessage == FetchFailed
    ensures afterClear == None && errorAfterClear == ""
    ensures signedInBeforeClear && signedInAfterClear
  {
    var auth := new AuthStore(None);
    var outcome := auth.Login(email, password, now, NoFault);
    var data := new DataStore();
    data.FetchProtectedData(auth.user.value.id, now, offset, false, auth.user.value.roles.value);
    afterFetch := data.protectedData;
    data.FetchProtectedData(auth.user.value.id, later, laterOffset, true, auth.user.value.roles.value);
    afterFailure := data.protectedData;
    failureMessage := data.error;
    signedInBeforeClear := auth.IsAuthenticated();
    data.ClearData();
    var first := (data.protectedData, data.error);
    data.ClearData();
    assert (data.protectedData, data.error) == first;
    afterClear := data.protectedData;
    errorAfterClear := data.error;
    signedInAfterClear := auth.IsAuthenticated();
  }

  /** Fetching without roles stores an empty permission list. */
  method FetchWithDefaultRoles(userId: string, now: nat, offset: nat) returns (permissions: seq<string>)
    requires offset <= SessionLength
    ensures permissions == []
  {
    var data := new DataStore();
    data.FetchProtectedData(userId, now, offset, false);
    permissions := data.protectedData.value.userPermissions;
  }
}
