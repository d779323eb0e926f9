/**
 * The protected-data store: one slot for the last fetched payload, an error
 * message and a loading flag. Timestamps are integer milliseconds; the
 * random age of the mock login time is an integer offset.
 */
module Data {
  import opened Wrappers

  /** One hour in milliseconds: the session lifetime and the bound on the login time's age. */
  const SessionLength := 3600000
  const SecureData := "This is sensitive information only available to authenticated users"
  const FetchFailed := "Failed to fetch protected data. Please try again."

  datatype SessionInfo = SessionInfo(loginTime: int, expiresAt: int)

  datatype ProtectedDataItem = ProtectedDataItem(
    userId: string,
    timestamp: int,
    secureData: string,
    userPermissions: seq<string>,
    sessionInfo: SessionInfo)

  /**
   * The session record of a payload fetched at `now`. `offset` stands for
   * `now` minus the truncated `now - Math.random() * 3600000`, which lies in
   * [0, SessionLength].
   */
  function MockSession(now: nat, offset: nat): (s: SessionInfo)
    requires offset <= SessionLength
    ensures s.loginTime <= now < s.expiresAt
    ensures now - s.loginTime <= SessionLength
    ensures s.expiresAt == now + SessionLength
  {
    SessionInfo(now - offset, now + SessionLength)
  }

  /** The payload a successful fetch stores: the caller's id and roles echoed, stamped with `now`. */
  function MockPayload(userId: string, userRoles: seq<string>, now: nat, offset: nat): (d: ProtectedDataItem)
    requires offset <= SessionLength
    ensures d.userId == userId && d.userPermissions == userRoles
    ensures d.secureData == SecureData && d.timestamp == now
    ensures d.sessionInfo.loginTime <= d.timestamp < d.sessionInfo.expiresAt
    ensures d.sessionInfo == MockSession(now, offset)
  {
    ProtectedDataItem(userId, now, SecureData, userRoles, MockSession(now, offset))
  }

  class DataStore {
    var protectedData: Option<ProtectedDataItem>
    var isLoading: bool
    var error: string

    constructor ()
      ensures protectedData == None && !isLoading && error == ""
    {
      protectedData := None;
      isLoading := false;
      error := "";
    }

    method SetLoading(loading: bool)
      modifies this`isLoading
      ensures isLoading == loading
    {
      isLoading := loading;
    }

    method SetError(e: string)
      modifies this`error
      ensures error == e
    {
      error := e;
    }

    method SetProtectedData(d: Option<ProtectedDataItem>)
      modifies this`protectedData
      ensures protectedData == d
    {
      protectedData := d;
    }

    /**
     * Fetches the (mock) protected data of `userId`. The store itself does no
     * authentication check. `fail` says whether the awaited request rejects;
     * on failure the previous payload stays and the error is set.
     */
    method FetchProtectedData(userId: string, now: nat, offset: nat, fail: bool, userRoles: seq<string> := [])
      requires offset <= SessionLength
      modifies this
      ensures !isLoading
      ensures fail ==> protectedData == old(protectedData) && error == FetchFailed
      ensures !fail ==> protectedData == Some(MockPayload(userId, userRoles, now, offset)) && error == ""
    {
      SetLoading(true);
      SetError("");
      if fail {
        SetError(FetchFailed);
      } else {
        SetProtectedData(Some(MockPayload(userId, userRoles, now, offset)));
      }
      SetLoading(false);
    }

    /** Discards the payload and the error; the loading flag is left alone. */
    method ClearData()
      modifies this`protectedData, this`error
      ensures protectedData == None && error == ""
      ensures isLoading == old(isLoading)
    {
      protectedData := None;
      error := "";
    }
  }
}
