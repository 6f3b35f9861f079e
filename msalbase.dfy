/** The request and response shapes the cache manager consumes: the in-flight
    request's parameters, the token-issuance response, and the Account record. */
module Msalbase {
  import opened Wrappers
  import opened Strconv

  /** The authority a request is sent to: its host (the cache "environment"),
      its tenant (the cache "realm") and its kind. */
  datatype AuthorityInfo = AuthorityInfo(host: string, userRealmUriPrefix: string, authorityType: string)

  /** The in-flight request's parameters. Only the home account id is updated in
      place by the cache manager; the other fields are read. */
  class AuthParameters {
    var homeAccountId: string
    const authorityInfo: AuthorityInfo
    const clientId: string
    const scopes: seq<string>

    constructor (homeAccountId: string, authorityInfo: AuthorityInfo, clientId: string, scopes: seq<string>)
      ensures this.homeAccountId == homeAccountId && this.authorityInfo == authorityInfo
      ensures this.clientId == clientId && this.scopes == scopes
    {
      this.homeAccountId := homeAccountId;
      this.authorityInfo := authorityInfo;
      this.clientId := clientId;
      this.scopes := scopes;
    }
  }

  /** The claims of the response's ID token that the cache uses. */
  datatype IdToken = IdToken(rawToken: string, localAccountId: string, preferredUsername: string)

  /** A completed token-issuance response. `homeAccountId` is the value derived from
      the response's client info; timestamps are Unix seconds. */
  datatype TokenResponse = TokenResponse(
    homeAccountId: string,
    accessToken: string,
    refreshToken: string,
    familyId: string,
    idToken: IdToken,
    grantedScopes: seq<string>,
    expiresOn: Int64,
    extExpiresOn: Int64)
  {
    predicate HasAccessToken() {
      accessToken != ""
    }

    predicate HasRefreshToken() {
      refreshToken != ""
    }
  }

  datatype Account = Account(
    homeAccountId: string,
    environment: string,
    realm: string,
    localAccountId: string,
    authorityType: string,
    preferredUsername: string)

  /** The scopes joined by single spaces: the access token's "target". */
  function ConcatenateScopes(scopes: seq<string>): (target: string)
    ensures target == "" <==> |scopes| == 0 || (|scopes| == 1 && scopes[0] == "")
  {
    if |scopes| == 0 then ""
    else if |scopes| == 1 then scopes[0]
    else scopes[0] + " " + ConcatenateScopes(scopes[1..])
  }
}
