/** The storage port the cache manager calls. Its matching rules, persistence and
    serialisation are not modelled: what each call answers is given by a `Responses`
    record of total functions of the call's arguments, and every call is appended to
    a ghost log so that the order of calls, and their absence, can be stated. */
module Storage {
  import opened Wrappers
  import opened Msalbase
  import opened CacheItems

  /** The failures the cache manager returns: its own guard errors, and the
      errors of its collaborators, passed on unchanged. */
  datatype Error = PrimaryKeysEmpty(message: string) | External(detail: string)

  datatype CredentialType = Oauth2AccessToken | Oauth2RefreshToken | OidcIdToken

  datatype OperationStatusType = StatusSuccess | StatusFailure

  datatype OperationStatus = OperationStatus(statusType: OperationStatusType)

  /** The arguments of one DeleteCredentials call; the filter is the set of
      credential types the call may delete. */
  datatype DeleteRequest = DeleteRequest(
    correlationId: string,
    homeAccountId: string,
    environment: string,
    realm: string,
    clientId: string,
    familyId: string,
    target: string,
    filter: set<CredentialType>)

  /** One call on the storage port, with its arguments. */
  datatype Call =
    | AccessTokenRead(homeAccountId: string, environments: seq<string>, realm: string,
                      clientId: string, scopes: seq<string>)
    | IdTokenRead(homeAccountId: string, environments: seq<string>, realm: string, clientId: string)
    | AppMetadataRead(environments: seq<string>, clientId: string)
    | RefreshTokenRead(homeAccountId: string, environments: seq<string>, familyId: string,
                       clientId: string)
    | AccountRead(homeAccountId: string, environments: seq<string>, realm: string)
    | AllAccountsRead
    | RefreshTokenWrite(refreshToken: RefreshTokenCacheItem)
    | AccessTokenWrite(accessToken: AccessTokenCacheItem)
    | IdTokenWrite(idToken: IdTokenCacheItem)
    | AccountWrite(account: Account)
    | AppMetadataWrite(appMetadata: AppMetadata)
    | CredentialsDelete(request: DeleteRequest)
  {
    predicate IsWrite() {
      RefreshTokenWrite? || AccessTokenWrite? || IdTokenWrite? || AccountWrite? || AppMetadataWrite?
    }
  }

  /** What the storage answers to each kind of call. */
  datatype Responses = Responses(
    readAccessToken: (string, seq<string>, string, string, seq<string>) -> Option<AccessTokenCacheItem>,
    readIdToken: (string, seq<string>, string, string) -> Option<IdTokenCacheItem>,
    readAppMetadata: (seq<string>, string) -> Option<AppMetadata>,
    readRefreshToken: (string, seq<string>, string, string) -> Option<RefreshTokenCacheItem>,
    readAccount: (string, seq<string>, string) -> Option<Account>,
    allAccounts: seq<Account>,
    writeRefreshToken: RefreshTokenCacheItem -> Option<Error>,
    writeAccessToken: AccessTokenCacheItem -> Option<Error>,
    writeIdToken: IdTokenCacheItem -> Option<Error>,
    writeAccount: Account -> Option<Error>,
    writeAppMetadata: AppMetadata -> Option<Error>,
    deleteCredentials: DeleteRequest -> Result<OperationStatus, Error>)

  /** The error, if any, that the storage answers to a write call (None for other calls). */
  function WriteReply(responses: Responses, call: Call): Option<Error>
  {
    match call
    case RefreshTokenWrite(item) => responses.writeRefreshToken(item)
    case AccessTokenWrite(item) => responses.writeAccessToken(item)
    case IdTokenWrite(item) => responses.writeIdToken(item)
    case AccountWrite(account) => responses.writeAccount(account)
    case AppMetadataWrite(metadata) => responses.writeAppMetadata(metadata)
    case _ => None
  }

  class StorageManager {
    const responses: Responses
    ghost var log: seq<Call>

    constructor (responses: Responses)
      ensures this.responses == responses && log == []
    {
      this.responses := responses;
      log := [];
    }

    method ReadAccessToken(homeAccountId: string, environments: seq<string>, realm: string,
                           clientId: string, scopes: seq<string>) returns (r: Option<AccessTokenCacheItem>)
      modifies this
      ensures log == old(log) + [AccessTokenRead(homeAccountId, environments, realm, clientId, scopes)]
      ensures r == responses.readAccessToken(homeAccountId, environments, realm, clientId, scopes)
    {
      log := log + [AccessTokenRead(homeAccountId, environments, realm, clientId, scopes)];
      r := responses.readAccessToken(homeAccountId, environments, realm, clientId, scopes);
    }

    method ReadIdToken(homeAccountId: string, environments: seq<string>, realm: string,
                       clientId: string) returns (r: Option<IdTokenCacheItem>)
      modifies this
      ensures log == old(log) + [IdTokenRead(homeAccountId, environments, realm, clientId)]
      ensures r == responses.readIdToken(homeAccountId, environments, realm, clientId)
    {
      log := log + [IdTokenRead(homeAccountId, environments, realm, clientId)];
      r := responses.readIdToken(homeAccountId, environments, realm, clientId);
    }

    method ReadAppMetadata(environments: seq<string>, clientId: string) returns (r: Option<AppMetadata>)
      modifies this
      ensures log == old(log) + [AppMetadataRead(environments, clientId)]
      ensures r == responses.readAppMetadata(environments, clientId)
    {
      log := log + [AppMetadataRead(environments, clientId)];
      r := responses.readAppMetadata(environments, clientId);
    }

    method ReadRefreshToken(homeAccountId: string, environments: seq<string>, familyId: string,
                            clientId: string) returns (r: Option<RefreshTokenCacheItem>)
      modifies this
      ensures log == old(log) + [RefreshTokenRead(homeAccountId, environments, familyId, clientId)]
      ensures r == responses.readRefreshToken(homeAccountId, environments, familyId, clientId)
    {
      log := log + [RefreshTokenRead(homeAccountId, environments, familyId, clientId)];
      r := responses.readRefreshToken(homeAccountId, environments, familyId, clientId);
    }

    method ReadAccount(homeAccountId: string, environments: seq<string>, realm: string)
      returns (r: Option<Account>)
      modifies this
      ensures log == old(log) + [AccountRead(homeAccountId, environments, realm)]
      ensures r == responses.readAccount(homeAccountId, environments, realm)
    {
      log := log + [AccountRead(homeAccountId, environments, realm)];
      r := responses.readAccount(homeAccountId, environments, realm);
    }

    method ReadAllAccounts() returns (r: seq<Account>)
      modifies this
      ensures log == old(log) + [AllAccountsRead]
      ensures r == responses.allAccounts
    {
      log := log + [AllAccountsRead];
      r := responses.allAccounts;
    }

    method WriteRefreshToken(item: RefreshTokenCacheItem) returns (err: Option<Error>)
      modifies this
      ensures log == old(log) + [RefreshTokenWrite(item)]
      ensures err == responses.writeRefreshToken(item)
    {
      log := log + [RefreshTokenWrite(item)];
      err := responses.writeRefreshToken(item);
    }

    method WriteAccessToken(item: AccessTokenCacheItem) returns (err: Option<Error>)
      modifies this
      ensures log == old(log) + [AccessTokenWrite(item)]
      ensures err == responses.writeAccessToken(item)
    {
      log := log + [AccessTokenWrite(item)];
      err := responses.writeAccessToken(item);
    }

    method WriteIdToken(item: IdTokenCacheItem) returns (err: Option<Error>)
      modifies this
      ensures log == old(log) + [IdTokenWrite(item)]
      ensures err == responses.writeIdToken(item)
    {
      log := log + [IdTokenWrite(item)];
      err := responses.writeIdToken(item);
    }

    method WriteAccount(account: Account) returns (err: Option<Error>)
      modifies this
      ensures log == old(log) + [AccountWrite(account)]
      ensures err == responses.writeAccount(account)
    {
      log := log + [AccountWrite(account)];
      err := responses.writeAccount(account);
    }

    method WriteAppMetadata(metadata: AppMetadata) returns (err: Option<Error>)
      modifies this
      ensures log == old(log) + [AppMetadataWrite(metadata)]
      ensures err == responses.writeAppMetadata(metadata)
    {
      log := log + [AppMetadataWrite(metadata)];
      err := responses.writeAppMetadata(metadata);
    }

    method DeleteCredentials(request: DeleteRequest) returns (r: Result<OperationStatus, Error>)
      modifies this
      ensures log == old(log) + [CredentialsDelete(request)]
      ensures r == responses.deleteCredentials(request)
    {
      log := log + [CredentialsDelete(request)];
      r := responses.deleteCredentials(request);
    }
  }
}
