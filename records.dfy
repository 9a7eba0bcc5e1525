/**
  The persisted entities the OAuth controller touches and the errors it can raise.
  ResourceServer records are kept in a table keyed by host; an account holds at most one
  access token, in its `access_token` association.
 */
module Records {
  import opened Outcomes

  /** A pod host as Ruby holds it: nil when the handle has no second '@'-separated field. */
  type Host = Option<string>

  /** A registered pod: the client credentials it issued to this application. */
  datatype ResourceServer = ResourceServer(id: nat, host: Host, clientId: string, clientSecret: string)

  /**
    What `ResourceServer.register(host)` did: it stored a new record carrying the credentials
    the pod returned, or it raised RegistrationError with the pod's response body.
   */
  datatype Registration =
    | Registered(id: nat, clientId: string, clientSecret: string)
    | Rejected(body: string)

  /** The record that a successful registration stores for host. */
  function ServerRecord(host: Host, registration: Registration): (r: ResourceServer)
    requires registration.Registered?
  {
    ResourceServer(registration.id, host, registration.clientId, registration.clientSecret)
  }

  /** The resource-server table: each record is filed under its own host. */
  predicate Keyed(servers: map<Host, ResourceServer>) {
    forall h :: h in servers ==> servers[h].host == h
  }

  /** What the token endpoint returned for an authorization code. */
  datatype Grant = Grant(token: string, refreshToken: Option<string>, expiresAt: Option<int>)

  /** An access token row; `uid` is the user's id on the pod, as the `/me` response gave it. */
  datatype AccessToken = AccessToken(
    uid: Option<string>,
    resourceServerId: nat,
    accessToken: string,
    refreshToken: Option<string>,
    expiresAt: Option<int>)

  /** A local account, with the one access token it may hold. */
  datatype Account = Account(id: nat, accessToken: Option<AccessToken>)

  /** The exceptions the controller's steps raise. */
  datatype Error =
    | NoMethod(name: string)          // a method called on nil
    | RegistrationError(body: string) // the pod refused the registration
    | Raised(message: string)         // raised by a library or the account hook

  /** The exception's message, as `e.message` reports it. */
  function Message(e: Error): string {
    match e
    case NoMethod(name) => "undefined method `" + name + "' for nil:NilClass"
    case RegistrationError(body) => body
    case Raised(message) => message
  }
}
