/**
  The per-request logic of the OAuth authorization-code dance (section 4.1 of RFC 6749) in
  lib/lygneo-client/app.rb. An `App` holds what a request can see and change: the
  resource-server table, the signed-in account with its one access-token slot, and the
  request's memoised pod. The pod's and the libraries' answers are inputs.
 */
module LygneoApp {
  import opened Outcomes
  import opened RubyText
  import opened Records
  import opened Handles
  import opened Routes

  /** How the pod for a host was obtained. */
  datatype Lookup =
    | Found(server: ResourceServer)  // already in the table: no registration
    | Fresh(server: ResourceServer)  // registered now
    | Failed(error: Error)           // registration raised

  /**
    `ResourceServer.where(:host => host).first || ResourceServer.register(host)`: the stored
    record when there is one, otherwise the outcome of registering the host.
   */
  function FindOrRegister(servers: map<Host, ResourceServer>, host: Host, registration: Registration): (r: Lookup)
    requires Keyed(servers)
    ensures r.Found? <==> host in servers
    ensures r.Found? ==> r.server == servers[host]
    ensures r.Fresh? <==> host !in servers && registration.Registered?
    ensures r.Failed? <==> host !in servers && registration.Rejected?
    ensures !r.Failed? ==> r.server.host == host
    ensures r.Fresh? ==> r.server.id == registration.id && r.server.clientId == registration.clientId
                          && r.server.clientSecret == registration.clientSecret
    ensures r.Failed? ==> r.error == RegistrationError(registration.body)
  {
    if host in servers then Found(servers[host])
    else match registration
      case Registered(_, _, _) => Fresh(ServerRecord(host, registration))
      case Rejected(body) => Failed(RegistrationError(body))
  }

  /** The table after a lookup: a fresh registration is stored under its host. */
  function AfterLookup(servers: map<Host, ResourceServer>, l: Lookup): map<Host, ResourceServer> {
    if l.Fresh? then servers[l.server.host := l.server] else servers
  }

  /** The hosts `register` was called with during a lookup. */
  function RegisterLog(host: Host, l: Lookup): seq<Host> {
    if l.Found? then [] else [host]
  }

  /** Once a lookup has found or registered a pod, the next lookup of that host finds it without registering. */
  lemma LookupIsRemembered(servers: map<Host, ResourceServer>, host: Host, registration: Registration, next: Registration)
    requires Keyed(servers)
    requires !FindOrRegister(servers, host, registration).Failed?
    ensures var l := FindOrRegister(servers, host, registration);
            Keyed(AfterLookup(servers, l)) &&
            FindOrRegister(AfterLookup(servers, l), host, next) == Found(l.server)
  {
  }

  /**
    `self.current_user ||= create_account(:lygneo_id => user_json['uid'] + "@" + url)`:
    the signed-in account is kept; only without one is an account created, for the remote uid
    at the pod's host. A nil remote uid makes `+` raise.
   */
  function SignIn(current: Option<Account>, remoteUid: Option<string>, host: string, port: Option<nat>,
                  createAccount: string -> Result<Account, string>): Result<Account, Error>
  {
    if current.Some? then Ok(current.value)
    else if remoteUid.None? then Err(NoMethod("+"))
    else match createAccount(AccountHandle(remoteUid.value, host, port))
      case Ok(account) => Ok(account)
      case Err(message) => Err(Raised(message))
  }

  /** `current_user.create_access_token(...)`: the token built from the grant and the `/me` uid. */
  function NewToken(remoteUid: Option<string>, server: ResourceServer, grant: Grant): AccessToken
  {
    AccessToken(remoteUid, server.id, grant.token, grant.refreshToken, grant.expiresAt)
  }

  /** The token of an optional account, as a list of zero or one tokens. */
  function HeldToken(account: Option<Account>): seq<AccessToken> {
    if account.Some? && account.value.accessToken.Some? then [account.value.accessToken.value] else []
  }

  /** What the callback sent to the token endpoint: the code and the redirect URI. */
  datatype TokenRequest = TokenRequest(code: Option<string>, server: ResourceServer, redirectUri: Url)

  /** The persisted state a request reads and changes (see class App for each part). */
  datatype Store = Store(servers: map<Host, ResourceServer>, registerCalls: seq<Host>,
                         currentUser: Option<Account>, destroyedTokens: seq<AccessToken>)

  /** The callback request: its `lygneo_id`, `code` and `error` parameters and its URL. */
  datatype CallbackRequest = CallbackRequest(lygneoParam: Option<string>, code: Option<string>, error: Option<string>, url: Url)

  /**
    What the outside world answers during a callback: the registration, the token exchange,
    the `/me` uid, the normalized host and port of the authorize URL, the account hook.
   */
  datatype Answers = Answers(registration: Registration, exchange: Result<Grant, string>, me: Result<Option<string>, string>,
                             authorizeHost: string, authorizePort: Option<nat>,
                             createAccount: string -> Result<Account, string>)

  /** A handler's effect: the new store, the response, and the token request sent, if any. */
  datatype Step = Step(store: Store, resp: Response, sent: Option<TokenRequest>)

  /** The handle-to-pod resolution shared by both GET handlers: lookup, then maybe registration. */
  function Resolved(s: Store, host: Host, l: Lookup): Store {
    s.(servers := AfterLookup(s.servers, l), registerCalls := s.registerCalls + RegisterLog(host, l))
  }

  /** `get '/'` as a function of the store and the request. */
  function StartStep(s: Store, lygneoParam: Option<string>, request: Url, back: string, rails: bool,
                     registration: Registration, baseParams: map<string, string>, escape: string -> string): Step
    requires Keyed(s.servers)
  {
    match LygneoId(lygneoParam)
    case Err(e) => Step(s, Rescue(back, Message(e), rails, escape), None)
    case Ok(handle) =>
      var l := FindOrRegister(s.servers, PodHost(handle), registration);
      var resp := if l.Failed? then Rescue(back, Message(l.error), rails, escape)
                  else Redirect(Authorize(l.server, AuthorizeParams(baseParams, RedirectUri(request, handle), Uid(handle))), None);
      Step(Resolved(s, PodHost(handle), l), resp, None)
  }

  /** The successful callback past the pod lookup: exchange, profile, sign-in, token replacement. */
  function Authorized(s: Store, server: ResourceServer, answers: Answers): (r: (Store, Response))
    ensures r.0.servers == s.servers && r.0.registerCalls == s.registerCalls
    ensures !r.1.Redirect? ==> r.0 == s
    ensures r.1.Redirect? ==> r.1 == Redirect(To(AfterOauthRedirectPath), None) && answers.exchange.Ok? && answers.me.Ok?
                              && HeldToken(r.0.currentUser) == [NewToken(answers.me.value, server, answers.exchange.value)]
  {
    match answers.exchange
    case Err(m) => (s, Failure(Raised(m)))
    case Ok(grant) =>
      match answers.me
      case Err(m) => (s, Failure(Raised(m)))
      case Ok(remoteUid) =>
        match SignIn(s.currentUser, remoteUid, answers.authorizeHost, answers.authorizePort, answers.createAccount)
        case Err(e) => (s, Failure(e))
        case Ok(account) =>
          (s.(currentUser := Some(account.(accessToken := Some(NewToken(remoteUid, server, grant)))),
              destroyedTokens := s.destroyedTokens + HeldToken(Some(account))),
           Redirect(To(AfterOauthRedirectPath), None))
  }

  /** `get '/callback'` as a function of the store, the request and the answers. */
  function CallbackStep(s: Store, req: CallbackRequest, answers: Answers): Step
    requires Keyed(s.servers)
  {
    if req.error.Some? && req.error.value != InvalidClient then
      Step(s, Redirect(To(AfterOauthRedirectPath), None), None)
    else match LygneoId(req.lygneoParam)
      case Err(err) => Step(s, Failure(err), None)
      case Ok(handle) =>
        var host := PodHost(handle);
        if req.error.Some? then
          var logged := s.(registerCalls := s.registerCalls + [host]);
          if answers.registration.Registered? then
            Step(logged.(servers := s.servers[host := ServerRecord(host, answers.registration)]),
                 Redirect(To(RestartLocation(handle)), None), None)
          else Step(logged, Failure(RegistrationError(answers.registration.body)), None)
        else
          var l := FindOrRegister(s.servers, host, answers.registration);
          var resolved := Resolved(s, host, l);
          if l.Failed? then Step(resolved, Failure(l.error), None)
          else
            var after := Authorized(resolved, l.server, answers);
            Step(after.0, after.1, Some(TokenRequest(req.code, l.server, RedirectUri(req.url, handle))))
  }

  /** `delete '/'` as a function of the store. */
  function RevokeStep(s: Store): Step {
    match s.currentUser
    case None => Step(s, Failure(NoMethod("access_token")), None)
    case Some(user) =>
      match user.accessToken
      case None => Step(s, Failure(NoMethod("destroy")), None)
      case Some(t) =>
        Step(s.(currentUser := Some(user.(accessToken := None)), destroyedTokens := s.destroyedTokens + [t]),
             Redirect(To(AfterOauthRedirectPath), None), None)
  }

  /** Both GET handlers keep the table keyed by host; revocation does not touch it. */
  lemma StartKeepsTableKeyed(s: Store, lygneoParam: Option<string>, request: Url, back: string, rails: bool,
                             registration: Registration, baseParams: map<string, string>, escape: string -> string)
    requires Keyed(s.servers)
    ensures Keyed(StartStep(s, lygneoParam, request, back, rails, registration, baseParams, escape).store.servers)
  {
  }

  lemma CallbackKeepsTableKeyed(s: Store, req: CallbackRequest, answers: Answers)
    requires Keyed(s.servers)
    ensures Keyed(CallbackStep(s, req, answers).store.servers)
  {
    if (req.error.None? || req.error.value == InvalidClient) && LygneoId(req.lygneoParam).Ok? {
      var host := PodHost(LygneoId(req.lygneoParam).value);
      if req.error.None? {
        var l := FindOrRegister(s.servers, host, answers.registration);
        assert Keyed(Resolved(s, host, l).servers);
      }
    }
  }

  /**
    The start handler either sends the browser to the resolved pod's authorize endpoint with
    the callback URI, the scope and the handle's uid, or rescues the exception: a missing
    handle raises NoMethodError on strip, a refused registration raises RegistrationError.
    The rescue goes back to the referring page, under Rails with the whole message as a flash
    alert, otherwise with `?lygneo-client-error=` and the escaped message cut to 801
    characters. `register` is called only for a host the table does not hold, and accounts
    and tokens are never touched.
   */
  lemma StartRedirectsOrRescues(s: Store, lygneoParam: Option<string>, request: Url, back: string, rails: bool,
                                registration: Registration, baseParams: map<string, string>, escape: string -> string)
    requires Keyed(s.servers)
    ensures var st := StartStep(s, lygneoParam, request, back, rails, registration, baseParams, escape);
            && st.store.currentUser == s.currentUser && st.store.destroyedTokens == s.destroyedTokens
            && (!st.resp.location.Authorize? ==>
                  var message := if LygneoId(lygneoParam).Err? then Message(NoMethod("strip"))
                                 else Message(RegistrationError(registration.body));
                  && st.resp == Rescue(back, message, rails, escape)
                  && (rails ==> st.resp == Redirect(To(back), Some(message)))
                  && (!rails ==> st.resp == Redirect(To(back + "?lygneo-client-error=" + escape(ErrorText(message))), None)))
            && (LygneoId(lygneoParam).Err? ==> st.store == s && !st.resp.location.Authorize?)
            && (LygneoId(lygneoParam).Ok? ==>
                  var handle := LygneoId(lygneoParam).value;
                  var host := PodHost(handle);
                  && st.store.registerCalls == s.registerCalls + (if host in s.servers then [] else [host])
                  && (host !in s.servers && registration.Rejected? ==>
                        && st.store.servers == s.servers && !st.resp.location.Authorize?)
                  && (host in s.servers || registration.Registered? ==>
                        && st.resp.location.Authorize?
                        && st.resp.alert.None?
                        && st.resp.location.server.host == host
                        && st.store.servers == s.servers[host := st.resp.location.server]
                        && (host in s.servers ==> st.resp.location.server == s.servers[host])
                        && (host !in s.servers ==> st.resp.location.server == ServerRecord(host, registration))
                        && st.resp.location.params["redirect_uri"] == Uri(RedirectUri(request, handle))
                        && st.resp.location.params["scope"] == Text(Scope)
                        && st.resp.location.params["uid"] == (if Uid(handle).Some? then Text(Uid(handle).value) else Nil)))
  {
    if LygneoId(lygneoParam).Ok? {
      var host := PodHost(LygneoId(lygneoParam).value);
      if host in s.servers {
        assert s.servers[host := s.servers[host]] == s.servers;
      }
    }
  }

  /** A callback carrying an error other than invalid_client changes nothing and lands on `/`. */
  lemma OtherErrorChangesNothing(s: Store, req: CallbackRequest, answers: Answers)
    requires Keyed(s.servers)
    requires req.error.Some? && req.error.value != InvalidClient
    ensures CallbackStep(s, req, answers) == Step(s, Redirect(To(AfterOauthRedirectPath), None), None)
  {
  }

  /**
    invalid_client registers the handle's host once, whether or not the table knows it, and
    sends the browser back to the start with the same handle; tokens are not touched.
   */
  lemma InvalidClientRegistersAgain(s: Store, req: CallbackRequest, answers: Answers)
    requires Keyed(s.servers)
    requires req.error == Some(InvalidClient) && LygneoId(req.lygneoParam).Ok?
    ensures var handle := LygneoId(req.lygneoParam).value;
            var st := CallbackStep(s, req, answers);
            && st.sent.None?
            && st.store.registerCalls == s.registerCalls + [PodHost(handle)]
            && st.store.currentUser == s.currentUser && st.store.destroyedTokens == s.destroyedTokens
            && (answers.registration.Registered? ==>
                  st.store.servers == s.servers[PodHost(handle) := ServerRecord(PodHost(handle), answers.registration)]
                  && st.resp == Redirect(To(RestartLocation(handle)), None))
            && (answers.registration.Rejected? ==>
                  st.store.servers == s.servers && st.resp == Failure(RegistrationError(answers.registration.body)))
  {
  }

  /**
    A callback that completes (lands on `/` without an error parameter) leaves the signed-in
    account, or the one created for `<remote uid>@<host>[:<port>]` when nobody was signed in,
    holding exactly the new token built from the exchange and `/me`; the token it held before
    has been destroyed. The token request carried the code and the redirect URI.
   */
  lemma CallbackReplacesToken(s: Store, req: CallbackRequest, answers: Answers)
    requires Keyed(s.servers)
    requires req.error.None?
    requires CallbackStep(s, req, answers).resp == Redirect(To(AfterOauthRedirectPath), None)
    ensures var st := CallbackStep(s, req, answers);
            && LygneoId(req.lygneoParam).Ok? && answers.exchange.Ok? && answers.me.Ok? && st.sent.Some?
            && var handle := LygneoId(req.lygneoParam).value;
               var host := PodHost(handle);
               var grant := answers.exchange.value;
               var token := AccessToken(answers.me.value, st.sent.value.server.id, grant.token, grant.refreshToken, grant.expiresAt);
               && st.sent.value == TokenRequest(req.code, st.sent.value.server, RedirectUri(req.url, handle))
               && host in st.store.servers && st.sent.value.server == st.store.servers[host]
               && (host in s.servers ==>
                     && st.sent.value.server == s.servers[host]
                     && st.store.servers == s.servers && st.store.registerCalls == s.registerCalls)
               && (host !in s.servers ==>
                     && st.sent.value.server == ServerRecord(host, answers.registration)
                     && st.store.servers == s.servers[host := st.sent.value.server]
                     && st.store.registerCalls == s.registerCalls + [host])
               && (s.currentUser.Some? ==>
                     && st.store.currentUser == Some(s.currentUser.value.(accessToken := Some(token)))
                     && st.store.destroyedTokens == s.destroyedTokens + HeldToken(s.currentUser))
               && (s.currentUser.None? ==>
                     && answers.me.value.Some?
                     && var created := answers.createAccount(AccountHandle(answers.me.value.value, answers.authorizeHost, answers.authorizePort));
                        && created.Ok?
                        && st.store.currentUser == Some(created.value.(accessToken := Some(token)))
                        && st.store.destroyedTokens == s.destroyedTokens + HeldToken(Some(created.value)))
  {
    var handle := LygneoId(req.lygneoParam).value;
    var l := FindOrRegister(s.servers, PodHost(handle), answers.registration);
    assert !l.Failed?;
  }

  /**
    A callback without an error that gets past the pod lookup but then raises (the token
    exchange, `/me`, a nil remote uid when nobody is signed in, or the account hook) still
    sent the token request, and leaves the account and its token as they were.
   */
  lemma CallbackRaisesKeepsAccount(s: Store, req: CallbackRequest, answers: Answers)
    requires Keyed(s.servers)
    requires req.error.None? && LygneoId(req.lygneoParam).Ok?
    requires !FindOrRegister(s.servers, PodHost(LygneoId(req.lygneoParam).value), answers.registration).Failed?
    ensures var st := CallbackStep(s, req, answers);
            && st.sent.Some?
            && (answers.exchange.Err? ==> st.resp == Failure(Raised(answers.exchange.error)))
            && (answers.exchange.Ok? && answers.me.Err? ==> st.resp == Failure(Raised(answers.me.error)))
            && (answers.exchange.Ok? && answers.me == Ok(None) && s.currentUser.None? ==>
                  st.resp == Failure(NoMethod("+")))
            && (answers.exchange.Ok? && answers.me.Ok? && answers.me.value.Some? && s.currentUser.None? ==>
                  var created := answers.createAccount(AccountHandle(answers.me.value.value, answers.authorizeHost, answers.authorizePort));
                  created.Err? ==> st.resp == Failure(Raised(created.error)))
            && (st.resp.Failure? ==> st.store.currentUser == s.currentUser && st.store.destroyedTokens == s.destroyedTokens)
  {
  }

  /**
    No handler orphans a token: destroyed tokens are only ever appended, and a token the
    signed-in account held is afterwards still held or among the newly destroyed.
   */
  lemma NoOrphanedTokens(s: Store, req: CallbackRequest, answers: Answers)
    requires Keyed(s.servers)
    ensures var st := CallbackStep(s, req, answers).store;
            && s.destroyedTokens <= st.destroyedTokens
            && forall t :: t in HeldToken(s.currentUser) ==>
                 t in HeldToken(st.currentUser) || t in st.destroyedTokens[|s.destroyedTokens|..]
    ensures var st := RevokeStep(s).store;
            && s.destroyedTokens <= st.destroyedTokens
            && forall t :: t in HeldToken(s.currentUser) ==>
                 t in HeldToken(st.currentUser) || t in st.destroyedTokens[|s.destroyedTokens|..]
  {
  }

  /** After a revocation that succeeds, the account holds no token. */
  lemma RevokeEmptiesSlot(s: Store)
    requires RevokeStep(s).resp.Redirect?
    ensures s.currentUser.Some? && s.currentUser.value.accessToken.Some?
    ensures RevokeStep(s).store.currentUser == Some(s.currentUser.value.(accessToken := None))
    ensures RevokeStep(s).store.destroyedTokens == s.destroyedTokens + [s.currentUser.value.accessToken.value]
    ensures RevokeStep(s).resp == Redirect(To(AfterOauthRedirectPath), None)
  {
  }

  class App {
    /** The ResourceServer table, keyed by host. */
    var servers: map<Host, ResourceServer>
    /** Every host `ResourceServer.register` was called with, in order. */
    var registerCalls: seq<Host>
    /** warden's signed-in account, with its access token. */
    var currentUser: Option<Account>
    /** Every access token destroyed, in order. */
    var destroyedTokens: seq<AccessToken>
    /** `@pod`: the pod this request has resolved, if any. */
    var pod: Option<ResourceServer>

    ghost predicate Valid()
      reads this
    {
      Keyed(servers) && (pod.Some? ==> pod.value.host in servers && servers[pod.value.host] == pod.value)
    }

    constructor (servers: map<Host, ResourceServer>, currentUser: Option<Account>)
      requires Keyed(servers)
      ensures Valid()
      ensures this.servers == servers && this.currentUser == currentUser
      ensures registerCalls == [] && destroyedTokens == [] && pod == None
    {
      this.servers := servers;
      this.registerCalls := [];
      this.currentUser := currentUser;
      this.destroyedTokens := [];
      this.pod := None;
    }

    /** A new request: a fresh controller instance with nothing memoised. */
    method BeginRequest()
      requires Valid()
      modifies this`pod
      ensures Valid() && pod == None
    {
      pod := None;
    }

    /** `ResourceServer.register(host)`: store the pod's credentials for host, or raise. */
    method Register(host: Host, registration: Registration) returns (r: Result<ResourceServer, Error>)
      requires Valid() && pod.None?
      modifies this`servers, this`registerCalls
      ensures Valid()
      ensures registerCalls == old(registerCalls) + [host]
      ensures registration.Registered? ==>
        r == Ok(ServerRecord(host, registration)) && servers == old(servers)[host := r.value]
      ensures registration.Rejected? ==>
        r == Err(RegistrationError(registration.body)) && servers == old(servers)
    {
      registerCalls := registerCalls + [host];
      match registration
      case Registered(_, _, _) =>
        r := Ok(ServerRecord(host, registration));
        servers := servers[host := r.value];
      case Rejected(body) =>
        r := Err(RegistrationError(body));
    }

    /**
      `pod`: the memoised pod of this request; on first use, the handle's host is looked up
      and registered only when the table has no record for it.
     */
    method Pod(lygneoParam: Option<string>, registration: Registration) returns (r: Result<ResourceServer, Error>)
      requires Valid()
      modifies this`servers, this`registerCalls, this`pod
      ensures Valid()
      ensures old(pod).Some? ==>
        r == Ok(old(pod).value) && servers == old(servers) && registerCalls == old(registerCalls) && pod == old(pod)
      ensures old(pod).None? && LygneoId(lygneoParam).Err? ==>
        r == Err(LygneoId(lygneoParam).error) && servers == old(servers) && registerCalls == old(registerCalls) && pod == None
      ensures old(pod).None? && LygneoId(lygneoParam).Ok? ==>
        var host := PodHost(LygneoId(lygneoParam).value);
        var l := FindOrRegister(old(servers), host, registration);
        && servers == AfterLookup(old(servers), l)
        && registerCalls == old(registerCalls) + RegisterLog(host, l)
        && (l.Failed? ==> r == Err(l.error) && pod == None)
        && (!l.Failed? ==> r == Ok(l.server) && pod == Some(l.server))
    {
      if pod.Some? {
        return Ok(pod.value);
      }
      var handle := LygneoId(lygneoParam);
      if handle.Err? {
        return Err(handle.error);
      }
      var host := PodHost(handle.value);
      if host in servers {
        r := Ok(servers[host]);
        pod := Some(servers[host]);
      } else {
        r := Register(host, registration);
        if r.Ok? {
          pod := Some(r.value);
        }
      }
    }

    /** The persisted part of the state, as a value. */
    function Snapshot(): Store
      reads this
    {
      Store(servers, registerCalls, currentUser, destroyedTokens)
    }

    /**
      `get '/'`: redirect to the pod's authorize endpoint with the callback URI, the scope and
      the uid; any exception on the way becomes a redirect back with its message.
     */
    method Start(lygneoParam: Option<string>, request: Url, back: string, rails: bool,
                 registration: Registration, baseParams: map<string, string>, escape: string -> string)
      returns (resp: Response)
      requires Valid() && pod.None?
      modifies this`servers, this`registerCalls, this`pod
      ensures Valid()
      ensures Step(Snapshot(), resp, None)
              == StartStep(old(Snapshot()), lygneoParam, request, back, rails, registration, baseParams, escape)
    {
      var server := Pod(lygneoParam, registration);
      match server
      case Err(e) =>
        resp := Rescue(back, Message(e), rails, escape);
      case Ok(s) =>
        var handle := LygneoId(lygneoParam).value;
        resp := Redirect(Authorize(s, AuthorizeParams(baseParams, RedirectUri(request, handle), Uid(handle))), None);
    }

    /**
      `get '/callback'`. Without an error: exchange the code, sign in (creating an account
      only when nobody is signed in), destroy the account's token and give it exactly one new
      one. With `invalid_client`: register the handle's host again and restart. With any other
      error: go to the landing page and change nothing.
     */
    method Callback(req: CallbackRequest, answers: Answers) returns (resp: Response, sent: Option<TokenRequest>)
      requires Valid() && pod.None?
      modifies this`servers, this`registerCalls, this`pod, this`currentUser, this`destroyedTokens
      ensures Valid()
      ensures Step(Snapshot(), resp, sent) == CallbackStep(old(Snapshot()), req, answers)
    {
      sent := None;
      if req.error.None? {
        var server := Pod(req.lygneoParam, answers.registration);
        if server.Err? {
          return Failure(server.error), None;
        }
        var handle := LygneoId(req.lygneoParam).value;
        sent := Some(TokenRequest(req.code, server.value, RedirectUri(req.url, handle)));
        resp := Exchange(answers);
      } else if req.error.value == InvalidClient {
        var handle := LygneoId(req.lygneoParam);
        if handle.Err? {
          return Failure(handle.error), None;
        }
        var registered := Register(PodHost(handle.value), answers.registration);
        if registered.Err? {
          return Failure(registered.error), None;
        }
        resp := Redirect(To(RestartLocation(handle.value)), None);
      } else {
        resp := Redirect(To(AfterOauthRedirectPath), None);
      }
    }

    /**
      The callback once the pod is resolved: the token exchange and `/me` may raise; then the
      account is signed in, its token destroyed and the new one created for the pod.
     */
    method Exchange(answers: Answers) returns (resp: Response)
      requires Valid() && pod.Some?
      modifies this`currentUser, this`destroyedTokens
      ensures Valid()
      ensures (Snapshot(), resp) == Authorized(old(Snapshot()), pod.value, answers)
    {
      if answers.exchange.Err? {
        return Failure(Raised(answers.exchange.error));
      }
      if answers.me.Err? {
        return Failure(Raised(answers.me.error));
      }
      var remoteUid := answers.me.value;
      var account := SignIn(currentUser, remoteUid, answers.authorizeHost, answers.authorizePort, answers.createAccount);
      if account.Err? {
        return Failure(account.error);
      }
      currentUser := Some(account.value);
      var user := account.value;
      if user.accessToken.Some? {
        destroyedTokens := destroyedTokens + [user.accessToken.value];
        user := user.(accessToken := None);
        currentUser := Some(user);
      } else {
        assert destroyedTokens == old(destroyedTokens) + HeldToken(Some(account.value));
      }
      // the second use of `pod` returns the memo
      currentUser := Some(user.(accessToken := Some(NewToken(remoteUid, pod.value, answers.exchange.value))));
      resp := Redirect(To(AfterOauthRedirectPath), None);
    }

    /**
      `delete '/'`: destroy the signed-in account's token and go to the landing page. With
      nobody signed in, or no token, the unguarded call raises NoMethodError.
     */
    method Revoke() returns (resp: Response)
      requires Valid()
      modifies this`currentUser, this`destroyedTokens
      ensures Valid()
      ensures Step(Snapshot(), resp, None) == RevokeStep(old(Snapshot()))
    {
      if currentUser.None? {
        return Failure(NoMethod("access_token"));
      }
      var user := currentUser.value;
      if user.accessToken.None? {
        return Failure(NoMethod("destroy"));
      }
      destroyedTokens := destroyedTokens + [user.accessToken.value];
      currentUser := Some(user.(accessToken := None));
      resp := Redirect(To(AfterOauthRedirectPath), None);
    }
  }
}
