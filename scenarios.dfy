/**
  Request sequences driven through the controller's contracts alone: what a caller can
  conclude about registration, redirects and tokens without looking at the method bodies.
 */
module Scenarios {
  import opened Outcomes
  import opened RubyText
  import opened Records
  import opened Handles
  import opened Routes
  import opened LygneoApp

  const Home := Url("https", "client.example", None, "/auth/lygneo", [])

  function Identity(s: string): string { s }

  function NoAccount(handle: string): Result<Account, string> { Err("no account store") }

  /** A handle well-formed as `uid@host`, with nothing to strip. */
  predicate WellFormed(uid: string, host: string) {
    '@' !in uid && '@' !in host && host != "" && Bare(uid + "@" + host)
  }

  /** A handle for an unknown pod registers it once and sends the browser to its authorize endpoint. */
  method FreshHost(uid: string, host: string)
    requires WellFormed(uid, host)
  {
    var handle := uid + "@" + host;
    PaddedHandle("", uid, host, " ");
    assert "" + uid + "@" + host + " " == handle + " ";
    var app := new App(map[], None);
    var resp := app.Start(Some(handle + " "), Home, "/back", false, Registered(7, "id", "secret"), map[], Identity);
    var server := ResourceServer(7, Some(host), "id", "secret");
    assert app.registerCalls == [Some(host)];
    assert app.servers == map[Some(host) := server];
    assert resp.location == Authorize(server, AuthorizeParams(map[], RedirectUri(Home, handle), Some(uid)));
    assert resp.location.params["uid"] == Text(uid);
  }

  /** A handle for a known pod, trailing space included, performs no registration. */
  method KnownHost(uid: string, host: string)
    requires WellFormed(uid, host)
  {
    var handle := uid + "@" + host;
    PaddedHandle("", uid, host, " ");
    assert "" + uid + "@" + host + " " == handle + " ";
    var known := ResourceServer(1, Some(host), "id", "secret");
    var app := new App(map[Some(host) := known], None);
    var resp := app.Start(Some(handle + " "), Home, "/back", false, Rejected("unused"), map[], Identity);
    assert app.registerCalls == [];
    assert resp.location.server == known;
  }

  /** Without a handle the start handler redirects back with the error parameter. */
  method MissingHandle()
  {
    var app := new App(map[], None);
    var resp := app.Start(None, Home, "/back", false, Registered(1, "id", "secret"), map[], Identity);
    assert app.registerCalls == [];
    assert resp.location.url == "/back" + "?lygneo-client-error=" + ErrorText(Message(NoMethod("strip")));
  }

  /** invalid_client registers the host once more; the restart then finds the new record. */
  method InvalidClientRetry(uid: string, host: string)
    requires WellFormed(uid, host)
  {
    var handle := uid + "@" + host;
    PaddedHandle("", uid, host, "");
    assert "" + uid + "@" + host + "" == handle;
    var stale := ResourceServer(1, Some(host), "stale", "stale");
    var app := new App(map[Some(host) := stale], None);
    var resp, sent := app.Callback(CallbackRequest(Some(handle), None, Some(InvalidClient), Home),
                                   Answers(Registered(2, "new", "new"), Err("unused"), Err("unused"), "", None, NoAccount));
    var renewed := ResourceServer(2, Some(host), "new", "new");
    assert app.registerCalls == [Some(host)];
    assert resp.location.url == RestartLocation(handle);
    app.BeginRequest();
    resp := app.Start(Some(handle), Home, "/back", false, Rejected("unused"), map[], Identity);
    assert app.registerCalls == [Some(host)];
    assert resp.location.server == renewed;
  }

  /** A signed-in account with a token ends a successful callback with exactly the new token. */
  method TokenReplacement(uid: string, host: string)
    requires WellFormed(uid, host)
  {
    var handle := uid + "@" + host;
    PaddedHandle("", uid, host, "");
    assert "" + uid + "@" + host + "" == handle;
    var server := ResourceServer(1, Some(host), "id", "secret");
    var stale := AccessToken(Some(uid), 1, "old", None, None);
    var app := new App(map[Some(host) := server], Some(Account(5, Some(stale))));
    var grant := Grant("fresh", Some("refresh"), Some(3600));
    var resp, sent := app.Callback(CallbackRequest(Some(handle), Some("code"), None, Home),
                                   Answers(Rejected("unused"), Ok(grant), Ok(Some(uid)), host, None, NoAccount));
    var renewedToken := AccessToken(Some(uid), 1, "fresh", Some("refresh"), Some(3600));
    assert app.registerCalls == [];
    assert app.destroyedTokens == [stale];
    assert app.currentUser == Some(Account(5, Some(renewedToken)));
    assert resp == Redirect(To(AfterOauthRedirectPath), None);
    resp := app.Revoke();
    assert app.currentUser == Some(Account(5, None));
    assert app.destroyedTokens == [stale, renewedToken];
  }
}
