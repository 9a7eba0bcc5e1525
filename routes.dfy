/**
  The URLs and redirects of the OAuth controller (lib/lygneo-client/app.rb): the callback
  URI handed to the pod, the parameters of the authorize redirect, the error redirect of the
  start handler and the restart redirect of the callback.
 */
module Routes {
  import opened Outcomes
  import opened RubyText
  import opened Records
  import opened Handles

  /** `redirect_path`: where the pod sends the browser back with a code or an error. */
  const RedirectPath := "/auth/lygneo/callback"

  /** `after_oauth_redirect_path`: the landing page after the dance. */
  const AfterOauthRedirectPath := "/"

  /** The permission scope requested at every authorization. */
  const Scope := "profile,AS_photo:post"

  /** The error code (section 5.2 of RFC 6749) that makes the callback register the pod again. */
  const InvalidClient := "invalid_client"

  /** The longest part of an exception message carried in the error redirect: `message[0..800]`. */
  const MaxErrorText := 801

  /** A parsed request URL: query parameters in order, percent-decoded. */
  datatype Url = Url(scheme: string, host: string, port: Option<nat>, path: string, query: seq<(string, string)>)

  /**
    `params[key]` for plain keys: Rack's query parser keeps the last of repeated parameters,
    so this is the value of the last query parameter called exactly key, nil when there is
    none. Rack's bracketed keys (`key[]`, `key[x]`) are not modelled.
   */
  function QueryValue(query: seq<(string, string)>, key: string): (r: Option<string>)
    ensures r.Some? <==> exists i :: 0 <= i < |query| && query[i].0 == key
    ensures r.Some? ==> exists i :: 0 <= i < |query| && query[i] == (key, r.value)
                                    && forall j :: i < j < |query| ==> query[j].0 != key
  {
    if query == [] then None
    else if query[|query| - 1].0 == key then Some(query[|query| - 1].1)
    else QueryValue(query[..|query| - 1], key)
  }

  /** Parameters appended without key do not change the value read for key. */
  lemma {:induction false} QueryValueAppend(query: seq<(string, string)>, added: seq<(string, string)>, key: string)
    requires forall i :: 0 <= i < |added| ==> added[i].0 != key
    ensures QueryValue(query + added, key) == QueryValue(query, key)
  {
    if added != [] {
      var shorter := added[..|added| - 1];
      assert (query + added)[..|query + added| - 1] == query + shorter;
      QueryValueAppend(query, shorter, key);
    } else {
      assert query + added == query;
    }
  }

  /** A value for key among the appended parameters overrides any earlier one. */
  lemma {:induction false} LastParameterWins(query: seq<(string, string)>, added: seq<(string, string)>, key: string)
    requires QueryValue(added, key).Some?
    ensures QueryValue(query + added, key) == QueryValue(added, key)
  {
    var n := |added| - 1;
    assert (query + added)[|query + added| - 1] == added[n];
    if added[n].0 != key {
      assert (query + added)[..|query + added| - 1] == query + added[..n];
      LastParameterWins(query, added[..n], key);
    }
  }

  /**
    `redirect_uri`: the request URL with its path replaced by the callback path and its query
    by the handle alone.
   */
  function RedirectUri(request: Url, handle: string): (r: Url)
    ensures r.scheme == request.scheme && r.host == request.host && r.port == request.port
    ensures r.path == RedirectPath
    ensures QueryValue(r.query, "lygneo_id") == Some(handle) && |r.query| == 1
  {
    request.(path := RedirectPath, query := [("lygneo_id", handle)])
  }

  /**
    The pod sends the browser to the redirect URI with its own parameters added; rebuilding
    the redirect URI there gives back exactly the one sent in the authorization request, as
    section 4.1.3 of RFC 6749 requires of the token request.
   */
  lemma CallbackRebuildsRedirectUri(request: Url, handle: string, added: seq<(string, string)>)
    ensures var sent := RedirectUri(request, handle);
            RedirectUri(sent.(query := sent.query + added), handle) == sent
  {
  }

  /**
    The handle the callback reads from its `lygneo_id` parameter is the handle the start
    handler put into the redirect URI, whatever parameters other than `lygneo_id` the pod
    appends to the query.
   */
  lemma CallbackRecoversHandle(request: Url, raw: string, added: seq<(string, string)>)
    requires LygneoId(Some(raw)).Ok?
    requires forall i :: 0 <= i < |added| ==> added[i].0 != "lygneo_id"
    ensures var handle := LygneoId(Some(raw)).value;
            var sent := RedirectUri(request, handle);
            LygneoId(QueryValue(sent.query + added, "lygneo_id")) == Ok(handle)
  {
    var handle := LygneoId(Some(raw)).value;
    var sent := RedirectUri(request, handle);
    QueryValueAppend(sent.query, added, "lygneo_id");
    LygneoIdStable(raw);
  }

  /** A parameter of the authorize redirect: a string, a URL, or nil. */
  datatype ParamValue = Text(text: string) | Uri(uri: Url) | Nil

  /**
    `authorize_params.merge(...)`: the library's base parameters, with `redirect_uri`,
    `scope` and `uid` set by the controller, overriding any base parameter of that name.
   */
  function AuthorizeParams(base: map<string, string>, redirectUri: Url, uid: Option<string>): (r: map<string, ParamValue>)
    ensures r.Keys == base.Keys + {"redirect_uri", "scope", "uid"}
    ensures r["redirect_uri"] == Uri(redirectUri) && r["scope"] == Text(Scope)
    ensures r["uid"] == if uid.Some? then Text(uid.value) else Nil
    ensures forall k :: k in base && k != "redirect_uri" && k != "scope" && k != "uid" ==> r[k] == Text(base[k])
  {
    var given := map k | k in base :: Text(base[k]);
    given["redirect_uri" := Uri(redirectUri)]["scope" := Text(Scope)]["uid" := if uid.Some? then Text(uid.value) else Nil]
  }

  /** `e.message[0..800]`: the message cut to its first 801 characters. */
  function ErrorText(message: string): (r: string)
    ensures |r| <= MaxErrorText && |r| <= |message| && r == message[..|r|]
    ensures |message| <= MaxErrorText ==> r == message
    ensures |message| > MaxErrorText ==> |r| == MaxErrorText
  {
    if |message| <= MaxErrorText then message else message[..MaxErrorText]
  }

  /** Where the browser goes next. */
  datatype Location =
    | Authorize(server: ResourceServer, params: map<string, ParamValue>) // the pod's authorize endpoint
    | To(url: string)

  /** The response of a handler: a redirect (with a flash alert under Rails), or an uncaught exception. */
  datatype Response = Redirect(location: Location, alert: Option<string>) | Failure(error: Error)

  /**
    The start handler's rescue: under Rails, back to the referring page with the whole message
    as a flash alert; otherwise back with `?lygneo-client-error=` and the escaped, cut message.
   */
  function Rescue(back: string, message: string, rails: bool, escape: string -> string): Response
  {
    if rails then Redirect(To(back), Some(message))
    else Redirect(To(back + "?lygneo-client-error=" + escape(ErrorText(message))), None)
  }

  /** `"/?lygneo_id=#{lygneo_id}"`: the start page again, with the handle interpolated as it is. */
  function RestartLocation(handle: string): string {
    "/?lygneo_id=" + handle
  }
}
