# lygneo-client OAuth controller, modelled in Dafny

lygneo-client lets an application sign users in through their own pod: the user gives a
federated handle `uid@host`, the application registers itself with that pod if it does not
know it yet, and then runs the authorization-code grant of section 4.1 of RFC 6749 against
it, keeping one access token per local account. This project models the per-request logic
of that dance, the Sinatra controller `LygneoClient::App`, as a small state machine over an
abstract store:

- the resource-server table, keyed by host (`servers`), with a log of every call to
  `ResourceServer.register` (`registerCalls`);
- the signed-in account (`currentUser`) and its one access-token slot;
- a log of the access tokens destroyed (`destroyedTokens`);
- the request's memoised pod (`@pod`).

Files:

- `outcomes.dfy` — `Option` (Ruby's nil) and `Result` (a value or a raised exception).
- `ruby_text.dfy` — the Ruby behaviour the controller leans on: `String#strip`,
  `String#split('@')` (trailing empty fields dropped), `Array#[]` past the end, and
  `Integer#to_s`, each with its characterising lemmas (strip is exact and idempotent, split
  round-trips through join, decimal printing round-trips).
- `records.dfy` — resource servers, registration outcomes, grants, access tokens, accounts,
  and the exceptions with their messages.
- `handles.dfy` — `lygneo_id`, `uid`, the pod host, and the handle composed for a new
  account at the callback.
- `routes.dfy` — the callback URI, the authorize parameters, the start handler's error
  redirect, the restart redirect and the response type.
- `app.dfy` — each handler as a pure step function over a store (`StartStep`,
  `CallbackStep`, `RevokeStep`) with lemmas for its branches, and class `App`, whose methods
  `Pod`, `Register`, `Start` (`get '/'`), `Callback` (`get '/callback'`) and `Revoke`
  (`delete '/'`) update the store in place and are proved to agree with the step functions.
- `scenarios.dfy` — request sequences checked against the contracts alone: a fresh host, a
  known host with a padded handle, a missing handle, the `invalid_client` retry, token
  replacement followed by revocation.

Every answer from outside the controller is an input: the outcome of `register`, of the
token exchange and of the `/me` request, the normalized host and port of the authorize URL,
`URI.escape` (a function value), and the account-creation hook (a function value from the
handle to an account or a raised message).

Behaviour worth knowing:

- The handle is split with Ruby's `split('@')`; the host is field 1, so `a@b@c` gives
  host `b`, not `b@c`. There is no malformed-handle error: a handle without `@` yields a
  nil host, which is looked up and passed to `register` like any other (`NoAtNoHost`).
- Revocation calls `destroy` unguarded: with nobody signed in, or no token, it raises
  NoMethodError rather than doing nothing.
- At the callback an account is created only when nobody is signed in; a signed-in account
  keeps receiving the token, whatever handle the pod reports.
- The `invalid_client` branch calls `register` directly, not through the lookup, so it
  registers even a host the table already holds.
- `params['lygneo_id']` keeps the last of repeated plain `lygneo_id` parameters, so a pod
  that appends its own `lygneo_id` to the callback URI overrides the handle the application
  sent (`LastParameterWins`).

## Model

| member | source | states |
|---|---|---|
| RubyText.Strip | lib/lygneo-client/app.rb:27 | strip returns a bare string (no strippable character at either end) that is the input with an all-whitespace prefix and suffix removed |
| RubyText.StripRemovesOnlySpace | lib/lygneo-client/app.rb:27 | strip returns a contiguous slice of its input and everything it removes before and after that slice is strippable whitespace |
| RubyText.StripExact | lib/lygneo-client/app.rb:27 | whatever whitespace surrounds a bare string, strip returns exactly that string |
| RubyText.StripIdempotent | lib/lygneo-client/app.rb:27 | stripping a stripped handle changes nothing |
| RubyText.JoinFields | lib/lygneo-client/app.rb:18 | the '@'-separated fields of a string joined with '@' give the string back |
| RubyText.FieldsOfJoin | lib/lygneo-client/app.rb:31 | fields free of '@' joined with '@' split back into the same fields |
| RubyText.TrimTrailingEmpty | lib/lygneo-client/app.rb:18 | split drops exactly the trailing empty fields and keeps the rest in order |
| RubyText.Decimal | lib/lygneo-client/app.rb:104 | a port prints as base-ten digits with no leading zero except for zero |
| RubyText.DecimalRoundTrip | lib/lygneo-client/app.rb:104 | the printed port reads back as the same number |
| Handles.LygneoId | lib/lygneo-client/app.rb:26-28 | a missing `lygneo_id` raises NoMethodError on strip; a present one comes back as exactly the strip of the parameter |
| Handles.LygneoIdStable | lib/lygneo-client/app.rb:26-28 | a handle read back from the parameters is read as the same handle again |
| Handles.HandleSplit | lib/lygneo-client/app.rb:16-32 | for `uid@host` with no other '@' and a non-empty host, uid is `uid` and the looked-up host is `host` |
| Handles.PaddedHandle | lib/lygneo-client/app.rb:16-32 | whitespace around the whole handle is stripped first; uid and host are as for the bare handle |
| Handles.NoAtNoHost | lib/lygneo-client/app.rb:18 | a handle without '@' gives a nil host and the whole handle (nil if empty) as uid |
| Handles.HostIsSecondField | lib/lygneo-client/app.rb:18 | with a further '@', the host is the second field only |
| Handles.AccountHandleParses | lib/lygneo-client/app.rb:102-107 | the account handle `uid@host[:port]` splits back into the remote uid and the host with its port |
| Routes.RedirectUri | lib/lygneo-client/app.rb:52-57 | the callback URI keeps scheme, host and port, has path `/auth/lygneo/callback` and the handle as its only query parameter |
| Routes.CallbackRebuildsRedirectUri | lib/lygneo-client/app.rb:97-98 | the redirect URI rebuilt at the callback equals the one sent with the authorization request |
| Routes.QueryValue | lib/lygneo-client/app.rb:27 | for plain keys, the parameter read is present exactly when some query pair has the key, and its value is that of the last such pair |
| Routes.QueryValueAppend | lib/lygneo-client/app.rb:27 | parameters appended under other keys do not change the value read |
| Routes.LastParameterWins | lib/lygneo-client/app.rb:27 | a value appended under the key overrides the earlier one |
| Routes.CallbackRecoversHandle | lib/lygneo-client/app.rb:52-57 | the callback reads back from its query exactly the handle the start handler sent, whatever plain-keyed parameters other than `lygneo_id` the pod appends |
| Routes.AuthorizeParams | lib/lygneo-client/app.rb:75-79 | `redirect_uri`, `scope` = `profile,AS_photo:post` and `uid` override the base parameters; every other base parameter is kept |
| Routes.ErrorText | lib/lygneo-client/app.rb:87 | the error text is the message's prefix of length min(801, length) |
| LygneoApp.FindOrRegister | lib/lygneo-client/app.rb:19 | a stored record is returned as it is, with no registration; otherwise the registration's record for that host, or its RegistrationError |
| LygneoApp.LookupIsRemembered | lib/lygneo-client/app.rb:16-21 | once a host is found or registered, the next lookup finds the same record without registering |
| LygneoApp.App.Register | lib/lygneo-client/app.rb:123 | one call is logged; success stores the pod's credentials under the host, failure raises RegistrationError and stores nothing |
| LygneoApp.App.Pod | lib/lygneo-client/app.rb:16-21 | the memoised pod is returned unchanged; on first use the host is looked up and registered only when absent, exactly once |
| LygneoApp.Authorized | lib/lygneo-client/app.rb:97-120 | past the pod lookup the table is never touched; a failed exchange, `/me` or sign-in leaves the store as it was; otherwise the landing page, with the account holding exactly the token built from the grant and the `/me` uid |
| LygneoApp.StartKeepsTableKeyed | lib/lygneo-client/app.rb:16-21 | the start handler keeps every stored record under its own host |
| LygneoApp.CallbackKeepsTableKeyed | lib/lygneo-client/app.rb:94-128 | the callback, including its direct `register`, keeps every stored record under its own host |
| LygneoApp.StartRedirectsOrRescues | lib/lygneo-client/app.rb:69-91 | with a handle, `register` is called only for a host the table lacks; a found pod (the stored record) or a registered one (the registration's record for that host, now stored) gives the authorize redirect with the redirect URI, scope and uid of the handle; a missing handle (NoMethodError on strip, nothing changed) or a refused registration (RegistrationError, table unchanged) goes back to the referring page, under Rails with the whole message as flash alert, otherwise with `?lygneo-client-error=` and the escaped message cut to 801 characters; accounts and tokens are never touched |
| LygneoApp.OtherErrorChangesNothing | lib/lygneo-client/app.rb:122-127 | a callback with an error other than `invalid_client` lands on `/`, sends no token request and changes nothing |
| LygneoApp.InvalidClientRegistersAgain | lib/lygneo-client/app.rb:122-124 | `invalid_client` calls `register` once for the handle's host, known or not; the table gains the new record under that host and nothing else, and the browser restarts with the same handle; or RegistrationError is raised and the table is unchanged; tokens are untouched |
| LygneoApp.CallbackReplacesToken | lib/lygneo-client/app.rb:95-120 | a completed callback sent the code and the redirect URI to the handle's pod, which is the stored record for its host (table and register log unchanged) or the registration's record (stored under the host, one register call logged); the signed-in account keeps its identity, or when nobody was signed in the hook's account for `<remote uid>@<host>[:<port>]` is used; it ends holding exactly one token, with the `/me` uid, the pod's id and the grant's access token, refresh token and expiry, and the token it held before is destroyed |
| LygneoApp.CallbackRaisesKeepsAccount | lib/lygneo-client/app.rb:97-107 | past the pod lookup a failed exchange or `/me` raises its message, a nil remote uid with nobody signed in raises NoMethodError on `+`, a refusing account hook raises its message; each leaves the account and its token as they were |
| LygneoApp.NoOrphanedTokens | lib/lygneo-client/app.rb:109-111 | destroyed tokens are only appended to, and a token the signed-in account held is afterwards still held or newly destroyed, for the callback and for revocation |
| LygneoApp.RevokeEmptiesSlot | lib/lygneo-client/app.rb:133-136 | a revocation that succeeds had a signed-in account with a token, destroys that token, leaves the slot empty and lands on `/` |
| LygneoApp.App.Start | lib/lygneo-client/app.rb:69-91 | the new table, register log and response are those of StartStep, the start handler as a function of the store and request |
| LygneoApp.App.Callback | lib/lygneo-client/app.rb:94-128 | the new store, response and token request are those of CallbackStep, the callback as a function of the store, request and outside answers |
| LygneoApp.App.Exchange | lib/lygneo-client/app.rb:97-120 | the account and destroyed-token log after the exchange are those of Authorized for the memoised pod |
| LygneoApp.App.Revoke | lib/lygneo-client/app.rb:133-136 | the new store and response are those of RevokeStep: the token destroyed and the slot emptied, or NoMethodError with no account or no token |

## Left out

- The Sinatra routing, `redirect`'s halting, warden's session and the Rails flash object:
  a redirect is a returned value, the signed-in account is a field, and "running under
  Rails" is a boolean.
- `LygneoClient.setup_faraday` at the top of the start handler: transport configuration.
- The OAuth2 library (`authorize_url`, `auth_code.get_token`, `access_token.get`), JSON
  parsing of `/me`, Addressable's URL parsing, serialisation and port normalisation, and
  `URI.escape`: their results are inputs. A `/me` uid that is neither a string nor null is
  not modelled.
- LygneoApp.App.Start: a failure raised inside the OAuth2 library while building the
  authorize URL would also be rescued; the model lets only handle and registration errors
  occur.
- LygneoApp.App.Callback: `build_register_body`, which is signed with the application key
  and sent with the token request, is not part of this model; the token request records the
  code, the pod and the redirect URI only.
- `ResourceServer.register`, its request body, signing and endpoints are not part of this
  model: registration is an input that either stores credentials for the host or raises
  RegistrationError with the pod's response body.
- LygneoApp.InvalidClientRegistersAgain: assumes a second `register` for a known host
  replaces the stored record. The table is a map from host to one record; if `register`
  inserted a second row, `where(:host => host).first` could still return the older one.
- LygneoApp.SignIn: the account hook is modelled as returning an account or raising; a hook
  that returns nil (after which `current_user.access_token` raises NoMethodError) is not
  modelled.
- The `@lygneo_id` and `@uid` memos: both are recomputed from the same parameter, which
  gives the same value.
- Routes.QueryValue: only plain keys are modelled. Rack's nested-query parser also files
  bracketed keys such as `lygneo_id[]` and `lygneo_id[x]` (and, in Rack 1.x, `[lygneo_id]`
  and `lygneo_id]`) under `lygneo_id`, raising a parameter type error or overriding the
  handle; Routes.CallbackRecoversHandle therefore holds only when the pod appends no such key.
- Query strings are taken as decoded parameter lists; percent-encoding and decoding are
  not modelled, so the raw interpolation of the handle into `/?lygneo_id=` is shown as such
  but its decoding by the next request is not.
- RubyText.Strip: NUL is treated as strippable at both ends, as current Ruby does; older
  Ruby versions strip it from the end only.
- Handles.LygneoId: NoMethodError messages use the form `undefined method `x' for
  nil:NilClass`; newer Ruby versions word them differently.
- Routes.AuthorizeParams: Ruby symbol and string keys are both modelled as strings.
- `lib/lygneo-client/access_token.rb`: the token is a plain record; `expires_in` depends on
  the wall clock.
- `lib/lygneo-client/railtie.rb`: rake-task loading only.
- Signing keys, the application manifest and its verification: cryptography, file I/O and
  process exit, outside the controller.
