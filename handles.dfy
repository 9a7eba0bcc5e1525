/**
  Federated handles (`uid@host`): reading the handle from the request parameters, splitting
  it into the local uid and the pod host, and composing the handle of an account from the
  pod's answer (lib/lygneo-client/app.rb, `lygneo_id`, `uid`, `pod` and the callback).
 */
module Handles {
  import opened Outcomes
  import opened RubyText
  import opened Records

  /**
    `params['lygneo_id'].strip`: a missing parameter is nil, and calling strip on it raises
    NoMethodError. A present parameter comes back without surrounding whitespace.
   */
  function LygneoId(param: Option<string>): (r: Result<string, Error>)
    ensures r.Err? <==> param.None?
    ensures r.Err? ==> r.error == NoMethod("strip")
    ensures r.Ok? ==> r.value == Strip(param.value)
    ensures r.Ok? ==> Bare(r.value) && |r.value| <= |param.value|
  {
    match param
    case None => Err(NoMethod("strip"))
    case Some(raw) => Ok(Strip(raw))
  }

  /** `lygneo_id.split('@')[0]`: nil when the split has no field at all. */
  function Uid(handle: string): Option<string> {
    At(Split(handle, '@'), 0)
  }

  /** `lygneo_id.split('@')[1]`: the host the pod is looked up and registered by. */
  function PodHost(handle: string): Host {
    At(Split(handle, '@'), 1)
  }

  /** A handle read back from the parameters is read the same way again. */
  lemma LygneoIdStable(raw: string)
    ensures LygneoId(Some(LygneoId(Some(raw)).value)) == LygneoId(Some(raw))
  {
    StripIdempotent(raw);
  }

  /** `uid@host` splits into uid and host when neither holds an '@' and the host is not empty. */
  lemma HandleSplit(uid: string, host: string)
    requires '@' !in uid && '@' !in host && host != ""
    ensures Uid(uid + "@" + host) == Some(uid)
    ensures PodHost(uid + "@" + host) == Some(host)
  {
    var fs := [uid, host];
    assert fs[1..] == [host];
    assert Join(fs, '@') == uid + "@" + host;
    FieldsOfJoin(fs, '@');
  }

  /** Whitespace around the whole handle is ignored: the same uid and host are used. */
  lemma PaddedHandle(front: string, uid: string, host: string, back: string)
    requires AllSpace(front) && AllSpace(back)
    requires '@' !in uid && '@' !in host && host != ""
    requires Bare(uid + "@" + host)
    ensures LygneoId(Some(front + uid + "@" + host + back)) == Ok(uid + "@" + host)
    ensures Uid(uid + "@" + host) == Some(uid) && PodHost(uid + "@" + host) == Some(host)
  {
    assert front + uid + "@" + host + back == front + (uid + "@" + host) + back;
    StripExact(front, uid + "@" + host, back);
    HandleSplit(uid, host);
  }

  /** A handle without '@' yields no host (there is no dedicated malformed-handle error). */
  lemma NoAtNoHost(handle: string)
    requires '@' !in handle
    ensures PodHost(handle) == None
    ensures Uid(handle) == if handle == "" then None else Some(handle)
  {
    FieldsOfJoin([handle], '@');
  }

  /** With more than one '@', the host is the second field alone, not the rest of the handle. */
  lemma HostIsSecondField(uid: string, host: string, rest: string)
    requires '@' !in uid && '@' !in host && '@' !in rest && rest != ""
    ensures Uid(uid + "@" + host + "@" + rest) == Some(uid)
    ensures PodHost(uid + "@" + host + "@" + rest) == Some(host)
  {
    var fs := [uid, host, rest];
    assert fs[1..] == [host, rest] && fs[1..][1..] == [rest];
    assert Join(fs[1..], '@') == host + "@" + rest;
    assert Join(fs, '@') == uid + "@" + host + "@" + rest;
    FieldsOfJoin(fs, '@');
  }

  /** The pod's normalized host with `:port` appended only when a port is present. */
  function HostWithPort(host: string, port: Option<nat>): string {
    if port.Some? then host + ":" + Decimal(port.value) else host
  }

  /** `user_json['uid'] + "@" + url`: the handle an account is created for at the callback. */
  function AccountHandle(remoteUid: string, host: string, port: Option<nat>): string {
    remoteUid + "@" + HostWithPort(host, port)
  }

  /**
    The handle composed for a new account is one the same handle parser reads back as the
    remote uid at the pod's host (port included).
   */
  lemma AccountHandleParses(remoteUid: string, host: string, port: Option<nat>)
    requires '@' !in remoteUid && '@' !in host
    requires HostWithPort(host, port) != ""
    ensures Uid(AccountHandle(remoteUid, host, port)) == Some(remoteUid)
    ensures PodHost(AccountHandle(remoteUid, host, port)) == Some(HostWithPort(host, port))
  {
    if port.Some? {
      var digits := Decimal(port.value);
      assert forall i :: 0 <= i < |digits| ==> digits[i] != '@';
      assert '@' !in host + ":" + digits;
    }
    HandleSplit(remoteUid, HostWithPort(host, port));
  }
}
