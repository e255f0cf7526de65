/**
 * The validation half of Client_impl::connectMaster: what the client accepts
 * from the master manager's HTTP reply, and which ClientException it throws
 * otherwise. The HTTP exchange itself (libcurl) is an input: the transfer
 * code, the curl error text, the HTTP status, the raw body and what the JSON
 * reader made of that body.
 */
module Handshake {
  import opened Json
  import opened Results
  import opened RceTypes

  const CURLE_OK := 0
  const HTTP_OK := 200

  const CURL_ERROR := "Curl reported an error: "
  const MASTER_ERROR := "Received an error from Master Manager: "
  const BINARY_REFERENCES := "Received message from Master Manager contains binary references."
  const INVALID_FORMAT := "Received message from Master Manager has invalid JSON format."

  /** json_spirit::read_string_or_throw's result: the value and the binary references it found. */
  datatype Decoded = Decoded(value: Value, binaries: seq<string>)

  /** The outcome of the HTTP request, as libcurl and the JSON reader report it. */
  datatype Reply = Reply(rc: int, curlError: string, status: int, body: string, decoded: Option<Decoded>)

  /** What the master manager hands out: the session key, the robot URL, and a newer client version if it advertises one. */
  datatype Grant = Grant(key: string, url: string, newerVersion: Option<string>)

  /** How connectMaster fails when the body cannot be read as JSON (json_spirit's own exception). */
  datatype HandshakeError =
    | Thrown(e: ClientException)
    | Unreadable

  predicate IsString(v: Value) { v.Str? }

  /** The reply passes every check of connectMaster. */
  predicate Acceptable(r: Reply)
  {
    && r.rc == CURLE_OK
    && r.status == HTTP_OK
    && r.decoded.Some?
    && r.decoded.value.binaries == []
    && r.decoded.value.value.Obj?
    && IsString(FindValue(r.decoded.value.value.members, "key"))
    && IsString(FindValue(r.decoded.value.value.members, "url"))
    && (FindValue(r.decoded.value.value.members, "current").Null? ||
        IsString(FindValue(r.decoded.value.value.members, "current")))
  }

  /**
   * Client_impl::connectMaster after the request: the checks in source order,
   * each throwing its own ClientException.
   */
  function ConnectMaster(r: Reply): (g: Result<Grant, HandshakeError>)
    ensures g.Ok? <==> Acceptable(r)
    ensures r.rc != CURLE_OK ==> g == Err(Thrown(ClientException(CURL_ERROR + r.curlError)))
    ensures r.rc == CURLE_OK && r.status != HTTP_OK ==>
      g == Err(Thrown(ClientException(MASTER_ERROR + r.body)))
    ensures r.rc == CURLE_OK && r.status == HTTP_OK && r.decoded.None? ==> g == Err(Unreadable)
    ensures r.rc == CURLE_OK && r.status == HTTP_OK && r.decoded.Some? && r.decoded.value.binaries != [] ==>
      g == Err(Thrown(ClientException(BINARY_REFERENCES)))
    ensures (g.Err? && r.rc == CURLE_OK && r.status == HTTP_OK && r.decoded.Some? &&
             r.decoded.value.binaries == []) ==> g == Err(Thrown(ClientException(INVALID_FORMAT)))
    ensures g.Ok? ==>
      var members := r.decoded.value.value.members;
      && FindValue(members, "key") == Str(g.value.key)
      && FindValue(members, "url") == Str(g.value.url)
      && (g.value.newerVersion.Some? <==> FindValue(members, "current").Str?)
      && (g.value.newerVersion.Some? ==> FindValue(members, "current") == Str(g.value.newerVersion.value))
  {
    if r.rc != CURLE_OK then Err(Thrown(ClientException(CURL_ERROR + r.curlError)))
    else if r.status != HTTP_OK then Err(Thrown(ClientException(MASTER_ERROR + r.body)))
    else if r.decoded.None? then Err(Unreadable)
    else if r.decoded.value.binaries != [] then Err(Thrown(ClientException(BINARY_REFERENCES)))
    else if !r.decoded.value.value.Obj? then Err(Thrown(ClientException(INVALID_FORMAT)))
    else
      var members := r.decoded.value.value.members;
      var keyVal := FindValue(members, "key");
      var urlVal := FindValue(members, "url");
      var curVal := FindValue(members, "current");
      if !keyVal.Str? || !urlVal.Str? then Err(Thrown(ClientException(INVALID_FORMAT)))
      else if !curVal.Null? && !curVal.Str? then Err(Thrown(ClientException(INVALID_FORMAT)))
      else Ok(Grant(keyVal.s, urlVal.s, if curVal.Str? then Some(curVal.s) else None))
  }

  /**
   * A reply whose body object carries a string `key` and a string `url`
   * member, at any positions and in either order, and no `current` member
   * yields the first such strings, whatever else the object holds.
   */
  lemma GrantIsFirstKeyAndUrl(r: Reply, members: seq<Member>, key: string, url: string, i: nat, j: nat)
    requires r.rc == CURLE_OK && r.status == HTTP_OK
    requires r.decoded == Some(Decoded(Obj(members), []))
    requires i < |members| && members[i] == Member("key", Str(key))
    requires forall k :: 0 <= k < i ==> members[k].name != "key"
    requires j < |members| && members[j] == Member("url", Str(url))
    requires forall k :: 0 <= k < j ==> members[k].name != "url"
    requires !HasMember(members, "current")
    ensures ConnectMaster(r) == Ok(Grant(key, url, None))
  {
    FindValueFirst(members, "key", i);
    FindValueFirst(members, "url", j);
  }
}
