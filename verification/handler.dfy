/** The response-wrapping rule every route goes through: run the handler,
    turn a raised exception into a failure envelope, inject the session and
    username headers, pick the HTTP status code and echo the session header. */
module Handler {
  import opened Wrappers
  import opened Status

  /** The parts of an inbound request the wrapper reads: method, path and the
      optional `x-colors-session` and `x-authenticated-as` headers. */
  datatype Request = Request(verb: string, path: string, session: Option<string>, username: Option<string>)

  /** What the route body did: returned an envelope, or raised an exception
      whose string form is `description`. */
  datatype Outcome = Returned(status: RichStatus) | Raised(description: string)

  /** The response: the JSON body, the HTTP status code (copied verbatim from
      `status_code` on failure, so any value), and the echoed
      `x-colors-session` header, if any. */
  datatype Response = Response(body: map<string, Value>, code: Value, sessionHeader: Option<string>)

  /** A header counts only when it is present and non-empty. */
  predicate Given(h: Option<string>) {
    h.Some? && h.value != ""
  }

  /** The error message for a handler that raised. */
  function FailureMessage(funcName: string, verb: string, path: string, e: string): string {
    funcName + ": " + verb + " " + path + " failed: " + e
  }

  /** The envelope the wrapper goes on with after the try/except: the returned
      one, or a failure envelope describing the exception. */
  function Settle(funcName: string, req: Request, outcome: Outcome, host: Option<string>, now: string): (rc: RichStatus)
    ensures outcome.Returned? ==> rc == outcome.status
    ensures outcome.Raised? ==> !rc.ok && Stamped(rc, host, now) && "status_code" !in rc.info
    ensures outcome.Raised? ==> forall k :: k in rc.info <==> k == "error" || IsSystemKey(k)
    ensures outcome.Raised? ==>
      "error" in rc.info &&
      rc.info["error"] == Str(FailureMessage(funcName, req.verb, req.path, outcome.description))
  {
    match outcome
    case Returned(rs) => rs
    case Raised(e) => FromError(FailureMessage(funcName, req.verb, req.path, e), map[], host, now)
  }

  /** Writes the session and username headers, when given, into `info`. */
  function Inject(rc: RichStatus, session: Option<string>, username: Option<string>): RichStatus {
    var withSession := if Given(session) then rc.info["session" := Str(session.value)] else rc.info;
    RichStatus(rc.ok, if Given(username) then withSession["username" := Str(username.value)] else withSession)
  }

  /** The status code chosen for an envelope. */
  function Code(rc: RichStatus): Value {
    if !Truthy(rc) then
      (if Contains(rc, "status_code") then rc.info["status_code"] else Int(500))
    else
      Int(200)
  }

  /** The whole wrapper. */
  function Wrap(funcName: string, req: Request, outcome: Outcome, host: Option<string>, now: string): (resp: Response)
    // status code: 200 on success, else the envelope's status_code, else 500
    ensures var rc := Settle(funcName, req, outcome, host, now);
      && (rc.ok ==> resp.code == Int(200))
      && (!rc.ok && "status_code" in rc.info ==> resp.code == rc.info["status_code"])
      && (!rc.ok && "status_code" !in rc.info ==> resp.code == Int(500))
    // an exception always yields a 500 whose error names the handler, method and path
    ensures "ok" in resp.body
    ensures outcome.Raised? ==> resp.code == Int(500) && resp.body["ok"] == Bool(false)
    ensures outcome.Raised? ==>
      "error" in resp.body &&
      resp.body["error"] == Str(FailureMessage(funcName, req.verb, req.path, outcome.description))
    // the session header is echoed exactly when it was given
    ensures resp.sessionHeader.Some? <==> Given(req.session)
    ensures resp.sessionHeader.Some? ==> resp.sessionHeader == req.session
    // given headers land in the body
    ensures Given(req.session) ==> "session" in resp.body && resp.body["session"] == Str(req.session.value)
    ensures Given(req.username) ==> "username" in resp.body && resp.body["username"] == Str(req.username.value)
    // and nothing else in the body changes
    ensures var d := ToDict(Settle(funcName, req, outcome, host, now));
      forall k :: (k != "session" || !Given(req.session)) && (k != "username" || !Given(req.username)) ==>
        (k in resp.body <==> k in d) && (k in d ==> resp.body[k] == d[k])
  {
    var rc := Inject(Settle(funcName, req, outcome, host, now), req.session, req.username);
    Response(ToDict(rc), Code(rc), if Given(req.session) then req.session else None)
  }

  /** The headers affect only the session and username fields: with or
      without them, the status code and every other body field are the same. */
  lemma HeadersOnlyAddFields(funcName: string, req: Request, outcome: Outcome, host: Option<string>, now: string)
    ensures var bare := Request(req.verb, req.path, None, None);
      var withHeaders := Wrap(funcName, req, outcome, host, now);
      var without := Wrap(funcName, bare, outcome, host, now);
      && withHeaders.code == without.code
      && without.sessionHeader == None
      && forall k :: k != "session" && k != "username" ==>
           (k in withHeaders.body <==> k in without.body)
           && (k in without.body ==> withHeaders.body[k] == without.body[k])
  {
    var bare := Request(req.verb, req.path, None, None);
    assert Settle(funcName, req, outcome, host, now) == Settle(funcName, bare, outcome, host, now);
  }

  /** A returned envelope's own fields other than `session` and `username`
      reach the response body unchanged, and its flag decides the code. */
  lemma WrapKeepsField(funcName: string, req: Request, rs: RichStatus, host: Option<string>, now: string, k: string)
    requires k in rs.info && k != "session" && k != "username"
    ensures var resp := Wrap(funcName, req, Returned(rs), host, now);
      && k in resp.body && resp.body[k] == rs.info[k]
      && (rs.ok ==> resp.code == Int(200))
  {
    assert Settle(funcName, req, Returned(rs), host, now) == rs;
  }

  /** A stamped envelope stays stamped through the wrapper: every response
      body carries `ok` (the envelope's flag), and `hostname`, `time` and
      `version` hold the host, the time and the service version. */
  lemma WrapKeepsSystemFields(funcName: string, req: Request, outcome: Outcome, host: Option<string>, now: string)
    requires outcome.Returned? ==> Stamped(outcome.status, host, now)
    ensures var resp := Wrap(funcName, req, outcome, host, now);
      && resp.body["ok"] == Bool(Settle(funcName, req, outcome, host, now).ok)
      && "hostname" in resp.body && resp.body["hostname"] == HostValue(host)
      && "time" in resp.body && resp.body["time"] == Str(now)
      && "version" in resp.body && resp.body["version"] == Str(Version)
  {
  }
}
