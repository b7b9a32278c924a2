/** The service end to end: each endpoint's body run through the response
    wrapper, and the properties a client observes in the final response. */
module Service {
  import opened Wrappers
  import opened Catalog
  import opened Status
  import opened Handler
  import Routes

  /** The endpoints with a route body worth modelling; `name` is the path
      segment the router extracted. */
  datatype Endpoint =
    | GetHealth
    | GetRandom
    | GetColor(name: string)
    | GetBg(name: string)
    | GetFg(name: string)

  /** The handler name the wrapper reports in an exception message. */
  function FuncName(e: Endpoint): string {
    match e
    case GetHealth => "health"
    case GetRandom => "statement"
    case GetColor(_) => "specific_color"
    case GetBg(_) => "color_bg"
    case GetFg(_) => "color_fg"
  }

  /** The endpoint looks a color up and the catalog has no such name. */
  ghost predicate UnknownColor(e: Endpoint) {
    (e.GetColor? || e.GetBg? || e.GetFg?) && !Named(Colors, e.name)
  }

  /** Runs the endpoint's body; `choice` stands for the random index. */
  function Handle(e: Endpoint, path: string, choice: nat, host: Option<string>, now: string): (r: RichStatus)
    requires choice < |Colors|
    ensures Stamped(r, host, now)
    ensures r.ok <==> !UnknownColor(e)
    ensures r.ok <==> "error" !in r.info
    ensures !r.ok ==> "status_code" in r.info && r.info["status_code"] == Int(400)
    // The three equations below only repeat the match arms; they spare callers
    // from unfolding the whole match, which the solver finds expensive.
    ensures e.GetColor? ==> r == Routes.SpecificColor(e.name, host, now)
    ensures e.GetBg? ==> r == Routes.ColorBg(e.name, path, host, now)
    ensures e.GetFg? ==> r == Routes.ColorFg(e.name, path, host, now)
  {
    match e
    case GetHealth => Routes.Health(host, now)
    case GetRandom => Routes.Statement(choice, host, now)
    case GetColor(name) => Routes.SpecificColor(name, host, now)
    case GetBg(name) => Routes.ColorBg(name, path, host, now)
    case GetFg(name) => Routes.ColorFg(name, path, host, now)
  }

  /** The response to a request on endpoint `e`. No route body raises, so the
      wrapper always receives a returned envelope. */
  function Serve(e: Endpoint, req: Request, choice: nat, host: Option<string>, now: string): (resp: Response)
    requires choice < |Colors|
    ensures resp.code == Int(200) || resp.code == Int(400)
    ensures resp.code == Int(400) <==> UnknownColor(e)
    ensures resp.sessionHeader.Some? <==> Given(req.session)
  {
    Wrap(FuncName(e), req, Returned(Handle(e, req.path, choice, host, now)), host, now)
  }

  /** Every response: 200 on success and 400 exactly for an unknown color;
      the body holds `ok`, `hostname`, `time` and `version`; a failure body
      always carries `error` and a success body never does; the session
      header is echoed whenever it was given. */
  lemma ServeShape(e: Endpoint, req: Request, choice: nat, host: Option<string>, now: string)
    requires choice < |Colors|
    ensures var resp := Serve(e, req, choice, host, now);
      && resp.code == (if UnknownColor(e) then Int(400) else Int(200))
      && "ok" in resp.body && resp.body["ok"] == Bool(!UnknownColor(e))
      && "hostname" in resp.body && resp.body["hostname"] == HostValue(host)
      && "time" in resp.body && resp.body["time"] == Str(now)
      && "version" in resp.body && resp.body["version"] == Str(Version)
      && ("error" in resp.body <==> UnknownColor(e))
      && (Given(req.session) ==> resp.sessionHeader == req.session)
  {
    var rc := Handle(e, req.path, choice, host, now);
    assert Settle(FuncName(e), req, Returned(rc), host, now) == rc;
    WrapKeepsSystemFields(FuncName(e), req, Returned(rc), host, now);
  }

  /** GET /<name>, /<name>/bg or /<name>/fg for a name not in the catalog:
      status 400, `ok` false, the error names the color, and `status_code` is 400. */
  lemma UnknownColorReplies(e: Endpoint, req: Request, choice: nat, host: Option<string>, now: string)
    requires choice < |Colors|
    requires UnknownColor(e)
    ensures var resp := Serve(e, req, choice, host, now);
      && resp.code == Int(400)
      && resp.body["ok"] == Bool(false)
      && resp.body["error"] == Str("no color " + e.name)
      && resp.body["status_code"] == Int(400)
  {
    var rc := Handle(e, req.path, choice, host, now);
    assert rc == Routes.NoColor(e.name, host, now);
    assert Settle(FuncName(e), req, Returned(rc), host, now) == rc;
  }

  /** GET /<name> for the name of the record at index `i`: status 200 and
      `color` is that whole record. */
  lemma KnownColorReply(name: string, i: nat, req: Request, choice: nat, host: Option<string>, now: string)
    requires i < |Colors| && Colors[i].name == name && choice < |Colors|
    ensures var resp := Serve(GetColor(name), req, choice, host, now);
      && resp.code == Int(200)
      && resp.body["color"] == Record(Colors[i])
      && resp.body["color"].color.name == name
  {
    var e := GetColor(name);
    var rc := Handle(e, req.path, choice, host, now);
    Routes.KnownColorReplies(name, i, req.path, host, now);
    WrapKeepsField(FuncName(e), req, rc, host, now, "color");
  }

  /** The last segment of the path the router matches for /<name>/bg or
      /<name>/fg is the literal "bg" or "fg". */
  lemma RoutedSegment(name: string, seg: string)
    requires seg == "bg" || seg == "fg"
    ensures Routes.LastSegment("/" + name + "/" + seg) == seg
  {
    Routes.LastSegmentAfterSlash("/" + name, seg);
  }

  /** The body /<name>/bg or /<name>/fg sends for a known color, through the
      wrapper: status 200, `color` is the name, `path` is `seg` and `fg` is `code`. */
  lemma CodeReplyServed(funcName: string, name: string, seg: string, code: int, req: Request, host: Option<string>, now: string)
    ensures var resp := Wrap(funcName, req, Returned(Routes.CodeReply(name, seg, code, host, now)), host, now);
      && resp.code == Int(200)
      && resp.body["color"] == Str(name)
      && resp.body["path"] == Str(seg)
      && resp.body["fg"] == Int(code)
  {
    var rc := Routes.CodeReply(name, seg, code, host, now);
    WrapKeepsField(funcName, req, rc, host, now, "color");
    WrapKeepsField(funcName, req, rc, host, now, "path");
    WrapKeepsField(funcName, req, rc, host, now, "fg");
  }

  /** GET /<name>/bg on the path the router matched: status 200, `color` is
      the name, `path` is "bg" and `fg` holds the background code. */
  lemma BgRouteReply(name: string, i: nat, req: Request, choice: nat, host: Option<string>, now: string)
    requires i < |Colors| && Colors[i].name == name && choice < |Colors|
    requires req.path == "/" + name + "/bg"
    ensures var resp := Serve(GetBg(name), req, choice, host, now);
      && resp.code == Int(200)
      && resp.body["color"] == Str(name)
      && resp.body["path"] == Str("bg")
      && resp.body["fg"] == Int(Colors[i].bgCode)
  {
    assert req.path == "/" + name + "/" + "bg";
    RoutedSegment(name, "bg");
    Routes.KnownColorReplies(name, i, req.path, host, now);
    CodeReplyServed(FuncName(GetBg(name)), name, "bg", Colors[i].bgCode, req, host, now);
  }

  /** GET /<name>/fg on the path the router matched: status 200, `color` is
      the name, `path` is "fg" and `fg` holds the foreground code. */
  lemma FgRouteReply(name: string, i: nat, req: Request, choice: nat, host: Option<string>, now: string)
    requires i < |Colors| && Colors[i].name == name && choice < |Colors|
    requires req.path == "/" + name + "/fg"
    ensures var resp := Serve(GetFg(name), req, choice, host, now);
      && resp.code == Int(200)
      && resp.body["color"] == Str(name)
      && resp.body["path"] == Str("fg")
      && resp.body["fg"] == Int(Colors[i].fgCode)
  {
    assert req.path == "/" + name + "/" + "fg";
    RoutedSegment(name, "fg");
    Routes.KnownColorReplies(name, i, req.path, host, now);
    CodeReplyServed(FuncName(GetFg(name)), name, "fg", Colors[i].fgCode, req, host, now);
  }

  /** GET / with random index `choice`: status 200, `idx` is the index and
      `color` the name of the record there. */
  lemma RandomReply(req: Request, choice: nat, host: Option<string>, now: string)
    requires choice < |Colors|
    ensures var resp := Serve(GetRandom, req, choice, host, now);
      && resp.code == Int(200)
      && resp.body["idx"] == Int(choice)
      && resp.body["color"] == Str(Colors[choice].name)
  {
    var rc := Handle(GetRandom, req.path, choice, host, now);
    assert Settle(FuncName(GetRandom), req, Returned(rc), host, now) == rc;
  }

  /** GET /red: 200 with the full red record. */
  lemma RedExample(req: Request, host: Option<string>, now: string)
    ensures var resp := Serve(GetColor("red"), req, 0, host, now);
      && resp.code == Int(200)
      && resp.body["color"] == Record(ColorRecord("red", 31, 41))
  {
    KnownColorReply("red", 1, req, 0, host, now);
  }

  /** No catalog record is called "purple". */
  lemma PurpleIsUnknown()
    ensures !Named(Colors, "purple")
  {
    forall i | 0 <= i < |Colors| ensures Colors[i].name != "purple" {
      var n := Colors[i].name;
      assert |n| != 6 || n[0] != 'p';
    }
  }

  /** GET /purple: 400 with "no color purple". The name is a parameter fixed
      by the precondition only so that the solver need not evaluate the
      literal against the whole catalog; the lemma is about "purple" alone. */
  lemma PurpleExample(name: string, req: Request, host: Option<string>, now: string)
    requires name == "purple"
    ensures var resp := Serve(GetColor(name), req, 0, host, now);
      && resp.code == Int(400)
      && resp.body["error"] == Str("no color " + name)
  {
    PurpleIsUnknown();
    UnknownColorReplies(GetColor(name), req, 0, host, now);
  }

  /** GET /blue/fg: 200 with color "blue", path "fg" and code 34 under `fg`. */
  lemma BlueFgExample(req: Request, host: Option<string>, now: string)
    requires req.path == "/blue/fg"
    ensures var resp := Serve(GetFg("blue"), req, 0, host, now);
      && resp.code == Int(200)
      && resp.body["color"] == Str("blue")
      && resp.body["path"] == Str("fg")
      && resp.body["fg"] == Int(34)
  {
    FgRouteReply("blue", 4, req, 0, host, now);
  }
}
