/** The route bodies, each a pure function from its inputs to an envelope.
    The host name and the clock reading are parameters; the random route
    takes its index as a parameter. */
module Routes {
  import opened Wrappers
  import opened Catalog
  import opened Status

  /** The position of the last '/' among the first `n` characters of `path`. */
  function LastSlashBefore(path: string, n: nat): (r: Option<nat>)
    requires n <= |path|
    ensures r.Some? ==> r.value < n && path[r.value] == '/'
    ensures r.Some? ==> forall j :: r.value < j < n ==> path[j] != '/'
    ensures r.None? <==> forall j :: 0 <= j < n ==> path[j] != '/'
  {
    if n == 0 then None
    else if path[n - 1] == '/' then Some(n - 1)
    else LastSlashBefore(path, n - 1)
  }

  /** The request path after its last '/', or the whole path when it has
      none: the last element of a split at the rightmost '/'. */
  function LastSegment(path: string): (seg: string)
    ensures |seg| <= |path| && seg == path[|path| - |seg|..]
    ensures '/' !in seg
    ensures |seg| < |path| ==> path[|path| - |seg| - 1] == '/'
  {
    match LastSlashBefore(path, |path|)
    case None => path
    case Some(i) => path[i + 1..]
  }

  /** Whatever precedes it, a final segment with no '/' is what LastSegment returns. */
  lemma {:induction false} LastSegmentAfterSlash(prefix: string, seg: string)
    requires '/' !in seg
    ensures LastSegment(prefix + "/" + seg) == seg
  {
    var p := prefix + "/" + seg;
    var r := LastSegment(p);
    assert p[|prefix|] == '/';
    assert forall k :: |prefix| < k < |p| ==> p[k] == seg[k - |prefix| - 1];
    assert |r| == |seg|;
    assert r == p[|p| - |seg|..];
  }

  /** The failure every per-color route returns for an unknown name. */
  function NoColor(name: string, host: Option<string>, now: string): (r: RichStatus)
    ensures !r.ok && Stamped(r, host, now)
    ensures forall k :: k in r.info <==> k == "error" || k == "status_code" || IsSystemKey(k)
    ensures r.info["error"] == Str("no color " + name)
    ensures r.info["status_code"] == Int(400)
  {
    FromError("no color " + name, map["status_code" := Int(400)], host, now)
  }

  /** The liveness probe: always a success with a fixed message. */
  function Health(host: Option<string>, now: string): (r: RichStatus)
    ensures r.ok && Stamped(r, host, now) && "error" !in r.info
    ensures forall k :: k in r.info <==> k == "msg" || IsSystemKey(k)
    ensures "msg" in r.info && r.info["msg"] == Str("colors health check OK")
  {
    OK(map["msg" := Str("colors health check OK")], host, now)
  }

  /** The random route, with the random choice given as `idx`. */
  function Statement(idx: nat, host: Option<string>, now: string): (r: RichStatus)
    requires idx < |Colors|
    ensures r.ok && Stamped(r, host, now) && "error" !in r.info
    ensures forall k :: k in r.info <==> k == "idx" || k == "color" || IsSystemKey(k)
    ensures r.info["idx"] == Int(idx)
    ensures r.info["color"] == Str(Colors[idx].name)
  {
    OK(map["idx" := Int(idx), "color" := Str(Colors[idx].name)], host, now)
  }

  /** GET /<name>: the full record on a match, the 400 failure otherwise. */
  function SpecificColor(name: string, host: Option<string>, now: string): (r: RichStatus)
    ensures Stamped(r, host, now)
    ensures r.ok <==> Named(Colors, name)
    ensures !r.ok ==> r == NoColor(name, host, now)
    ensures r.ok ==> forall k :: k in r.info <==> k == "color" || IsSystemKey(k)
    ensures r.ok ==> r.info["color"].Record? && r.info["color"].color.name == name
    ensures r.ok ==> r.info["color"].color in Colors
  {
    match Lookup(name)
    case None => NoColor(name, host, now)
    case Some(idx) => OK(map["color" := Record(Colors[idx])], host, now)
  }

  /** The success body shared by /<name>/bg and /<name>/fg: the color's name,
      the last path segment `seg`, and the chosen code, which both routes put
      under the key `fg`. */
  function CodeReply(name: string, seg: string, code: int, host: Option<string>, now: string): (r: RichStatus)
    ensures r.ok && Stamped(r, host, now) && "error" !in r.info
    ensures forall k :: k in r.info <==> k == "color" || k == "path" || k == "fg" || IsSystemKey(k)
    ensures r.info["color"] == Str(name)
    ensures r.info["path"] == Str(seg)
    ensures r.info["fg"] == Int(code)
  {
    OK(map["color" := Str(name), "path" := Str(seg), "fg" := Int(code)], host, now)
  }

  /** GET /<name>/bg: the background code of the named color, under the key `fg`. */
  function ColorBg(name: string, path: string, host: Option<string>, now: string): (r: RichStatus)
    ensures Stamped(r, host, now)
    ensures r.ok <==> Named(Colors, name)
    ensures !r.ok ==> r == NoColor(name, host, now)
    ensures r.ok ==> exists i :: 0 <= i < |Colors| && Colors[i].name == name &&
                                 r == CodeReply(name, LastSegment(path), Colors[i].bgCode, host, now)
  {
    match Lookup(name)
    case None => NoColor(name, host, now)
    case Some(idx) => CodeReply(Colors[idx].name, LastSegment(path), Colors[idx].bgCode, host, now)
  }

  /** GET /<name>/fg: the foreground code of the named color, under the key `fg`. */
  function ColorFg(name: string, path: string, host: Option<string>, now: string): (r: RichStatus)
    ensures Stamped(r, host, now)
    ensures r.ok <==> Named(Colors, name)
    ensures !r.ok ==> r == NoColor(name, host, now)
    ensures r.ok ==> exists i :: 0 <= i < |Colors| && Colors[i].name == name &&
                                 r == CodeReply(name, LastSegment(path), Colors[i].fgCode, host, now)
  {
    match Lookup(name)
    case None => NoColor(name, host, now)
    case Some(idx) => CodeReply(Colors[idx].name, LastSegment(path), Colors[idx].fgCode, host, now)
  }

  /** On the name of the record at index `i`, /<name> returns exactly that
      record and the code routes return exactly its codes. */
  lemma KnownColorReplies(name: string, i: nat, path: string, host: Option<string>, now: string)
    requires i < |Colors| && Colors[i].name == name
    ensures SpecificColor(name, host, now).info["color"] == Record(Colors[i])
    ensures ColorBg(name, path, host, now) == CodeReply(name, LastSegment(path), Colors[i].bgCode, host, now)
    ensures ColorFg(name, path, host, now) == CodeReply(name, LastSegment(path), Colors[i].fgCode, host, now)
  {
    LookupFindsIndex(i);
  }
}
