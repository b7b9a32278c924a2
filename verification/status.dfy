/** The RichStatus envelope: an ok/failure flag plus a key/value `info` map
    that every construction stamps with the host name, the creation time and
    the service version. */
module Status {
  import opened Wrappers
  import opened Catalog

  /** A JSON-serialisable value held in an envelope's `info` map. */
  datatype Value =
    | Null
    | Bool(b: bool)
    | Int(i: int)
    | Str(s: string)
    | Record(color: ColorRecord)

  /** The service version stamped into every envelope. */
  const Version: string := "1.4"

  /** The `hostname` field: the HOSTNAME environment value, or null when it is unset. */
  function HostValue(host: Option<string>): Value {
    match host
    case None => Null
    case Some(h) => Str(h)
  }

  /** The three fields the constructor writes over whatever the caller passed. */
  predicate IsSystemKey(k: string) {
    k == "hostname" || k == "time" || k == "version"
  }

  datatype RichStatus = RichStatus(ok: bool, info: map<string, Value>)

  /** Flattens the envelope into one dictionary: `ok` first, then every
      `info` entry, an `info` entry winning over `ok` on a clash. */
  function ToDict(rs: RichStatus): (d: map<string, Value>)
    ensures forall k :: k in d <==> k in rs.info || k == "ok"
    ensures forall k :: k in rs.info ==> d[k] == rs.info[k]
    ensures "ok" !in rs.info ==> d["ok"] == Bool(rs.ok)
  {
    map["ok" := Bool(rs.ok)] + rs.info
  }

  /** Truth value of the envelope (Python 3 `__bool__`): the flag, which is
      what the flattened dictionary reports under `ok`. */
  function Truthy(rs: RichStatus): (b: bool)
    ensures "ok" !in rs.info ==> (b <==> ToDict(rs)["ok"] == Bool(true))
  {
    rs.ok
  }

  /** Membership (`__contains__`) asks the `info` map, not the flag: `ok`
      is a member only when `info` has its own `ok` field, and every other
      key is a member exactly when the flattened dictionary has it. */
  function Contains(rs: RichStatus, key: string): (b: bool)
    ensures key == "ok" ==> (b <==> "ok" in rs.info)
    ensures key != "ok" ==> (b <==> key in ToDict(rs))
  {
    key in rs.info
  }

  /** Every envelope the constructor builds holds the host name `host`, the
      time `now` and the service version in its three system fields, and
      leaves `ok` to the flag. */
  ghost predicate Stamped(rs: RichStatus, host: Option<string>, now: string) {
    && "hostname" in rs.info && rs.info["hostname"] == HostValue(host)
    && "time" in rs.info && rs.info["time"] == Str(now)
    && "version" in rs.info && rs.info["version"] == Str(Version)
    && "ok" !in rs.info
  }

  /** The constructor: `kwargs` become `info`, then the host name, the time
      `now` and the version are written over any same-named caller fields.
      A caller cannot pass a keyword named `ok`: it would collide with the
      positional flag. */
  function Make(ok: bool, kwargs: map<string, Value>, host: Option<string>, now: string): (r: RichStatus)
    requires "ok" !in kwargs
    ensures r.ok == ok
    ensures Stamped(r, host, now)
    ensures forall k :: k in r.info <==> k in kwargs || IsSystemKey(k)
    ensures r.info["hostname"] == HostValue(host)
    ensures r.info["time"] == Str(now)
    ensures r.info["version"] == Str(Version)
    ensures forall k :: k in kwargs && !IsSystemKey(k) ==> r.info[k] == kwargs[k]
  {
    RichStatus(ok, kwargs["hostname" := HostValue(host)]["time" := Str(now)]["version" := Str(Version)])
  }

  /** A success envelope carrying the caller's fields. */
  function OK(kwargs: map<string, Value>, host: Option<string>, now: string): (r: RichStatus)
    requires "ok" !in kwargs
    ensures r.ok && Stamped(r, host, now)
    ensures forall k :: k in r.info <==> k in kwargs || IsSystemKey(k)
    ensures forall k :: k in kwargs && !IsSystemKey(k) ==> r.info[k] == kwargs[k]
  {
    Make(true, kwargs, host, now)
  }

  /** A failure envelope: the caller's fields plus `error` set to the message. */
  function FromError(error: string, kwargs: map<string, Value>, host: Option<string>, now: string): (r: RichStatus)
    requires "ok" !in kwargs
    ensures !r.ok && Stamped(r, host, now)
    ensures forall k :: k in r.info <==> k in kwargs || k == "error" || IsSystemKey(k)
    ensures r.info["error"] == Str(error)
    ensures forall k :: k in kwargs && k != "error" && !IsSystemKey(k) ==> r.info[k] == kwargs[k]
  {
    Make(false, kwargs["error" := Str(error)], host, now)
  }

  /** Reads an envelope back out of a flattened dictionary; None when the
      dictionary has no boolean `ok`. */
  function FromDict(d: map<string, Value>): (r: Option<RichStatus>)
    ensures r.Some? <==> "ok" in d && d["ok"].Bool?
    ensures r.Some? ==> r.value.ok == d["ok"].b && "ok" !in r.value.info
    ensures r.Some? ==> r.value.info.Keys + {"ok"} == d.Keys
    ensures r.Some? ==> forall k :: k in r.value.info ==> r.value.info[k] == d[k]
  {
    if "ok" in d && d["ok"].Bool? then Some(RichStatus(d["ok"].b, d - {"ok"})) else None
  }

  /** Flattening loses nothing: an envelope without an `ok` info field is
      recovered from its dictionary. */
  lemma ToDictRoundTrip(rs: RichStatus)
    requires "ok" !in rs.info
    ensures FromDict(ToDict(rs)) == Some(rs)
  {
    var d := ToDict(rs);
    assert d - {"ok"} == rs.info;
  }

  /** Whatever the caller passes, the envelope's dictionary holds `ok` and the
      three system fields with the constructor's values. */
  lemma MakeDictHasSystemFields(ok: bool, kwargs: map<string, Value>, host: Option<string>, now: string)
    requires "ok" !in kwargs
    ensures var d := ToDict(Make(ok, kwargs, host, now));
      && d["ok"] == Bool(ok)
      && d["hostname"] == HostValue(host)
      && d["time"] == Str(now)
      && d["version"] == Str(Version)
  {
  }
}
