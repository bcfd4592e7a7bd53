/** Configuration: the nested settings document and its dotted-key lookup
    (`ConfigManager` in decoy_service/utils.py), and the typed view of the
    settings that the orchestrator reads. */
module Config {
  import opened Values
  import opened Text

  /** Following `keys` one by one through nested dicts. A missing key gives
      None (Python's `dict.get`), so the walk goes on from `Null`; reaching
      something that is not a dict while keys remain gives `None`. */
  function Walk(v: Value, keys: seq<string>): (r: Option<Value>)
    ensures keys == [] ==> r == Some(v)
    ensures keys != [] && !v.Dict? ==> r == None
    ensures |keys| == 1 && v.Dict? ==> r == Some(DictGet(v.entries, keys[0]))
    ensures r.None? ==> keys != []
    decreases |keys|
  {
    if keys == [] then Some(v)
    else if v.Dict? then Walk(DictGet(v.entries, keys[0]), keys[1..])
    else None
  }

  /** What `ConfigManager.get` answers once the walk is over: the value,
      unless the walk was cut short or ended on None. */
  function Resolve(walked: Option<Value>, default: Value): (r: Value)
    ensures r == default || (walked == Some(r) && r != Null)
    ensures walked.Some? && walked.value != Null ==> r == walked.value
    ensures walked.None? || walked == Some(Null) ==> r == default
  {
    match walked
    case None => default
    case Some(v) => if v == Null then default else v
  }

  /** The dotted path `key` as the list of keys `get` walks. */
  function KeyPath(key: string): seq<string>
  {
    Split(key, '.')
  }

  class ConfigManager {
    /** The settings document; `{}` until it is loaded. */
    var settings: Value

    constructor()
      ensures settings == Dict(map[])
    {
      settings := Dict(map[]);
    }

    /** `load_settings`: the parsed YAML document replaces the settings
        (reading and parsing the file is not part of this model). */
    method LoadSettings(parsed: Value)
      modifies this
      ensures settings == parsed
    {
      settings := parsed;
    }

    /** `get(key, default)`: walk the dotted key through nested dicts. */
    method Get(key: string, default: Value) returns (r: Value)
      ensures r == Resolve(Walk(settings, KeyPath(key)), default)
      ensures r == default || r != Null
    {
      var keys := KeyPath(key);
      var value := settings;
      for i := 0 to |keys|
        invariant Walk(settings, keys) == Walk(value, keys[i..])
      {
        assert keys[i..][1..] == keys[i + 1..];
        if value.Dict? {
          value := DictGet(value.entries, keys[i]);
        } else {
          return default;
        }
      }
      assert keys[|keys|..] == [];
      r := if value != Null then value else default;
    }
  }

  /** Walking `a + b` is walking `a`, then walking `b` from where it ended. */
  lemma {:induction false} WalkAppend(v: Value, a: seq<string>, b: seq<string>)
    ensures Walk(v, a + b) == (match Walk(v, a) case None => None case Some(w) => Walk(w, b))
    decreases |a|
  {
    if a == [] {
      assert a + b == b;
    } else if v.Dict? {
      assert (a + b)[1..] == a[1..] + b;
      WalkAppend(DictGet(v.entries, a[0]), a[1..], b);
    }
  }

  /** Once a value that is not a dict is reached with keys still to go,
      `get` answers the default. */
  lemma WalkThroughScalar(v: Value, keys: seq<string>, k: nat, default: Value)
    requires k < |keys|
    requires Walk(v, keys[..k]).Some? && !Walk(v, keys[..k]).value.Dict?
    ensures Walk(v, keys) == None
    ensures Resolve(Walk(v, keys), default) == default
  {
    WalkAppend(v, keys[..k], keys[k..]);
    assert keys[..k] + keys[k..] == keys;
  }

  /** A key missing anywhere along the path gives the default. */
  lemma MissingKeyGivesDefault(v: Value, keys: seq<string>, k: nat, default: Value)
    requires k < |keys|
    requires Walk(v, keys[..k]).Some? && Walk(v, keys[..k]).value.Dict?
    requires keys[k] !in Walk(v, keys[..k]).value.entries
    ensures Resolve(Walk(v, keys), default) == default
  {
    WalkAppend(v, keys[..k], keys[k..]);
    assert keys[..k] + keys[k..] == keys;
    assert keys[k..][1..] == keys[k + 1..];
    if k + 1 < |keys| {
      assert Walk(Null, keys[k + 1..]) == None;
    } else {
      assert keys[k + 1..] == [];
    }
  }

  /** When every step lands on a dict that holds the next key, `get` on the
      dotted key answers the value at the end of the path (unless it is
      None). */
  lemma {:induction false} NestedValueFound(v: Value, keys: seq<string>, x: Value)
    requires v.Dict? && |keys| >= 1
    requires |keys| == 1 ==> keys[0] in v.entries && v.entries[keys[0]] == x
    requires |keys| > 1 ==> keys[0] in v.entries && v.entries[keys[0]].Dict?
    requires |keys| > 1 ==> Walk(v.entries[keys[0]], keys[1..]) == Some(x)
    ensures Walk(v, keys) == Some(x)
    ensures x != Null ==> forall d :: Resolve(Walk(v, keys), d) == x
  {
    assert keys[1..] == [] <== |keys| == 1;
  }

  /** `get` on a dotted key walks exactly the dot-free pieces it was built
      from: `get("service.session_duration")` walks `service`, then
      `session_duration`. */
  lemma DottedKeyPath(parts: seq<string>)
    requires |parts| >= 1 && SepFree(parts, '.')
    ensures KeyPath(Join(parts, '.')) == parts
  {
    SplitJoin(parts, '.');
  }

  /** The settings the orchestrator reads, each with the default the source
      supplies when the key is absent (see `Defaults`). */
  datatype Settings = Settings(
    sessionDuration: int,   // service.session_duration, in minutes; 0 means no limit
    headless: bool,         // browser.headless
    browserType: string,    // browser.type
    enableScrolling: bool,  // clicking.enable_scrolling
    clicksPerPageMin: int,  // clicking.clicks_per_page_min
    clicksPerPageMax: int)  // clicking.clicks_per_page_max

  const Defaults := Settings(0, true, "selenium", true, 1, 5)
}
