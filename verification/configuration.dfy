/**
 * The application settings object of src/configuration.py.
 *
 * `load_from_file` reads a JSON document and overwrites each of the five
 * settings whose key the document holds; `save_to_file` writes the five
 * settings back as one JSON object. Opening, reading and writing the file and
 * the JSON text itself are not modelled: `LoadFromFile` takes the decoded
 * document and `SaveToFile` returns the object it would write.
 */
module AppConfiguration {

  /** A decoded JSON value (numbers are integers here). */
  datatype Json =
    | JNull
    | JBool(b: bool)
    | JNumber(n: int)
    | JString(s: string)
    | JArray(items: seq<Json>)
    | JObject(fields: map<string, Json>)

  const MaxThreadsKey := "max_threads"
  const TimeoutKey := "timeout"
  const UserAgentKey := "user_agent"
  const ProxiesKey := "proxies"
  const VerifySslKey := "verify_ssl"

  /** The five keys the settings are read from and written to. */
  const Keys: set<string> := {MaxThreadsKey, TimeoutKey, UserAgentKey, ProxiesKey, VerifySslKey}

  const DefaultUserAgent := "Mozilla/5.0 (Windows NT 10.0; Win64; x64) AppleWebKit/537.36 (KHTML, like Gecko) Chrome/58.0.3029.110 Safari/537.3"

  /**
   * The values of the five settings. Python does not check what a loaded
   * document puts in them, so each one is whatever JSON value it was given.
   */
  datatype Settings = Settings(maxThreads: Json, timeout: Json, userAgent: Json, proxies: Json, verifySsl: Json)

  /** The setting stored under `key`; `JNull` for a key that names no setting. */
  function Field(s: Settings, key: string): Json {
    if key == MaxThreadsKey then s.maxThreads
    else if key == TimeoutKey then s.timeout
    else if key == UserAgentKey then s.userAgent
    else if key == ProxiesKey then s.proxies
    else if key == VerifySslKey then s.verifySsl
    else JNull
  }

  /** `data.get(key, current)`. */
  function Get(data: map<string, Json>, key: string, current: Json): Json {
    if key in data then data[key] else current
  }

  /** The settings after loading `data` over `s`: each present key overwrites its setting, every absent key keeps it. */
  function Merge(s: Settings, data: map<string, Json>): (r: Settings)
    ensures forall key :: key in Keys ==> Field(r, key) == if key in data then data[key] else Field(s, key)
  {
    Settings(Get(data, MaxThreadsKey, s.maxThreads),
             Get(data, TimeoutKey, s.timeout),
             Get(data, UserAgentKey, s.userAgent),
             Get(data, ProxiesKey, s.proxies),
             Get(data, VerifySslKey, s.verifySsl))
  }

  /** The object `save_to_file` writes: exactly the five keys, each bound to its setting. */
  function ToJson(s: Settings): (r: map<string, Json>)
    ensures r.Keys == Keys
    ensures forall key :: key in Keys ==> r[key] == Field(s, key)
  {
    map[MaxThreadsKey := s.maxThreads, TimeoutKey := s.timeout, UserAgentKey := s.userAgent,
        ProxiesKey := s.proxies, VerifySslKey := s.verifySsl]
  }

  /** Two settings records that agree on every key are the same record. */
  lemma FieldsDetermine(a: Settings, b: Settings)
    requires forall key :: key in Keys ==> Field(a, key) == Field(b, key)
    ensures a == b
  {
    assert Field(a, MaxThreadsKey) == Field(b, MaxThreadsKey);
    assert Field(a, TimeoutKey) == Field(b, TimeoutKey);
    assert Field(a, UserAgentKey) == Field(b, UserAgentKey);
    assert Field(a, ProxiesKey) == Field(b, ProxiesKey);
    assert Field(a, VerifySslKey) == Field(b, VerifySslKey);
  }

  /** Loading an empty document changes nothing. */
  lemma MergeEmpty(s: Settings)
    ensures Merge(s, map[]) == s
  {
    FieldsDetermine(Merge(s, map[]), s);
  }

  /** Loading the same document twice is the same as loading it once. */
  lemma MergeIdempotent(s: Settings, data: map<string, Json>)
    ensures Merge(Merge(s, data), data) == Merge(s, data)
  {
    FieldsDetermine(Merge(Merge(s, data), data), Merge(s, data));
  }

  /** Keys other than the five are ignored. */
  lemma MergeIgnoresOtherKeys(s: Settings, data: map<string, Json>)
    ensures Merge(s, data) == Merge(s, map key | key in data && key in Keys :: data[key])
  {
    FieldsDetermine(Merge(s, data), Merge(s, map key | key in data && key in Keys :: data[key]));
  }

  /** Saving `a` and loading what was saved over any `b` gives back `a`. */
  lemma SaveThenLoad(a: Settings, b: Settings)
    ensures Merge(b, ToJson(a)) == a
  {
    FieldsDetermine(Merge(b, ToJson(a)), a);
  }

  /** How `load_from_file` ended: the settings were loaded, or the document was not an object. */
  datatype LoadOutcome = Loaded | NotAnObject

  class Configuration {
    var maxThreads: Json
    var timeout: Json
    var userAgent: Json
    var proxies: Json
    var verifySsl: Json

    /** The five settings as one value. */
    function Current(): Settings
      reads this
    {
      Settings(maxThreads, timeout, userAgent, proxies, verifySsl)
    }

    /** Ten threads, a five-second timeout, the fixed browser user agent, no proxies, TLS checks on. */
    constructor ()
      ensures Current() == Settings(JNumber(10), JNumber(5), JString(DefaultUserAgent), JNull, JBool(true))
    {
      maxThreads := JNumber(10);
      timeout := JNumber(5);
      userAgent := JString(DefaultUserAgent);
      proxies := JNull;
      verifySsl := JBool(true);
    }

    /**
     * Loads the decoded document `doc`. An object is merged key by key over
     * the current settings. Any other JSON value has no `get`, so the first
     * lookup raises and nothing changes.
     */
    method LoadFromFile(doc: Json) returns (outcome: LoadOutcome)
      modifies this
      ensures doc.JObject? ==> outcome == Loaded && Current() == Merge(old(Current()), doc.fields)
      ensures !doc.JObject? ==> outcome == NotAnObject && Current() == old(Current())
    {
      if !doc.JObject? {
        return NotAnObject;
      }
      var data := doc.fields;
      maxThreads := Get(data, MaxThreadsKey, maxThreads);
      timeout := Get(data, TimeoutKey, timeout);
      userAgent := Get(data, UserAgentKey, userAgent);
      proxies := Get(data, ProxiesKey, proxies);
      verifySsl := Get(data, VerifySslKey, verifySsl);
      outcome := Loaded;
    }

    /** The object written to the file: exactly the five keys, each bound to the current setting. */
    method SaveToFile() returns (data: Json)
      ensures data == JObject(ToJson(Current()))
      ensures data.fields.Keys == Keys
    {
      data := JObject(map[MaxThreadsKey := maxThreads, TimeoutKey := timeout, UserAgentKey := userAgent,
                          ProxiesKey := proxies, VerifySslKey := verifySsl]);
    }
  }
}
