/** Values shared by the models of the scrapers: optional values, decoded JSON,
    API keys and the string tests the scrapers use on names. */
module Common {

  datatype Option<+T> = None | Some(value: T)

  /** A decoded JSON value. Records (events, transactions) are passed through
      unchanged: no scraper looks inside one. Numbers keep their text. */
  datatype Json =
    | JNull
    | JBool(b: bool)
    | JNumber(text: string)
    | JString(s: string)
    | JArray(items: seq<Json>)
    | JObject(members: seq<(string, Json)>)

  /** An API credential. */
  type Key = string

  /** `str.startswith` */
  predicate StartsWith(s: string, prefix: string)
  {
    |prefix| <= |s| && s[..|prefix|] == prefix
  }

  /** `str.endswith` */
  predicate EndsWith(s: string, suffix: string)
  {
    |suffix| <= |s| && s[|s| - |suffix|..] == suffix
  }

  /** The temporary file every atomic write fills before `os.replace` moves it over `name`. */
  function TempPath(name: string): string
  {
    name + ".tmp"
  }

  /** The directory after an atomic write of `content` to `name`: the temporary file
      is written, then renamed over `name`, so it does not survive. */
  function AtomicWrite<T>(dir: map<string, T>, name: string, content: T): (r: map<string, T>)
    ensures name in r && r[name] == content
    ensures TempPath(name) !in r
    ensures forall f :: f in dir && f != name && f != TempPath(name) ==> f in r && r[f] == dir[f]
    ensures forall f :: f in r ==> f in dir || f == name
  {
    (dir - {TempPath(name)})[name := content]
  }
}
