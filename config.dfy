/**
 * The configuration store: a key/value map loaded once from a packaged
 * resource, and a lookup that rewrites path separators in the values of
 * keys naming a path or a directory.
 */
module Config {
  import opened Wrappers
  import opened Text

  /** The host's `File.separator`, passed in rather than looked up. */
  type Separator = c: char | c == '/' || c == '\\' witness '/'

  predicate IsSeparator(c: char)
  {
    c == '/' || c == '\\'
  }

  /** `s.replace(from, to)` for one-character strings. */
  function Replace(s: string, from: char, to: char): (r: string)
    ensures |r| == |s|
    ensures forall i :: 0 <= i < |s| ==> r[i] == if s[i] == from then to else s[i]
  {
    if s == [] then [] else [if s[0] == from then to else s[0]] + Replace(s[1..], from, to)
  }

  /** `value.replace("/", sep).replace("\\", sep)`: every separator, of either kind, becomes the host's. */
  function Normalize(s: string, sep: Separator): (r: string)
    ensures |r| == |s|
    ensures forall i :: 0 <= i < |s| ==> r[i] == if IsSeparator(s[i]) then sep else s[i]
    ensures forall i :: 0 <= i < |r| && IsSeparator(r[i]) ==> r[i] == sep
  {
    Replace(Replace(s, '/', sep), '\\', sep)
  }

  /** Rewriting a rewritten value changes nothing. */
  lemma NormalizeIdempotent(s: string, sep: Separator)
    ensures Normalize(Normalize(s, sep), sep) == Normalize(s, sep)
  {
    var once := Normalize(s, sep);
    assert forall i :: 0 <= i < |once| ==> Normalize(once, sep)[i] == once[i];
  }

  /** Only the values of keys mentioning "path" or "directory" (case-sensitively) are rewritten. */
  predicate IsPathKey(key: string)
    ensures IsPathKey(key) <==>
              exists i: nat :: OccursAt(key, "path", i) || OccursAt(key, "directory", i)
  {
    ContainsIffOccurs(key, "path");
    ContainsIffOccurs(key, "directory");
    Contains(key, "path") || Contains(key, "directory")
  }

  datatype ConfigError =
    | NotInitialized   // a lookup before any load
    | ResourceMissing  // config.properties is not on the classpath
    | LoadFailed       // reading the resource failed part-way

  /** What the class loader finds under the name config.properties. */
  datatype Resource =
    | Missing
    | Unreadable(readBeforeFailure: map<string, string>)
    | Readable(entries: map<string, string>)

  class ConfigReader {
    /** The static `properties` field; `None` until a load has run. */
    var properties: Option<map<string, string>>

    /** The state before the static initialiser's load. */
    constructor ()
      ensures properties == None
    {
      properties := None;
    }

    /**
     * `loadProperties`: the field is set to an empty table before the
     * resource is looked at, so a failed load leaves it empty (or holding
     * what was read before the failure), never unset.
     */
    method LoadProperties(resource: Resource) returns (r: Result<map<string, string>, ConfigError>)
      modifies this
      ensures resource.Missing? ==> properties == Some(map[]) && r == Failure(ResourceMissing)
      ensures resource.Unreadable? ==>
                properties == Some(resource.readBeforeFailure) && r == Failure(LoadFailed)
      ensures resource.Readable? ==> properties == Some(resource.entries) && r == Success(resource.entries)
    {
      properties := Some(map[]);
      match resource
      case Missing =>
        r := Failure(ResourceMissing);
      case Unreadable(partial) =>
        properties := Some(partial);
        r := Failure(LoadFailed);
      case Readable(entries) =>
        properties := Some(entries);
        r := Success(entries);
    }

    /** `getProperty(key)` on a host whose separator is `sep`. */
    function GetProperty(key: string, sep: Separator): (r: Result<Option<string>, ConfigError>)
      reads this
      ensures r.Failure? <==> properties.None?
      ensures r.Failure? ==> r.error == NotInitialized
      ensures r.Success? ==> (r.value.Some? <==> key in properties.value)
      ensures r.Success? && r.value.Some? && !IsPathKey(key) ==> r.value.value == properties.value[key]
      ensures r.Success? && r.value.Some? && IsPathKey(key) ==>
                var stored := properties.value[key];
                && |r.value.value| == |stored|
                && (forall i :: 0 <= i < |stored| ==>
                      r.value.value[i] == if IsSeparator(stored[i]) then sep else stored[i])
                && (forall i :: 0 <= i < |stored| && IsSeparator(r.value.value[i]) ==> r.value.value[i] == sep)
                && Normalize(r.value.value, sep) == r.value.value
    {
      match properties
      case None => Failure(NotInitialized)
      case Some(table) =>
        if key !in table then Success(None)
        else if IsPathKey(key) then
          NormalizeIdempotent(table[key], sep);
          Success(Some(Normalize(table[key], sep)))
        else Success(Some(table[key]))
    }
  }

  /**
   * A lookup after a load: a readable resource answers from its entries;
   * after a failed load every lookup finds no value rather than failing
   * with "not initialised", since the slot already holds an empty table.
   */
  method LoadThenLookup(c: ConfigReader, resource: Resource, key: string, sep: Separator)
    returns (loaded: Result<map<string, string>, ConfigError>, r: Result<Option<string>, ConfigError>)
    modifies c
    ensures r.Success?
    ensures resource.Missing? ==> loaded == Failure(ResourceMissing) && r == Success(None)
    ensures resource.Unreadable? ==>
              loaded == Failure(LoadFailed) && (r.value.Some? <==> key in resource.readBeforeFailure)
    ensures resource.Readable? ==> loaded.Success? && (r.value.Some? <==> key in resource.entries)
    ensures resource.Readable? && key in resource.entries && !IsPathKey(key) ==>
              r.value == Some(resource.entries[key])
  {
    loaded := c.LoadProperties(resource);
    r := c.GetProperty(key, sep);
  }
}
