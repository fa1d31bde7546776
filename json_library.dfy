/** Selection of the JSON media support from the `app.json-library`
    configuration key (Main.java, enum JsonLibrary and getJsonLibrary). */
module JsonLibraries {
  import opened Wrappers

  /** The closed set of JSON libraries the application can register. */
  datatype JsonLibrary = JSONP | JSONB | JACKSON

  /** The configuration key the library is read from. */
  const JsonLibraryKey := "app.json-library"

  /** What a configuration lookup sees at one key: no node at all, or a node
      that exists and may or may not carry a direct string value. */
  datatype ConfigNode = Missing | Present(value: Option<string>)

  /** The exceptions that abort start-up while the library is resolved. */
  datatype ConfigError =
    | MissingValue(key: string)    // the node exists but has no string value
    | NoEnumConstant(name: string) // Enum.valueOf found no constant of that name

  /** The constant's declared name, as the enum's name() gives it. */
  function Name(lib: JsonLibrary): (r: string)
    ensures |r| > 0
    ensures forall i :: 0 <= i < |r| ==> 'A' <= r[i] <= 'Z'
  {
    match lib
    case JSONP => "JSONP"
    case JSONB => "JSONB"
    case JACKSON => "JACKSON"
  }

  /** One character upper-cased, ASCII letters only. */
  function UpperChar(c: char): char
  {
    if 'a' <= c <= 'z' then (c as int - 'a' as int + 'A' as int) as char else c
  }

  /** String.toUpperCase restricted to ASCII: every character is upper-cased
      on its own and the length is kept. */
  function ToUpper(s: string): (r: string)
    ensures |r| == |s|
    ensures forall i :: 0 <= i < |s| ==> r[i] == UpperChar(s[i])
  {
    if s == [] then [] else [UpperChar(s[0])] + ToUpper(s[1..])
  }

  /** Two strings that differ only in the case of ASCII letters. */
  predicate EqualsIgnoringCase(s: string, t: string)
  {
    |s| == |t| && forall i :: 0 <= i < |s| ==> UpperChar(s[i]) == UpperChar(t[i])
  }

  /** Enum.valueOf: the constant whose name is exactly `name`, or the
      exception when there is none. */
  function ValueOf(name: string): (r: Result<JsonLibrary, ConfigError>)
    ensures r.Ok? <==> exists lib :: Name(lib) == name
    ensures r.Ok? ==> Name(r.value) == name
    ensures r.Err? ==> r.error == NoEnumConstant(name)
  {
    if name == Name(JSONP) then Ok(JSONP)
    else if name == Name(JSONB) then Ok(JSONB)
    else if name == Name(JACKSON) then Ok(JACKSON)
    else Err(NoEnumConstant(name))
  }

  /** getJsonLibrary: an absent node selects JSONP; a present one is
      upper-cased and looked up by exact name, failing when it names no
      constant. A present value never falls back to the default. */
  function GetJsonLibrary(node: ConfigNode): (r: Result<JsonLibrary, ConfigError>)
    ensures node.Missing? ==> r == Ok(JSONP)
    ensures node == Present(None) ==> r == Err(MissingValue(JsonLibraryKey))
    ensures r.Ok? && node.Present? ==> node.value.Some? && ToUpper(node.value.value) == Name(r.value)
  {
    match node
    case Missing => Ok(JSONP)
    case Present(None) => Err(MissingValue(JsonLibraryKey))
    case Present(Some(s)) => ValueOf(ToUpper(s))
  }

  /** Looking up a constant by its own name gives that constant back. */
  lemma ValueOfName(lib: JsonLibrary)
    ensures ValueOf(Name(lib)) == Ok(lib)
  {
    match lib
    case JSONP =>
    case JSONB =>
    case JACKSON =>
  }

  /** A present value selects `lib` exactly when it spells the name of `lib`
      in any mixture of upper and lower case. */
  lemma ResolveIgnoresCase(s: string, lib: JsonLibrary)
    ensures GetJsonLibrary(Present(Some(s))) == Ok(lib) <==> EqualsIgnoringCase(s, Name(lib))
  {
    var n := Name(lib);
    assert forall i :: 0 <= i < |n| ==> UpperChar(n[i]) == n[i];
    if EqualsIgnoringCase(s, n) {
      var u := ToUpper(s);
      assert |u| == |n|;
      assert forall i :: 0 <= i < |u| ==> u[i] == n[i];
      assert u == n;
      ValueOfName(lib);
    }
  }

  /** A present value fails exactly when it spells none of the names, and
      the failure carries the upper-cased value that was looked up. */
  lemma ResolveRejectsUnknown(s: string)
    ensures GetJsonLibrary(Present(Some(s))).Err? <==> forall lib :: !EqualsIgnoringCase(s, Name(lib))
    ensures GetJsonLibrary(Present(Some(s))).Err? ==> GetJsonLibrary(Present(Some(s))).error == NoEnumConstant(ToUpper(s))
  {
    forall lib
      ensures GetJsonLibrary(Present(Some(s))) == Ok(lib) <==> EqualsIgnoringCase(s, Name(lib))
    {
      ResolveIgnoresCase(s, lib);
    }
  }

  /** A present value resolves to the default JSONP only when it spells
      "jsonp": in every other case the result is another constant or an error. */
  lemma PresentValueNeverDefaults(s: string)
    requires !EqualsIgnoringCase(s, "JSONP")
    ensures GetJsonLibrary(Present(Some(s))) != Ok(JSONP)
  {
    ResolveIgnoresCase(s, JSONP);
  }

  /** "jackson", "Jackson" and "JACKSON" all select Jackson. */
  lemma JacksonInAnyCase()
    ensures GetJsonLibrary(Present(Some("jackson"))) == Ok(JACKSON)
    ensures GetJsonLibrary(Present(Some("Jackson"))) == Ok(JACKSON)
    ensures GetJsonLibrary(Present(Some("JACKSON"))) == Ok(JACKSON)
  {
    assert ToUpper("jackson") == "JACKSON";
    assert ToUpper("Jackson") == "JACKSON";
    assert ToUpper("JACKSON") == "JACKSON";
  }

  /** "xml" names no library: it is an error, not the default. */
  lemma XmlIsRejected()
    ensures GetJsonLibrary(Present(Some("xml"))) == Err(NoEnumConstant("XML"))
  {
    assert ToUpper("xml") == "XML";
  }
}
