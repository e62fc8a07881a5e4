/** Resolution of a configured region to the base URL of the Content
    Management API (`REGION_MAPPER` and `getBaseURL` in index.js). */
module Regions {
  import opened JsValues

  /** The six regions the type declarations name. */
  datatype Region = NA | EU | AZURE_NA | AZURE_EU | GCP_NA | GCP_EU

  /** The key a region has in the mapper. */
  function Code(r: Region): string {
    match r
    case NA => "NA"
    case EU => "EU"
    case AZURE_NA => "AZURE_NA"
    case AZURE_EU => "AZURE_EU"
    case GCP_NA => "GCP_NA"
    case GCP_EU => "GCP_EU"
  }

  /** The base URL a region is served from. */
  function Url(r: Region): string {
    match r
    case NA => "https://api.contentstack.io/v3"
    case EU => "https://eu-api.contentstack.com/v3"
    case AZURE_NA => "https://azure-na-api.contentstack.com/v3"
    case AZURE_EU => "https://azure-eu-api.contentstack.com/v3"
    case GCP_NA => "https://gcp-na-api.contentstack.com/v3"
    case GCP_EU => "https://gcp-eu-api.contentstack.com/v3"
  }

  /** `REGION_MAPPER`, in the order of its own keys. */
  const RegionMapper: seq<(string, string)> := [
    ("NA", "https://api.contentstack.io/v3"),
    ("EU", "https://eu-api.contentstack.com/v3"),
    ("AZURE_NA", "https://azure-na-api.contentstack.com/v3"),
    ("AZURE_EU", "https://azure-eu-api.contentstack.com/v3"),
    ("GCP_NA", "https://gcp-na-api.contentstack.com/v3"),
    ("GCP_EU", "https://gcp-eu-api.contentstack.com/v3")
  ]

  /** `REGION_MAPPER[key]`, absent when the mapper has no such key. */
  function Lookup(table: seq<(string, string)>, key: string): (r: Option<string>)
    ensures r.Some? ==> exists i :: 0 <= i < |table| && table[i] == (key, r.value)
    ensures r.None? ==> forall i :: 0 <= i < |table| ==> table[i].0 != key
  {
    if |table| == 0 then None
    else if table[0].0 == key then Some(table[0].1)
    else Lookup(table[1..], key)
  }

  /** `keys.join(sep)`. */
  function Join(keys: seq<string>, sep: string): string {
    if |keys| == 0 then ""
    else if |keys| == 1 then keys[0]
    else keys[0] + sep + Join(keys[1..], sep)
  }

  /** `Object.keys(REGION_MAPPER).join(', ')`. */
  function SupportedList(): string {
    Join(KeysOf(RegionMapper), ", ")
  }

  /** `Object.keys(table)`. */
  function KeysOf(table: seq<(string, string)>): (keys: seq<string>)
    ensures |keys| == |table| && forall i :: 0 <= i < |table| ==> keys[i] == table[i].0
  {
    if |table| == 0 then [] else [table[0].0] + KeysOf(table[1..])
  }

  /** The mapper's keys, in order, are the six codes. */
  lemma MapperKeys()
    ensures KeysOf(RegionMapper) == ["NA", "EU", "AZURE_NA", "AZURE_EU", "GCP_NA", "GCP_EU"]
  {
  }

  lemma JoinCons(head: string, rest: seq<string>, sep: string)
    requires |rest| >= 1
    ensures Join([head] + rest, sep) == head + sep + Join(rest, sep)
  {
    assert ([head] + rest)[1..] == rest;
  }

  lemma JoinSix(a: string, b: string, c: string, d: string, e: string, f: string, sep: string)
    ensures Join([a, b, c, d, e, f], sep) == a + sep + b + sep + c + sep + d + sep + e + sep + f
  {
    JoinCons(e, [f], sep);
    assert [e] + [f] == [e, f];
    JoinCons(d, [e, f], sep);
    assert [d] + [e, f] == [d, e, f];
    JoinCons(c, [d, e, f], sep);
    assert [c] + [d, e, f] == [c, d, e, f];
    JoinCons(b, [c, d, e, f], sep);
    assert [b] + [c, d, e, f] == [b, c, d, e, f];
    JoinCons(a, [b, c, d, e, f], sep);
    assert [a] + [b, c, d, e, f] == [a, b, c, d, e, f];
    assert a + sep + (b + sep + (c + sep + (d + sep + (e + sep + f))))
        == a + sep + b + sep + c + sep + d + sep + e + sep + f;
  }

  /** The list the invalid-region message prints. */
  lemma SupportedListText()
    ensures SupportedList() == "NA" + ", " + "EU" + ", " + "AZURE_NA" + ", " + "AZURE_EU" + ", " + "GCP_NA" + ", " + "GCP_EU"
  {
    MapperKeys();
    JoinSix("NA", "EU", "AZURE_NA", "AZURE_EU", "GCP_NA", "GCP_EU", ", ");
  }

  /** `c.toUpperCase()` for the ASCII letters. */
  function UpperChar(c: char): char {
    if 'a' <= c <= 'z' then (c as int - 32) as char else c
  }

  /** `s.toUpperCase()`. */
  function Upper(s: string): (r: string)
    ensures |r| == |s|
  {
    seq(|s|, i requires 0 <= i < |s| => UpperChar(s[i]))
  }

  /** `getBaseURL(region)`: the mapper's URL for the upper-cased region, or
      the error it throws. A region that is not a string fails on the call
      to `toUpperCase`, with the engine's own wording. */
  function BaseUrl(region: Value): (r: Completion<string>)
  {
    match region
    case Str(s) =>
      (match Lookup(RegionMapper, Upper(s))
       case Some(url) => Ok(url)
       case None => Threw("Invalid region: " + s + ". Supported regions are: " + SupportedList()))
    case Undefined => Threw("Cannot read properties of undefined (reading 'toUpperCase')")
    case Null => Threw("Cannot read properties of null (reading 'toUpperCase')")
    case _ => Threw("region.toUpperCase is not a function")
  }

  /** Each region's code finds that region's URL. */
  lemma LookupCode(r: Region)
    ensures Lookup(RegionMapper, Code(r)) == Some(Url(r))
  {
    match r
    case NA =>
    case EU =>
    case AZURE_NA =>
    case AZURE_EU =>
    case GCP_NA =>
    case GCP_EU =>
  }

  /** Whatever key the mapper has is some region's code. */
  lemma FoundIsCode(key: string)
    requires Lookup(RegionMapper, key).Some?
    ensures exists r :: Code(r) == key
  {
    var i :| 0 <= i < |RegionMapper| && RegionMapper[i].0 == key;
    if i == 0 { assert Code(NA) == key; }
    else if i == 1 { assert Code(EU) == key; }
    else if i == 2 { assert Code(AZURE_NA) == key; }
    else if i == 3 { assert Code(AZURE_EU) == key; }
    else if i == 4 { assert Code(GCP_NA) == key; }
    else { assert Code(GCP_EU) == key; }
  }

  /** The mapper holds exactly the six regions: a key names a region iff it
      is that region's code, and the URL is that region's. */
  lemma MapperMatchesRegions(key: string)
    ensures Lookup(RegionMapper, key).Some? <==> exists r :: Code(r) == key
    ensures forall r :: Code(r) == key ==> Lookup(RegionMapper, key) == Some(Url(r))
  {
    if Lookup(RegionMapper, key).Some? {
      FoundIsCode(key);
    }
    forall r | Code(r) == key
      ensures Lookup(RegionMapper, key) == Some(Url(r))
    {
      LookupCode(r);
    }
  }

  /** A string region resolves exactly when, upper-cased, it is one of the six
      codes, and then to that region's URL; otherwise the error names the
      region as given and the supported codes (`SupportedListText`). */
  lemma BaseUrlOfString(s: string)
    ensures BaseUrl(Str(s)).Ok? <==> exists r :: Code(r) == Upper(s)
    ensures forall r :: Code(r) == Upper(s) ==> BaseUrl(Str(s)) == Ok(Url(r))
    ensures (forall r :: Code(r) != Upper(s)) ==>
      BaseUrl(Str(s)) == Threw("Invalid region: " + s + ". Supported regions are: " + SupportedList())
  {
    MapperMatchesRegions(Upper(s));
  }

  /** Resolution ignores case: two spellings that upper-case alike resolve to
      the same URL, or both fail. */
  lemma BaseUrlCaseInsensitive(s: string, t: string)
    requires Upper(s) == Upper(t)
    ensures BaseUrl(Str(s)).Ok? == BaseUrl(Str(t)).Ok?
    ensures BaseUrl(Str(s)).Ok? ==> BaseUrl(Str(s)) == BaseUrl(Str(t))
  {
  }

  /** Upper-casing a code changes nothing, so every code, in any ASCII case,
      resolves to its own region's URL. */
  lemma {:induction false} CodeResolves(r: Region, s: string)
    requires Upper(s) == Code(r)
    ensures BaseUrl(Str(s)) == Ok(Url(r))
  {
    BaseUrlOfString(s);
  }

}
