/** Query strings as the operations build them with `URLSearchParams`: the
    ordered list of name/value pairs, its `toString()` (the
    application/x-www-form-urlencoded serializer of the WHATWG URL Standard,
    section 5.2, with the per-character percent-encoding left abstract as
    `enc`), and the two ways the operations fill the list. */
module QueryStrings {
  import opened JsValues

  type Pairs = seq<(string, string)>

  /** `name=value` after percent-encoding both halves. */
  function EncodePair(enc: string -> string, p: (string, string)): string {
    enc(p.0) + "=" + enc(p.1)
  }

  /** `URLSearchParams.prototype.toString`: encoded pairs joined with `&`. */
  function Serialize(enc: string -> string, pairs: Pairs): string {
    if |pairs| == 0 then ""
    else if |pairs| == 1 then EncodePair(enc, pairs[0])
    else EncodePair(enc, pairs[0]) + "&" + Serialize(enc, pairs[1..])
  }

  /** The serialized string is empty exactly when there are no pairs, since
      every pair contributes its `=`. */
  lemma SerializeEmpty(enc: string -> string, pairs: Pairs)
    ensures Serialize(enc, pairs) == "" <==> pairs == []
  {
    if pairs != [] {
      var first := EncodePair(enc, pairs[0]);
      assert first[|enc(pairs[0].0)|] == '=';
      if |pairs| > 1 {
        assert Serialize(enc, pairs)[|enc(pairs[0].0)|] == '=';
      }
    }
  }

  /** `s.split(c)`. */
  function SplitOn(s: string, c: char): (parts: seq<string>)
    ensures |parts| >= 1
  {
    if |s| == 0 then [""]
    else
      var rest := SplitOn(s[1..], c);
      if s[0] == c then [""] + rest else [[s[0]] + rest[0]] + rest[1..]
  }

  /** The index of the first `c` in `s`. */
  function IndexOf(s: string, c: char): (i: nat)
    requires c in s
    ensures i < |s| && s[i] == c && c !in s[..i]
  {
    if s[0] == c then 0 else 1 + IndexOf(s[1..], c)
  }

  /** The name/value split of one `&`-separated piece: at its first `=`,
      or the whole piece as the name when it has none. */
  function SplitPair(piece: string): (string, string) {
    if '=' in piece then
      var i := IndexOf(piece, '=');
      (piece[..i], piece[i + 1..])
    else (piece, "")
  }

  /** The application/x-www-form-urlencoded parser, without the
      percent-decoding: the pieces between `&`, each split at its first `=`. */
  function Parse(query: string): Pairs {
    if query == "" then []
    else
      var pieces := SplitOn(query, '&');
      seq(|pieces|, i requires 0 <= i < |pieces| => SplitPair(pieces[i]))
  }

  /** The pairs with both halves percent-encoded. */
  function Encoded(enc: string -> string, pairs: Pairs): (r: Pairs)
    ensures |r| == |pairs|
  {
    seq(|pairs|, i requires 0 <= i < |pairs| => (enc(pairs[i].0), enc(pairs[i].1)))
  }

  lemma {:induction false} SplitNoSeparator(s: string, c: char)
    requires c !in s
    ensures SplitOn(s, c) == [s]
    decreases |s|
  {
    if |s| > 0 {
      SplitNoSeparator(s[1..], c);
      assert [s[0]] + s[1..] == s;
    }
  }

  lemma {:induction false} SplitAtSeparator(a: string, c: char, b: string)
    requires c !in a
    ensures SplitOn(a + [c] + b, c) == [a] + SplitOn(b, c)
    decreases |a|
  {
    if |a| == 0 {
      assert (a + [c] + b)[1..] == b;
    } else {
      assert (a + [c] + b)[1..] == a[1..] + [c] + b;
      SplitAtSeparator(a[1..], c, b);
      assert [a[0]] + a[1..] == a;
    }
  }

  lemma {:induction false} IndexAfter(a: string, c: char, b: string)
    requires c !in a
    ensures c in a + [c] + b && IndexOf(a + [c] + b, c) == |a|
    decreases |a|
  {
    assert (a + [c] + b)[|a|] == c;
    if |a| > 0 {
      assert (a + [c] + b)[1..] == a[1..] + [c] + b;
      IndexAfter(a[1..], c, b);
    }
  }

  lemma SplitPairOf(name: string, value: string)
    requires '=' !in name
    ensures SplitPair(name + "=" + value) == (name, value)
  {
    var piece := name + "=" + value;
    assert piece[|name|] == '=';
    IndexAfter(name, '=', value);
    assert piece[..|name|] == name;
    assert piece[|name| + 1..] == value;
  }

  /** The pieces of a serialized list between its `&` separators are the
      encoded pairs, one each. */
  lemma {:induction false} SplitSerialized(enc: string -> string, pairs: Pairs)
    requires forall s :: '&' !in enc(s) && '=' !in enc(s)
    requires pairs != []
    ensures SplitOn(Serialize(enc, pairs), '&') ==
      seq(|pairs|, i requires 0 <= i < |pairs| => EncodePair(enc, pairs[i]))
    decreases |pairs|
  {
    var first := EncodePair(enc, pairs[0]);
    assert '&' !in first by {
      assert forall i :: 0 <= i < |first| ==> first[i] != '&' by {
        forall i | 0 <= i < |first|
          ensures first[i] != '&'
        {
          if i < |enc(pairs[0].0)| {
            assert first[i] == enc(pairs[0].0)[i];
          } else if i > |enc(pairs[0].0)| {
            assert first[i] == enc(pairs[0].1)[i - |enc(pairs[0].0)| - 1];
          }
        }
      }
    }
    if |pairs| == 1 {
      SplitNoSeparator(first, '&');
    } else {
      SplitSerialized(enc, pairs[1..]);
      SplitAtSeparator(first, '&', Serialize(enc, pairs[1..]));
    }
  }

  /** Parsing a serialized list gives back its pairs, in order, as encoded:
      the `&` and `=` joining loses nothing as long as the encoder escapes
      both characters, as the form-urlencoded percent-encode set does. */
  lemma ParseSerialize(enc: string -> string, pairs: Pairs)
    requires forall s :: '&' !in enc(s) && '=' !in enc(s)
    ensures Parse(Serialize(enc, pairs)) == Encoded(enc, pairs)
  {
    SerializeEmpty(enc, pairs);
    if pairs != [] {
      SplitSerialized(enc, pairs);
      forall i | 0 <= i < |pairs|
        ensures SplitPair(EncodePair(enc, pairs[i])) == (enc(pairs[i].0), enc(pairs[i].1))
      {
        SplitPairOf(enc(pairs[i].0), enc(pairs[i].1));
      }
    }
  }

  /** A `URLSearchParams` object: its list of name/value pairs. */
  class SearchParams {
    var list: Pairs

    /** `new URLSearchParams()`. */
    constructor ()
      ensures list == []
    {
      list := [];
    }

    /** `new URLSearchParams(record)`: every own property, in order, its value
        converted with `String`. */
    constructor FromRecord(record: Object)
      ensures list == PassPairs(record)
    {
      list := PassPairs(record);
    }

    /** `params.append(name, value)`. */
    method Append(name: string, value: string)
      modifies this
      ensures list == old(list) + [(name, value)]
    {
      list := list + [(name, value)];
    }

    /** `params.toString()`. */
    function ToString(enc: string -> string): string
      reads this
    {
      Serialize(enc, list)
    }
  }

  /** The pairs `new URLSearchParams(record)` holds. */
  function PassPairs(record: Object): (r: Pairs)
    ensures |r| == |record|
    ensures forall i :: 0 <= i < |record| ==> r[i].0 == record[i].0
  {
    seq(|record|, i requires 0 <= i < |record| => (record[i].0, ToJsString(record[i].1)))
  }

  /** The pair an option contributes when it is hoisted: none when its value is falsy. */
  function Hoisted(options: Object, key: string): Pairs {
    var v := Get(options, key);
    if Truthy(v) then [(key, ToJsString(v))] else []
  }

  /** The keys the destructuring `const { environment, locale, ...rest }`
      (or `{ locale, ...rest }`) takes out of the options. */
  function HoistedKeys(hoistEnvironment: bool): set<string> {
    if hoistEnvironment then {"environment", "locale"} else {"locale"}
  }

  /** The pairs of `rest`: every other option, in order, as `String` values. */
  function RestPairs(options: Object, taken: set<string>): Pairs {
    if |options| == 0 then []
    else
      var last := options[|options| - 1];
      RestPairs(options[..|options| - 1], taken) + (if last.0 in taken then [] else [(last.0, ToJsString(last.1))])
  }

  /** The query of the entry operations: `environment` when truthy (only
      where it is hoisted), then `locale` when truthy, then the rest. */
  function OptionPairs(options: Object, hoistEnvironment: bool): Pairs {
    (if hoistEnvironment then Hoisted(options, "environment") else [])
    + Hoisted(options, "locale")
    + RestPairs(options, HoistedKeys(hoistEnvironment))
  }

  /** The query string `getEntry` and its siblings build: a fresh
      `URLSearchParams`, the conditional appends of the hoisted options, then
      one append per remaining option. */
  method OptionQuery(options: Object, hoistEnvironment: bool, enc: string -> string) returns (query: string)
    ensures query == Serialize(enc, OptionPairs(options, hoistEnvironment))
  {
    var environment := Get(options, "environment");
    var locale := Get(options, "locale");
    var taken := HoistedKeys(hoistEnvironment);
    var params := new SearchParams();
    if hoistEnvironment && Truthy(environment) {
      params.Append("environment", ToJsString(environment));
    }
    if Truthy(locale) {
      params.Append("locale", ToJsString(locale));
    }
    ghost var hoisted := params.list;
    assert hoisted == (if hoistEnvironment then Hoisted(options, "environment") else []) + Hoisted(options, "locale");
    for i := 0 to |options|
      invariant params.list == hoisted + RestPairs(options[..i], taken)
    {
      var (key, value) := options[i];
      assert options[..i + 1][..i] == options[..i];
      assert RestPairs(options[..i + 1], taken) ==
        RestPairs(options[..i], taken) + (if key in taken then [] else [(key, ToJsString(value))]);
      if key !in taken {
        params.Append(key, ToJsString(value));
      }
    }
    assert options[..|options|] == options;
    assert params.list == OptionPairs(options, hoistEnvironment);
    query := params.ToString(enc);
  }

  /** The query string of `getEntries` and `getAssets`:
      `new URLSearchParams(query).toString()`. */
  method PassQuery(query: Object, enc: string -> string) returns (queryString: string)
    ensures queryString == Serialize(enc, PassPairs(query))
  {
    var params := new SearchParams.FromRecord(query);
    queryString := params.ToString(enc);
  }

  /** Where the options hold neither hoisted key, the entry operations pass
      every option through in order, like `new URLSearchParams(options)`. */
  lemma {:induction false} RestWithoutTakenKeys(options: Object, taken: set<string>)
    requires forall i :: 0 <= i < |options| ==> options[i].0 !in taken
    ensures RestPairs(options, taken) == PassPairs(options)
    decreases |options|
  {
    if |options| > 0 {
      var init := options[..|options| - 1];
      RestWithoutTakenKeys(init, taken);
    }
  }

  /** The remaining options never carry a hoisted key. */
  lemma {:induction false} RestPairsAvoid(options: Object, taken: set<string>)
    ensures forall i :: 0 <= i < |RestPairs(options, taken)| ==> RestPairs(options, taken)[i].0 !in taken
    decreases |options|
  {
    if |options| > 0 {
      RestPairsAvoid(options[..|options| - 1], taken);
    }
  }

  /** A hoisted option appears in the query only when its value is truthy,
      and then once, in its fixed place: `environment` first, `locale` right
      after it (first when `environment` is absent or falsy). A falsy one is
      dropped, never moved among the other options. */
  lemma HoistedPlacement(options: Object)
    ensures var q := OptionPairs(options, true);
      var env, loc := Get(options, "environment"), Get(options, "locale");
      var at := if Truthy(env) then 1 else 0;
      && (Truthy(env) ==> q[0] == ("environment", ToJsString(env)))
      && (Truthy(loc) ==> q[at] == ("locale", ToJsString(loc)))
      && (forall i :: 0 <= i < |q| && q[i].0 == "environment" ==> Truthy(env) && i == 0)
      && (forall i :: 0 <= i < |q| && q[i].0 == "locale" ==> Truthy(loc) && i == at)
  {
    RestPairsAvoid(options, HoistedKeys(true));
  }

  /** The options without any property named `k`, in order. */
  function Without(options: Object, k: string): (r: Object)
    ensures forall i :: 0 <= i < |r| ==> r[i].0 != k
    ensures |r| <= |options|
  {
    if |options| == 0 then []
    else
      var last := options[|options| - 1];
      Without(options[..|options| - 1], k) + (if last.0 == k then [] else [last])
  }

  lemma PassPairsAppend(a: Object, b: Object)
    ensures PassPairs(a + b) == PassPairs(a) + PassPairs(b)
  {
  }

  /** What remains after `const { locale, ...rest }` is every option but
      `locale`, in insertion order. */
  lemma {:induction false} LocaleRest(options: Object)
    ensures RestPairs(options, HoistedKeys(false)) == PassPairs(Without(options, "locale"))
    decreases |options|
  {
    if |options| > 0 {
      var init, last := options[..|options| - 1], options[|options| - 1];
      LocaleRest(init);
      PassPairsAppend(Without(init, "locale"), if last.0 == "locale" then [] else [last]);
    }
  }

  /** `localizeEntry` hoists only `locale`: its query is `locale` when
      truthy, then every other option in insertion order, `environment`
      included wherever it was given. */
  lemma LocalizeKeepsEnvironment(options: Object)
    ensures OptionPairs(options, false) == Hoisted(options, "locale") + PassPairs(Without(options, "locale"))
  {
    LocaleRest(options);
  }

  /** For instance, `{ a: "1", environment: "dev", locale: "en" }` gives
      `locale=en`, then `a=1`, then `environment=dev`. */
  lemma LocalizeExample()
    ensures OptionPairs([("a", Str("1")), ("environment", Str("dev")), ("locale", Str("en"))], false)
         == [("locale", "en"), ("a", "1"), ("environment", "dev")]
  {
    var options := [("a", Str("1")), ("environment", Str("dev")), ("locale", Str("en"))];
    LocalizeKeepsEnvironment(options);
    assert options[..2][..1] == [("a", Str("1"))];
    assert Without(options, "locale") == [("a", Str("1")), ("environment", Str("dev"))];
  }

  /** Options naming neither `environment` nor `locale` go into the entry
      operations' query exactly as `new URLSearchParams(options)` would put them. */
  lemma EntryOptionsPassThrough(options: Object)
    requires forall i :: 0 <= i < |options| ==> options[i].0 != "environment" && options[i].0 != "locale"
    ensures OptionPairs(options, true) == PassPairs(options)
  {
    RestWithoutTakenKeys(options, HoistedKeys(true));
    GetAbsent(options, "locale");
    GetAbsent(options, "environment");
  }

  lemma {:induction false} GetAbsent(o: Object, k: string)
    requires forall i :: 0 <= i < |o| ==> o[i].0 != k
    ensures Get(o, k) == Undefined
    decreases |o|
  {
    if |o| > 0 {
      GetAbsent(o[1..], k);
    }
  }
}
