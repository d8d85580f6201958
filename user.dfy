/** The search-result formatter for users: every field of a search hit, a JSON
    object, is turned into display text by `get_val`. */
module User {
  import opened Strings

  /** A JSON value, as far as `get_val` looks at it: `null`, or any other value
      with the text `Value::to_string` renders it as (a string renders quoted
      and escaped, a number or object as its JSON text). */
  datatype Value = Null | Rendered(text: string)

  type JsonObject = map<string, Value>

  /** What `get_val` does with a value it found: `null` becomes empty; anything
      else loses every leading and trailing `"` and then every backslash. */
  function Clean(v: Value): (r: string)
    ensures '\\' !in r
    ensures v.Null? ==> r == []
    ensures v.Rendered? ==> |r| <= |v.text|
  {
    match v
    case Null => ""
    case Rendered(text) => RemoveAll(TrimMatches(text, Exactly('"')), '\\')
  }

  /** `get_val`: the cleaned value under `name`, or empty when there is none. */
  function GetVal(m: JsonObject, name: string): (r: string)
    ensures '\\' !in r
    ensures name !in m ==> r == []
    ensures name in m && m[name].Null? ==> r == []
    ensures name in m && m[name].Rendered? ==> |r| <= |m[name].text|
  {
    if name in m then Clean(m[name]) else ""
  }

  /** Without backslashes to delete, the result is the rendered text with
      every quote around it stripped, all of them and not one per side
      (`Strings.TrimMatchesKeepsMiddle` says what is kept). */
  lemma CleanStripsAllQuotes(text: string)
    requires '\\' !in text
    ensures Clean(Rendered(text)) == TrimMatches(text, Exactly('"'))
    ensures var r := Clean(Rendered(text));
      r == [] || (r[0] != '"' && r[|r| - 1] != '"')
  {
    var p := Exactly('"');
    var u := TrimStartMatches(text, p);
    var t := TrimEndMatches(u, p);
    NotInSlice(text, |text| - |u|, u, '\\');
    NotInSlice(u, 0, t, '\\');
    assert Clean(Rendered(text)) == RemoveAll(t, '\\');
  }

  lemma NotInSlice(s: string, i: nat, r: string, c: char)
    requires i + |r| <= |s| && r == s[i..i + |r|] && c !in s
    ensures c !in r
  {
    forall k | 0 <= k < |r|
      ensures r[k] != c
    {
      assert r[k] == s[i + k];
    }
  }

  /** The strings `serde_json` writes between the quotes character for
      character: no quote, no backslash and no control character below U+0020,
      which are the ones it escapes. */
  predicate Unescaped(s: string)
  {
    forall k :: 0 <= k < |s| ==> s[k] != '"' && s[k] != '\\' && s[k] >= ' '
  }

  /** A JSON string that needs no escape renders as itself in quotes, and
      `get_val` gives back exactly the string. */
  lemma PlainStringRoundTrip(s: string)
    requires Unescaped(s)
    ensures Clean(Rendered("\"" + s + "\"")) == s
  {
    assert "\"" + s + "\"" == ['"'] + s + ['"'];
    TrimMatchesUnwraps(s, '"');
  }

  /** A string value whose content is `x + "\""`, with `x` needing no escape,
      renders with an escaped quote before the closing one; `get_val` strips
      both quotes and then the backslash, so the content comes back without its
      last character. */
  lemma TrailingQuoteIsLost(x: string)
    requires Unescaped(x)
    ensures Clean(Rendered("\"" + x + "\\\"" + "\"")) == x
  {
    assert "\"" + x + "\\\"" + "\"" == ['"'] + x + ['\\', '"', '"'];
    TrimMatchesStopsAtOther(x, '"', '\\');
    RemoveAllAppend(x, ['\\'], '\\');
    assert RemoveAll(['\\'], '\\') == [];
  }

  /** The formatted fields of a user search hit. */
  datatype UserFormatter = UserFormatter(
    kind: string,
    email: string,
    status: string,
    name: string,
    mobile: string,
    laston: string,
    createdAt: string,
    updatedAt: string)

  /** `From<Map<String, Value>> for UserFormatter`: each field is `get_val` of the
      key of the same name; the `type` key fills `kind`. */
  function FromMap(m: JsonObject): (u: UserFormatter)
    ensures forall j :: 0 <= j < |FORMATTER_KEYS| ==> Fields(u)[j] == GetVal(m, FORMATTER_KEYS[j])
  {
    var k := FORMATTER_KEYS;
    UserFormatter(
      GetVal(m, k[0]), GetVal(m, k[1]), GetVal(m, k[2]), GetVal(m, k[3]),
      GetVal(m, k[4]), GetVal(m, k[5]), GetVal(m, k[6]), GetVal(m, k[7]))
  }

  /** The eight keys the formatter reads. */
  const FORMATTER_KEYS: seq<string> :=
    ["type", "email", "status", "name", "mobile", "laston", "created_at", "updated_at"]

  /** The fields in declaration order, `kind` standing for the `type` key. */
  function Fields(u: UserFormatter): seq<string>
  {
    [u.kind, u.email, u.status, u.name, u.mobile, u.laston, u.createdAt, u.updatedAt]
  }

  /** `m1` and `m2` hold the same thing, or nothing, under `k`. */
  predicate AgreeOn(m1: JsonObject, m2: JsonObject, k: string)
  {
    (k in m1 <==> k in m2) && (k in m1 ==> m1[k] == m2[k])
  }

  /** Two objects that agree on the eight keys give the same formatter; no
      other key matters. */
  lemma FromMapReadsOnlyItsKeys(m1: JsonObject, m2: JsonObject)
    requires forall j :: 0 <= j < |FORMATTER_KEYS| ==> AgreeOn(m1, m2, FORMATTER_KEYS[j])
    ensures FromMap(m1) == FromMap(m2)
  {
    assert AgreeOn(m1, m2, FORMATTER_KEYS[0]) && AgreeOn(m1, m2, FORMATTER_KEYS[1]);
    assert AgreeOn(m1, m2, FORMATTER_KEYS[2]) && AgreeOn(m1, m2, FORMATTER_KEYS[3]);
    assert AgreeOn(m1, m2, FORMATTER_KEYS[4]) && AgreeOn(m1, m2, FORMATTER_KEYS[5]);
    assert AgreeOn(m1, m2, FORMATTER_KEYS[6]) && AgreeOn(m1, m2, FORMATTER_KEYS[7]);
  }

  /** Every field is clean text: no backslash anywhere, and an object without
      the keys gives an all-empty formatter. */
  lemma FromMapFieldsAreClean(m: JsonObject)
    ensures var u := FromMap(m);
      '\\' !in u.kind + u.email + u.status + u.name + u.mobile + u.laston + u.createdAt + u.updatedAt
    ensures m == map[] ==> FromMap(m) == UserFormatter("", "", "", "", "", "", "", "")
  {
    var u := FromMap(m);
    var all := u.kind + u.email + u.status + u.name + u.mobile + u.laston + u.createdAt + u.updatedAt;
    assert forall c :: c in all ==>
      (c in u.kind || c in u.email || c in u.status || c in u.name
       || c in u.mobile || c in u.laston || c in u.createdAt || c in u.updatedAt);
  }
}
