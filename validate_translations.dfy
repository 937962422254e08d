// The translation-completeness script (scripts/validate-translations.cjs):
// flattening a parsed translation file into dotted keys, and comparing every
// language's key set against the base language's. Reading the files and
// exiting the process are not modelled: the locale directory is a map from
// (language, namespace) to what reading and parsing that file gave, and the
// script's verdict is the returned error flag.
module ValidateTranslations {
  import opened Text

  /** A value JSON.parse can produce. Objects keep their members in order. */
  datatype Json =
    | JNull
    | JBool(b: bool)
    | JNumber(x: real)
    | JString(s: string)
    | JArray(items: seq<Json>)
    | JObject(members: seq<Member>)

  datatype Member = Member(key: string, value: Json)

  /** `typeof v === 'object' && v !== null`: arrays count as objects. */
  predicate IsNested(v: Json)
  {
    v.JArray? || v.JObject?
  }

  /** JavaScript truthiness of a parsed value. */
  predicate JsonTruthy(v: Json)
  {
    match v
    case JNull => false
    case JBool(b) => b
    case JNumber(x) => x != 0.0
    case JString(s) => s != ""
    case _ => true
  }

  // ---------------------------------------------------------------------
  // flattenObject
  // ---------------------------------------------------------------------

  /** flattenObject(j, prefix). A `for (key in j)` loop visits an object's
    * keys, an array's indices and -- for a string at the top -- the string's
    * indices; any other value has no keys. Later keys overwrite earlier ones,
    * as Object.assign does. */
  function Flatten(j: Json, prefix: string): (r: map<string, Json>)
    ensures j.JNull? || j.JBool? || j.JNumber? ==> r == map[]
    decreases j, 0
  {
    match j
    case JObject(ms) => FlattenMembers(ms, prefix)
    case JArray(items) => FlattenItems(items, prefix)
    case JString(s) => FlattenChars(s, prefix)
    case _ => map[]
  }

  /** What one visited key adds: a nested value is flattened under
    * `prefix + key + '.'`, anything else becomes the leaf `prefix + key`. */
  function Entry(key: string, value: Json, prefix: string): map<string, Json>
    decreases value, 1
  {
    if IsNested(value) then Flatten(value, prefix + key + ".")
    else map[prefix + key := value]
  }

  function FlattenMembers(ms: seq<Member>, prefix: string): map<string, Json>
    decreases ms, 2
  {
    if |ms| == 0 then map[]
    else
      var last := ms[|ms| - 1];
      FlattenMembers(ms[..|ms| - 1], prefix) + Entry(last.key, last.value, prefix)
  }

  function FlattenItems(items: seq<Json>, prefix: string): map<string, Json>
    decreases items, 2
  {
    if |items| == 0 then map[]
    else
      FlattenItems(items[..|items| - 1], prefix)
        + Entry(NatToString(|items| - 1), items[|items| - 1], prefix)
  }

  function FlattenChars(s: string, prefix: string): map<string, Json>
  {
    if |s| == 0 then map[]
    else
      FlattenChars(s[..|s| - 1], prefix)[prefix + NatToString(|s| - 1) := JString([s[|s| - 1]])]
  }

  /** The shape of a flattened object: every key extends the prefix and every
    * value is a leaf. */
  predicate FlatUnder(r: map<string, Json>, prefix: string)
  {
    forall k :: k in r ==> prefix <= k && !IsNested(r[k])
  }

  lemma {:induction false} FlattenIsFlat(j: Json, prefix: string)
    ensures FlatUnder(Flatten(j, prefix), prefix)
    decreases j, 0
  {
    match j
    case JObject(ms) => MembersAreFlat(ms, prefix);
    case JArray(items) => ItemsAreFlat(items, prefix);
    case JString(s) => CharsAreFlat(s, prefix);
    case _ =>
  }

  lemma {:induction false} EntryIsFlat(key: string, value: Json, prefix: string)
    ensures FlatUnder(Entry(key, value, prefix), prefix)
    decreases value, 1
  {
    if IsNested(value) {
      var p := prefix + key + ".";
      FlattenIsFlat(value, p);
      forall k | k in Flatten(value, p) ensures prefix <= k {
        assert p <= k;
        assert k[..|prefix|] == p[..|prefix|];
      }
    }
  }

  lemma {:induction false} MembersAreFlat(ms: seq<Member>, prefix: string)
    ensures FlatUnder(FlattenMembers(ms, prefix), prefix)
    decreases ms, 2
  {
    if |ms| > 0 {
      MembersAreFlat(ms[..|ms| - 1], prefix);
      EntryIsFlat(ms[|ms| - 1].key, ms[|ms| - 1].value, prefix);
    }
  }

  lemma {:induction false} ItemsAreFlat(items: seq<Json>, prefix: string)
    ensures FlatUnder(FlattenItems(items, prefix), prefix)
    decreases items, 2
  {
    if |items| > 0 {
      ItemsAreFlat(items[..|items| - 1], prefix);
      EntryIsFlat(NatToString(|items| - 1), items[|items| - 1], prefix);
    }
  }

  lemma {:induction false} CharsAreFlat(s: string, prefix: string)
    ensures FlatUnder(FlattenChars(s, prefix), prefix)
  {
    if |s| > 0 {
      CharsAreFlat(s[..|s| - 1], prefix);
    }
  }

  /** The keys of a flattened object are exactly the keys each member
    * contributes, whatever overwrote whatever. */
  lemma {:induction false} MemberKeys(ms: seq<Member>, prefix: string)
    ensures forall k :: k in FlattenMembers(ms, prefix) <==>
      exists i :: 0 <= i < |ms| && k in Entry(ms[i].key, ms[i].value, prefix)
  {
    if |ms| > 0 {
      var init := ms[..|ms| - 1];
      MemberKeys(init, prefix);
      forall k | k in FlattenMembers(ms, prefix)
        ensures exists i :: 0 <= i < |ms| && k in Entry(ms[i].key, ms[i].value, prefix)
      {
        if k !in Entry(ms[|ms| - 1].key, ms[|ms| - 1].value, prefix) {
          assert k in FlattenMembers(init, prefix);
          var i :| 0 <= i < |init| && k in Entry(init[i].key, init[i].value, prefix);
          assert ms[i] == init[i];
        }
      }
      forall k, i | 0 <= i < |ms| && k in Entry(ms[i].key, ms[i].value, prefix)
        ensures k in FlattenMembers(ms, prefix)
      {
        if i < |ms| - 1 {
          assert init[i] == ms[i];
        }
      }
    }
  }

  /** A member whose value is not an object is the leaf `prefix + key`, with
    * its value, unless a later member's keys overwrite it. */
  lemma LeafMember(ms: seq<Member>, prefix: string, i: nat)
    requires i < |ms| && !IsNested(ms[i].value)
    ensures prefix + ms[i].key in FlattenMembers(ms, prefix)
  {
    MemberKeys(ms, prefix);
    assert prefix + ms[i].key in Entry(ms[i].key, ms[i].value, prefix);
  }

  /** A nested member contributes every key of its own flattening, under
    * `prefix + key + '.'`. */
  lemma NestedMember(ms: seq<Member>, prefix: string, i: nat)
    requires i < |ms| && IsNested(ms[i].value)
    ensures Flatten(ms[i].value, prefix + ms[i].key + ".").Keys <= FlattenMembers(ms, prefix).Keys
  {
    MemberKeys(ms, prefix);
    forall k | k in Flatten(ms[i].value, prefix + ms[i].key + ".")
      ensures k in FlattenMembers(ms, prefix)
    {
      assert k in Entry(ms[i].key, ms[i].value, prefix);
    }
  }

  /** Empty objects, and members holding them, contribute no keys. */
  lemma EmptyObjectsContributeNothing(key: string, prefix: string)
    ensures Flatten(JObject([]), prefix) == map[]
    ensures Entry(key, JObject([]), prefix) == map[]
    ensures Entry(key, JArray([]), prefix) == map[]
  {
  }

  /** flattenObject as the script runs it: a loop over the visited keys that
    * recurses into nested values and merges what they return. */
  method FlattenObject(obj: Json, prefix: string) returns (flattened: map<string, Json>)
    ensures flattened == Flatten(obj, prefix)
    decreases obj
  {
    flattened := map[];
    match obj {
      case JObject(ms) =>
        var i := 0;
        while i < |ms|
          invariant 0 <= i <= |ms|
          invariant flattened == FlattenMembers(ms[..i], prefix)
        {
          var m := ms[i];
          if IsNested(m.value) {
            var sub := FlattenObject(m.value, prefix + m.key + ".");
            flattened := flattened + sub;
          } else {
            flattened := flattened[prefix + m.key := m.value];
          }
          assert ms[..i + 1][..i] == ms[..i];
          i := i + 1;
        }
        assert ms[..i] == ms;
      case JArray(items) =>
        var i := 0;
        while i < |items|
          invariant 0 <= i <= |items|
          invariant flattened == FlattenItems(items[..i], prefix)
        {
          var v := items[i];
          var key := NatToString(i);
          if IsNested(v) {
            var sub := FlattenObject(v, prefix + key + ".");
            flattened := flattened + sub;
          } else {
            flattened := flattened[prefix + key := v];
          }
          assert items[..i + 1][..i] == items[..i];
          i := i + 1;
        }
        assert items[..i] == items;
      case JString(s) =>
        var i := 0;
        while i < |s|
          invariant 0 <= i <= |s|
          invariant flattened == FlattenChars(s[..i], prefix)
        {
          flattened := flattened[prefix + NatToString(i) := JString([s[i]])];
          assert s[..i + 1][..i] == s[..i];
          i := i + 1;
        }
        assert s[..i] == s;
      case _ =>
    }
  }

  // ---------------------------------------------------------------------
  // validateTranslations
  // ---------------------------------------------------------------------

  /** What reading one locale file gave: text JSON.parse rejected, or a
    * parsed value. A file that does not exist has no entry in the map. */
  datatype FileState = Unparsable | Parsed(json: Json)

  const SupportedLangs: seq<string> := ["en", "ar", "fr"]
  const Namespaces: seq<string> := ["common", "auth", "dashboard", "errors"]
  const BaseLanguage := "en"

  /** The file `locales/<lang>/<namespace>.json` is missing or is not JSON. */
  predicate LoadFailed(files: map<(string, string), FileState>, lang: string, ns: string)
  {
    (lang, ns) !in files || files[(lang, ns)].Unparsable?
  }

  /** `translationData[lang]?.[namespace]` is truthy. */
  predicate Present(files: map<(string, string), FileState>, lang: string, ns: string)
  {
    (lang, ns) in files && files[(lang, ns)].Parsed? && JsonTruthy(files[(lang, ns)].json)
  }

  /** The key set of a loaded namespace file. */
  function KeysOf(files: map<(string, string), FileState>, lang: string, ns: string): set<string>
    requires Present(files, lang, ns)
  {
    Flatten(files[(lang, ns)].json, "").Keys
  }

  /** The outcome of checking one non-base language in one namespace. */
  datatype Comparison =
    | NamespaceMissing(namespace: string, language: string)
    | Compared(namespace: string, language: string, missing: set<string>, extra: set<string>)

  /** Only a missing namespace or a missing key is an error; extra keys warn. */
  predicate IsError(c: Comparison)
  {
    c.NamespaceMissing? || c.missing != {}
  }

  predicate IsPerfectMatch(c: Comparison)
  {
    c.Compared? && c.missing == {} && c.extra == {}
  }

  /** The check of `lang` against the base language in namespace `ns`. */
  function Compare(files: map<(string, string), FileState>, ns: string, lang: string): seq<Comparison>
    requires Present(files, BaseLanguage, ns)
  {
    if lang == BaseLanguage then []
    else if !Present(files, lang, ns) then [NamespaceMissing(ns, lang)]
    else
      var baseKeys := KeysOf(files, BaseLanguage, ns);
      var langKeys := KeysOf(files, lang, ns);
      [Compared(ns, lang, baseKeys - langKeys, langKeys - baseKeys)]
  }

  function LangComparisons(files: map<(string, string), FileState>, ns: string, langs: seq<string>): seq<Comparison>
    requires Present(files, BaseLanguage, ns)
  {
    if |langs| == 0 then []
    else LangComparisons(files, ns, langs[..|langs| - 1]) + Compare(files, ns, langs[|langs| - 1])
  }

  /** The checks made for the given namespaces, in order; a namespace whose
    * base-language data is absent is skipped. */
  function NamespaceComparisons(files: map<(string, string), FileState>, nss: seq<string>): seq<Comparison>
  {
    if |nss| == 0 then []
    else
      var ns := nss[|nss| - 1];
      NamespaceComparisons(files, nss[..|nss| - 1])
        + (if Present(files, BaseLanguage, ns) then LangComparisons(files, ns, SupportedLangs) else [])
  }

  /** Some file of the first `li` languages failed to load. */
  predicate LoadFailureAmong(files: map<(string, string), FileState>, li: int)
  {
    exists a, b :: 0 <= a < li && a < |SupportedLangs| && 0 <= b < |Namespaces| &&
      LoadFailed(files, SupportedLangs[a], Namespaces[b])
  }

  predicate AnyLoadFailure(files: map<(string, string), FileState>)
  {
    LoadFailureAmong(files, |SupportedLangs|)
  }

  /** Some check in `cs` is an error. */
  predicate HasError(cs: seq<Comparison>)
  {
    exists k :: 0 <= k < |cs| && IsError(cs[k])
  }

  lemma HasErrorConcat(a: seq<Comparison>, b: seq<Comparison>)
    ensures HasError(a + b) <==> HasError(a) || HasError(b)
  {
    if HasError(a) {
      var k :| 0 <= k < |a| && IsError(a[k]);
      assert (a + b)[k] == a[k];
    }
    if HasError(b) {
      var k :| 0 <= k < |b| && IsError(b[k]);
      assert (a + b)[|a| + k] == b[k];
    }
    if HasError(a + b) {
      var k :| 0 <= k < |a + b| && IsError((a + b)[k]);
      if k >= |a| {
        assert b[k - |a|] == (a + b)[k];
      } else {
        assert a[k] == (a + b)[k];
      }
    }
  }

  /** The script's verdict: it exits with failure iff this holds. */
  function ValidationFails(files: map<(string, string), FileState>): (r: bool)
    ensures AnyLoadFailure(files) ==> r
  {
    AnyLoadFailure(files) || HasError(NamespaceComparisons(files, Namespaces))
  }

  /** `translationData` after the loading loop: it holds exactly the files
    * that parsed, for the languages and namespaces visited so far. */
  predicate LoadedUpTo(files: map<(string, string), FileState>, data: map<(string, string), Json>, li: int)
  {
    (forall key :: key in data ==> key in files && files[key] == Parsed(data[key])) &&
    (forall a, b :: 0 <= a < li && a < |SupportedLangs| && 0 <= b < |Namespaces| ==>
      (!LoadFailed(files, SupportedLangs[a], Namespaces[b]) ==>
        (SupportedLangs[a], Namespaces[b]) in data))
  }

  /** The loading loop of validateTranslations. */
  method LoadAll(files: map<(string, string), FileState>)
    returns (data: map<(string, string), Json>, hasErrors: bool)
    ensures LoadedUpTo(files, data, |SupportedLangs|)
    ensures hasErrors == AnyLoadFailure(files)
  {
    hasErrors := false;
    data := map[];
    var li := 0;
    while li < |SupportedLangs|
      invariant 0 <= li <= |SupportedLangs|
      invariant LoadedUpTo(files, data, li)
      invariant hasErrors == LoadFailureAmong(files, li)
    {
      var lang := SupportedLangs[li];
      var ni := 0;
      while ni < |Namespaces|
        invariant 0 <= ni <= |Namespaces|
        invariant LoadedUpTo(files, data, li)
        invariant forall b :: 0 <= b < ni ==>
          (!LoadFailed(files, lang, Namespaces[b]) ==> (lang, Namespaces[b]) in data)
        invariant hasErrors == (LoadFailureAmong(files, li) ||
          exists b :: 0 <= b < ni && LoadFailed(files, lang, Namespaces[b]))
      {
        var ns := Namespaces[ni];
        if (lang, ns) !in files {
          hasErrors := true;
        } else if files[(lang, ns)].Unparsable? {
          hasErrors := true;
        } else {
          data := data[(lang, ns) := files[(lang, ns)].json];
        }
        ni := ni + 1;
      }
      li := li + 1;
    }
  }

  /** The inner loop of the comparison: every non-base language against the
    * base key set of one namespace. */
  method CheckNamespace(files: map<(string, string), FileState>, data: map<(string, string), Json>, ni: nat)
    returns (cs: seq<Comparison>, hasErrors: bool)
    requires LoadedUpTo(files, data, |SupportedLangs|)
    requires ni < |Namespaces| && Present(files, BaseLanguage, Namespaces[ni])
    ensures cs == LangComparisons(files, Namespaces[ni], SupportedLangs)
    ensures hasErrors == HasError(cs)
  {
    var ns := Namespaces[ni];
    assert (SupportedLangs[0], Namespaces[ni]) in data;
    var baseFlat := FlattenObject(data[(BaseLanguage, ns)], "");
    var baseKeys := baseFlat.Keys;
    cs := [];
    hasErrors := false;
    var lj := 0;
    while lj < |SupportedLangs|
      invariant 0 <= lj <= |SupportedLangs|
      invariant cs == LangComparisons(files, ns, SupportedLangs[..lj])
      invariant hasErrors == HasError(cs)
    {
      var lang := SupportedLangs[lj];
      assert SupportedLangs[..lj + 1][..lj] == SupportedLangs[..lj];
      if lang != BaseLanguage {
        var c;
        if !((lang, ns) in data && JsonTruthy(data[(lang, ns)])) {
          c := NamespaceMissing(ns, lang);
        } else {
          var langFlat := FlattenObject(data[(lang, ns)], "");
          var langKeys := langFlat.Keys;
          var missing := baseKeys - langKeys;
          var extra := langKeys - baseKeys;
          c := Compared(ns, lang, missing, extra);
        }
        assert [c] == Compare(files, ns, lang);
        HasErrorConcat(cs, [c]);
        assert HasError([c]) <==> IsError(c) by { assert [c][0] == c; }
        cs := cs + [c];
        hasErrors := hasErrors || IsError(c);
      }
      lj := lj + 1;
    }
    assert SupportedLangs[..lj] == SupportedLangs;
  }

  /** validateTranslations: load every file, then compare every non-base
    * language with the base language, namespace by namespace. */
  method Validate(files: map<(string, string), FileState>)
    returns (hasErrors: bool, comparisons: seq<Comparison>)
    ensures comparisons == NamespaceComparisons(files, Namespaces)
    ensures hasErrors == ValidationFails(files)
  {
    var data;
    data, hasErrors := LoadAll(files);
    comparisons := [];
    var ni := 0;
    while ni < |Namespaces|
      invariant 0 <= ni <= |Namespaces|
      invariant comparisons == NamespaceComparisons(files, Namespaces[..ni])
      invariant hasErrors == (AnyLoadFailure(files) || HasError(comparisons))
    {
      var ns := Namespaces[ni];
      assert Namespaces[..ni + 1][..ni] == Namespaces[..ni];
      assert !LoadFailed(files, SupportedLangs[0], Namespaces[ni]) ==>
        (SupportedLangs[0], Namespaces[ni]) in data;
      if (BaseLanguage, ns) in data && JsonTruthy(data[(BaseLanguage, ns)]) {
        var cs, errors := CheckNamespace(files, data, ni);
        HasErrorConcat(comparisons, cs);
        comparisons := comparisons + cs;
        hasErrors := hasErrors || errors;
      } else {
        assert comparisons + [] == comparisons;
      }
      ni := ni + 1;
    }
    assert Namespaces[..ni] == Namespaces;
  }

  // ---------------------------------------------------------------------
  // What the verdict means
  // ---------------------------------------------------------------------

  /** The single check of a present non-base language: it is an error iff
    * some base key is missing, so extra keys only warn; and it is a perfect
    * match iff the two key sets are equal. */
  lemma ComparedVerdict(files: map<(string, string), FileState>, ns: string, lang: string)
    requires Present(files, BaseLanguage, ns) && Present(files, lang, ns) && lang != BaseLanguage
    ensures |Compare(files, ns, lang)| == 1
    ensures IsError(Compare(files, ns, lang)[0]) <==>
      !(KeysOf(files, BaseLanguage, ns) <= KeysOf(files, lang, ns))
    ensures IsPerfectMatch(Compare(files, ns, lang)[0]) <==>
      KeysOf(files, lang, ns) == KeysOf(files, BaseLanguage, ns)
  {
    var base := KeysOf(files, BaseLanguage, ns);
    var keys := KeysOf(files, lang, ns);
    if base - keys == {} && keys - base == {} {
      assert forall k :: k in base <==> k in keys by {
        forall k ensures k in base <==> k in keys {
          assert k !in base - keys && k !in keys - base;
        }
      }
    }
    if !(base <= keys) {
      var k :| k in base && k !in keys;
      assert k in base - keys;
    }
  }

  /** A language is deficient in a namespace the script checks when the file
    * is absent, falsy, or lacks some base key. */
  predicate Deficient(files: map<(string, string), FileState>, ns: string, lang: string)
  {
    Present(files, BaseLanguage, ns) && lang != BaseLanguage &&
    (!Present(files, lang, ns) || !(KeysOf(files, BaseLanguage, ns) <= KeysOf(files, lang, ns)))
  }

  lemma {:induction false} LangComparisonsError(files: map<(string, string), FileState>, ns: string, langs: seq<string>)
    requires Present(files, BaseLanguage, ns)
    ensures HasError(LangComparisons(files, ns, langs)) <==>
      exists a :: 0 <= a < |langs| && Deficient(files, ns, langs[a])
  {
    if |langs| > 0 {
      var init := langs[..|langs| - 1];
      var lang := langs[|langs| - 1];
      LangComparisonsError(files, ns, init);
      HasErrorConcat(LangComparisons(files, ns, init), Compare(files, ns, lang));
      if lang != BaseLanguage && Present(files, lang, ns) {
        ComparedVerdict(files, ns, lang);
      }
      assert HasError(Compare(files, ns, lang)) <==> Deficient(files, ns, lang) by {
        if lang != BaseLanguage {
          assert Compare(files, ns, lang)[0] in Compare(files, ns, lang);
        }
      }
      if exists a :: 0 <= a < |langs| && Deficient(files, ns, langs[a]) {
        var a :| 0 <= a < |langs| && Deficient(files, ns, langs[a]);
        if a < |init| {
          assert init[a] == langs[a];
        }
      }
      if exists a :: 0 <= a < |init| && Deficient(files, ns, init[a]) {
        var a :| 0 <= a < |init| && Deficient(files, ns, init[a]);
        assert langs[a] == init[a];
      }
    }
  }

  lemma {:induction false} NamespaceComparisonsError(files: map<(string, string), FileState>, nss: seq<string>)
    ensures HasError(NamespaceComparisons(files, nss)) <==>
      exists b, a :: 0 <= b < |nss| && 0 <= a < |SupportedLangs| &&
        Deficient(files, nss[b], SupportedLangs[a])
  {
    if |nss| > 0 {
      var init := nss[..|nss| - 1];
      var ns := nss[|nss| - 1];
      NamespaceComparisonsError(files, init);
      var tail := if Present(files, BaseLanguage, ns) then LangComparisons(files, ns, SupportedLangs) else [];
      HasErrorConcat(NamespaceComparisons(files, init), tail);
      if Present(files, BaseLanguage, ns) {
        LangComparisonsError(files, ns, SupportedLangs);
      }
      assert HasError(tail) <==> exists a :: 0 <= a < |SupportedLangs| && Deficient(files, ns, SupportedLangs[a]);
      if exists b, a :: 0 <= b < |nss| && 0 <= a < |SupportedLangs| && Deficient(files, nss[b], SupportedLangs[a]) {
        var b, a :| 0 <= b < |nss| && 0 <= a < |SupportedLangs| && Deficient(files, nss[b], SupportedLangs[a]);
        if b < |init| {
          assert init[b] == nss[b];
        }
      }
      if exists b, a :: 0 <= b < |init| && 0 <= a < |SupportedLangs| && Deficient(files, init[b], SupportedLangs[a]) {
        var b, a :| 0 <= b < |init| && 0 <= a < |SupportedLangs| && Deficient(files, init[b], SupportedLangs[a]);
        assert nss[b] == init[b];
      }
    }
  }

  /** The run fails iff some file failed to load, or some non-base language
    * is deficient in a namespace whose base data is present. Extra keys and
    * namespaces without base data never make it fail. */
  lemma ValidationFailsIff(files: map<(string, string), FileState>)
    ensures ValidationFails(files) <==>
      (AnyLoadFailure(files) ||
       exists b, a :: 0 <= b < |Namespaces| && 0 <= a < |SupportedLangs| &&
         Deficient(files, Namespaces[b], SupportedLangs[a]))
  {
    NamespaceComparisonsError(files, Namespaces);
  }

  /** Every check belongs to one of the given namespaces, that namespace has
    * base-language data, and the base language is never checked against
    * itself: a namespace without base data is skipped entirely. */
  lemma {:induction false} ComparedOnlyWithBase(files: map<(string, string), FileState>, nss: seq<string>)
    ensures forall c :: c in NamespaceComparisons(files, nss) ==>
      c.namespace in nss && Present(files, BaseLanguage, c.namespace) &&
      c.language != BaseLanguage
  {
    if |nss| > 0 {
      var init := nss[..|nss| - 1];
      var ns := nss[|nss| - 1];
      ComparedOnlyWithBase(files, init);
      if Present(files, BaseLanguage, ns) {
        LangComparisonsShape(files, ns, SupportedLangs);
      }
      forall c | c in NamespaceComparisons(files, init) ensures c.namespace in nss {
        assert c.namespace in init;
      }
    }
  }

  lemma {:induction false} LangComparisonsShape(files: map<(string, string), FileState>, ns: string, langs: seq<string>)
    requires Present(files, BaseLanguage, ns)
    ensures forall c :: c in LangComparisons(files, ns, langs) ==>
      c.namespace == ns && c.language != BaseLanguage && c.language in langs
  {
    if |langs| > 0 {
      var init := langs[..|langs| - 1];
      LangComparisonsShape(files, ns, init);
      forall c | c in LangComparisons(files, ns, init) ensures c.language in langs {
        assert c.language in init;
      }
    }
  }
}
