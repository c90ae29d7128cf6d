/**
 * The language provider: the dotted-key resolver `t`, the current language with
 * its toggle, the initial load from storage and the write-back effect, and the
 * `useLanguage` guard.
 *
 * Storage and the document's `lang` attribute are fields of the provider object;
 * the provider's state changes and the effect that follows each change are one
 * method call here.
 */
module LanguageContext {
  import opened Wrappers
  import opened Strings
  import opened Translations

  // ---------------------------------------------------------------------------
  // The resolver `t`
  // ---------------------------------------------------------------------------

  /** `/^\d+$/.test(k)` */
  predicate IsDigits(k: string)
  {
    |k| > 0 && forall i :: 0 <= i < |k| ==> '0' <= k[i] <= '9'
  }

  /** `parseInt(k)` for a string of decimal digits. */
  function ParseDigits(k: string): (n: nat)
    requires forall i :: 0 <= i < |k| ==> '0' <= k[i] <= '9'
    decreases |k|
  {
    if k == [] then 0
    else ParseDigits(k[..|k| - 1]) * 10 + ((k[|k| - 1] as int) - ('0' as int))
  }

  /** `items[i]`: out of range reads `undefined`. */
  function ElementAt(items: seq<JsValue>, i: nat): (item: JsValue)
  {
    if i < |items| then items[i] else Undefined
  }

  /**
   * One step of the walk from an object or array: `value[k]` as `t` takes it,
   * or None where `t` gives up and returns the key. Only own keys are seen.
   */
  function Step(v: JsValue, k: string): (next: Option<JsValue>)
    requires IsObject(v)
  {
    if v.Arr? && IsDigits(k) then Some(ElementAt(v.items, ParseDigits(k)))
    else if v.Obj? && k in v.props then Some(v.props[k])
    else None
  }

  /** The loop of `t` over the key segments; None is an early `return key`. */
  function Walk(v: JsValue, keys: seq<string>): (found: Option<JsValue>)
    decreases |keys|
  {
    if keys == [] then Some(v)
    else if !(Truthy(v) && IsObject(v)) then None
    else
      match Step(v, keys[0])
      case None => None
      case Some(next) => Walk(next, keys[1..])
  }

  /** The walk's starting point for `language`. */
  function Start(table: map<string, JsValue>, language: string): (start: JsValue)
  {
    if language in table then table[language] else Undefined
  }

  /** `t(key)` over a table of languages: never a falsy value; the key itself on every fallback. */
  function Translate(table: map<string, JsValue>, language: string, key: string): (r: JsValue)
    ensures r == Str(key) || Truthy(r)
  {
    match Walk(Start(table, language), Split(key, '.'))
    case None => Str(key)
    case Some(v) => if Truthy(v) then v else Str(key)
  }

  /** `t` as the provider runs it, over the shipped table: a loop with early returns. */
  method T(language: string, key: string) returns (r: JsValue)
    ensures r == Translate(Table, language, key)
  {
    var keys := Split(key, '.');
    var value := Start(Table, language);
    ghost var start := value;
    for i := 0 to |keys|
      invariant Walk(start, keys) == Walk(value, keys[i..])
    {
      var k := keys[i];
      if Truthy(value) && IsObject(value) {
        if value.Arr? && IsDigits(k) {
          value := ElementAt(value.items, ParseDigits(k));
        } else if value.Obj? && k in value.props {
          value := value.props[k];
        } else {
          return Str(key);
        }
      } else {
        return Str(key);
      }
    }
    r := if Truthy(value) then value else Str(key);
  }

  /** Following `keys` through own properties of objects leads from `v` to `leaf`. */
  ghost predicate PathTo(v: JsValue, keys: seq<string>, leaf: JsValue)
    decreases |keys|
  {
    if keys == [] then leaf == v
    else v.Obj? && keys[0] in v.props && PathTo(v.props[keys[0]], keys[1..], leaf)
  }

  /** Once a prefix of the keys has been followed, the walk continues from where it led. */
  lemma {:induction false} WalkFollowsPath(v: JsValue, keys: seq<string>, i: nat, w: JsValue)
    requires i <= |keys| && PathTo(v, keys[..i], w)
    ensures Walk(v, keys) == Walk(w, keys[i..])
    decreases i
  {
    if i > 0 {
      assert keys[..i][1..] == keys[1..][..i - 1];
      WalkFollowsPath(v.props[keys[0]], keys[1..], i - 1, w);
      assert keys[1..][i - 1..] == keys[i..];
    }
  }

  /** Every segment names an existing property and the walk ends on a non-empty string: that string. */
  lemma PresentPathResolves(table: map<string, JsValue>, language: string, key: string, s: string)
    requires PathTo(Start(table, language), Split(key, '.'), Str(s)) && s != ""
    ensures Translate(table, language, key) == Str(s)
  {
    var keys := Split(key, '.');
    assert keys[..|keys|] == keys;
    WalkFollowsPath(Start(table, language), keys, |keys|, Str(s));
  }

  /** A segment absent from the object reached so far: the key itself. */
  lemma MissingSegmentFallsBack(table: map<string, JsValue>, language: string, key: string,
                                i: nat, m: map<string, JsValue>)
    requires i < |Split(key, '.')|
    requires PathTo(Start(table, language), Split(key, '.')[..i], Obj(m))
    requires Split(key, '.')[i] !in m
    ensures Translate(table, language, key) == Str(key)
  {
    var keys := Split(key, '.');
    WalkFollowsPath(Start(table, language), keys, i, Obj(m));
  }

  /** More segments after a non-object (a string leaf, `undefined`): the key itself. */
  lemma NonObjectFallsBack(table: map<string, JsValue>, language: string, key: string,
                           i: nat, w: JsValue)
    requires i < |Split(key, '.')|
    requires PathTo(Start(table, language), Split(key, '.')[..i], w)
    requires !IsObject(w)
    ensures Translate(table, language, key) == Str(key)
  {
    var keys := Split(key, '.');
    WalkFollowsPath(Start(table, language), keys, i, w);
  }

  /** A falsy final value (an empty string, `undefined`): the key itself. */
  lemma FalsyEndFallsBack(table: map<string, JsValue>, language: string, key: string, leaf: JsValue)
    requires PathTo(Start(table, language), Split(key, '.'), leaf)
    requires !Truthy(leaf)
    ensures Translate(table, language, key) == Str(key)
  {
    var keys := Split(key, '.');
    assert keys[..|keys|] == keys;
    WalkFollowsPath(Start(table, language), keys, |keys|, leaf);
  }

  /** A last segment indexing past the end of an array reads `undefined`: the key itself. */
  lemma ArrayIndexOutOfRangeFallsBack(table: map<string, JsValue>, language: string, key: string,
                                      items: seq<JsValue>)
    requires var keys := Split(key, '.');
      && PathTo(Start(table, language), keys[..|keys| - 1], Arr(items))
      && IsDigits(keys[|keys| - 1]) && ParseDigits(keys[|keys| - 1]) >= |items|
    ensures Translate(table, language, key) == Str(key)
  {
    var keys := Split(key, '.');
    WalkFollowsPath(Start(table, language), keys, |keys| - 1, Arr(items));
    assert keys[|keys| - 1..] == [keys[|keys| - 1]];
  }

  /** A path that stops at an object returns the object, not the key. */
  lemma ObjectEndIsReturned(table: map<string, JsValue>, language: string, key: string,
                            m: map<string, JsValue>)
    requires PathTo(Start(table, language), Split(key, '.'), Obj(m))
    ensures Translate(table, language, key) == Obj(m)
  {
    var keys := Split(key, '.');
    assert keys[..|keys|] == keys;
    WalkFollowsPath(Start(table, language), keys, |keys|, Obj(m));
  }

  /** A language without a table resolves every key to itself. */
  lemma UnknownLanguageFallsBack(table: map<string, JsValue>, language: string, key: string)
    requires language !in table
    ensures Translate(table, language, key) == Str(key)
  {
  }

  /**
   * Over a two-level table `t` is exactly: one segment gives the section (or the
   * key), two segments give the string (or the key), three or more give the key.
   */
  lemma TwoLevelResolution(table: map<string, JsValue>, language: string, key: string)
    requires language in table && TwoLevel(table[language])
    ensures var keys := Split(key, '.');
            var sections := table[language].props;
            Translate(table, language, key) ==
              if |keys| == 1 then
                (if keys[0] in sections then sections[keys[0]] else Str(key))
              else if |keys| == 2 && keys[0] in sections && keys[1] in sections[keys[0]].props then
                sections[keys[0]].props[keys[1]]
              else Str(key)
  {
    var keys := Split(key, '.');
    var root := table[language];
    var sections := root.props;
    if keys[0] in sections {
      var section := sections[keys[0]];
      assert StringSection(section.props);
      assert PathTo(root, keys[..1], section);
      WalkFollowsPath(root, keys, 1, section);
      if |keys| >= 2 && keys[1] in section.props {
        var leaf := section.props[keys[1]];
        assert keys[..2][1..] == [keys[1]];
        assert PathTo(root, keys[..2], leaf);
        WalkFollowsPath(root, keys, 2, leaf);
      }
    }
  }

  /** A dotted pair of dot-free names splits into those two names. */
  lemma SplitDottedPair(a: string, b: string)
    requires '.' !in a && '.' !in b
    ensures Split(a + "." + b, '.') == [a, b]
  {
    SplitJoin([a, b], '.');
    assert Join([a, b], '.') == a + "." + b;
  }

  /** Every section.key pair of the shipped table resolves to its non-empty string. */
  lemma ShippedTwoSegmentKeysResolve(language: string, sec: string, k: string)
    requires language in Table
    requires sec in Table[language].props
    requires Table[language].props[sec].Obj? && k in Table[language].props[sec].props
    ensures var leaf := Table[language].props[sec].props[k];
            leaf.Str? && leaf.s != "" && Translate(Table, language, sec + "." + k) == leaf
  {
    TableIsTwoLevel();
    var root := Table[language];
    assert StringSection(root.props[sec].props);
    SplitDottedPair(sec, k);
    TwoLevelResolution(Table, language, sec + "." + k);
  }

  /** Keys of three or more segments fall back in the shipped table, whatever they name. */
  lemma ShippedDeepKeysFallBack(language: string, key: string)
    requires |Split(key, '.')| >= 3
    ensures Translate(Table, language, key) == Str(key)
  {
    if language in Table {
      TableIsTwoLevel();
      TwoLevelResolution(Table, language, key);
    }
  }

  /** A first segment that names no section of the shipped table: the key itself. */
  lemma ShippedUnknownSectionFallsBack(language: string, key: string)
    requires language in Table ==> Split(key, '.')[0] !in Table[language].props
    ensures Translate(Table, language, key) == Str(key)
  {
    if language in Table {
      TableIsTwoLevel();
      TwoLevelResolution(Table, language, key);
    }
  }

  /** The footer's copyright key has no entry: it shows as typed. */
  lemma FooterKeyFallsBack(language: string)
    ensures Translate(Table, language, "footer.copyright") == Str("footer.copyright")
  {
    NoFooterOrBackToTop();
    SplitDottedPair("footer", "copyright");
    assert "footer.copyright" == "footer" + "." + "copyright";
    ShippedUnknownSectionFallsBack(language, "footer.copyright");
  }

  /** The back-to-top button's label key has no entry: it shows as typed. */
  lemma BackToTopKeyFallsBack(language: string)
    ensures Translate(Table, language, "backToTop.label") == Str("backToTop.label")
  {
    NoFooterOrBackToTop();
    SplitDottedPair("backToTop", "label");
    assert "backToTop.label" == "backToTop" + "." + "label";
    ShippedUnknownSectionFallsBack(language, "backToTop.label");
  }

  lemma TableLookups()
    ensures Table["pt"] == Pt && Table["en"] == En
  {
  }

  /** `t('nav')` is the whole navigation section, not the key. */
  lemma SectionKeyGivesSection()
    ensures Translate(Table, "pt", "nav") == Obj(PtNav)
  {
    SplitWithoutSeparator("nav", '.');
    TableIsTwoLevel();
    TableLookups();
    PtLookups();
    TwoLevelResolution(Table, "pt", "nav");
  }

  /** `t('nav.home.x')` descends past the string leaf: the key itself. */
  lemma PastLeafGivesKey(language: string)
    ensures Translate(Table, language, "nav.home.x") == Str("nav.home.x")
  {
    SplitDottedPair("home", "x");
    assert "nav.home.x" == "nav" + "." + "home.x";
    SplitAfterHead("nav", '.', "home.x");
    ShippedDeepKeysFallBack(language, "nav.home.x");
  }

  // ---------------------------------------------------------------------------
  // The language state, its initial load and its write-back effect
  // ---------------------------------------------------------------------------

  /** The language read at start-up: the stored value when it is truthy, else `'pt'`. */
  function InitialLanguage(saved: Option<string>): (language: string)
    ensures language != ""
    ensures saved.Some? && saved.value != "" ==> language == saved.value
    ensures saved.None? || saved.value == "" ==> language == "pt"
  {
    if saved.Some? && saved.value != "" then saved.value else "pt"
  }

  /** `prev === 'pt' ? 'en' : 'pt'` */
  function Toggled(previous: string): (next: string)
    ensures next in {"pt", "en"}
    ensures next == "en" <==> previous == "pt"
  {
    if previous == "pt" then "en" else "pt"
  }

  /** The document's `lang` attribute for a language. */
  function DocumentLang(language: string): (lang: string)
    ensures lang == "pt-BR" <==> language == "pt"
    ensures lang != "pt-BR" ==> lang == "en"
  {
    if language == "pt" then "pt-BR" else "en"
  }

  /** Two toggles give back `'pt'` or `'en'`, and any other language becomes `'en'`. */
  lemma {:induction false} ToggleTwice(language: string)
    ensures Toggled(Toggled(language)) == if language == "pt" then "pt" else "en"
    ensures language in {"pt", "en"} ==> Toggled(Toggled(language)) == language
  {
    if language == "pt" {
      assert Toggled(language) == "en";
    } else {
      assert Toggled(language) == "pt";
    }
  }

  /** Reloading from what was stored gives back the language that was stored. */
  lemma {:induction false} ReloadRestoresLanguage(language: string)
    requires language != ""
    ensures InitialLanguage(Some(language)) == language
  {
  }

  /** A toggle followed by a reload yields the other of the two languages. */
  lemma {:induction false} ToggleThenReload(language: string)
    requires language in {"pt", "en"}
    ensures var reloaded := InitialLanguage(Some(Toggled(language)));
            reloaded in {"pt", "en"} && reloaded != language
  {
    ReloadRestoresLanguage(Toggled(language));
  }

  /** The provider: the language state, the stored preference and the document attribute. */
  class LanguageProvider {
    var language: string
    var storedLanguage: Option<string>
    var documentLang: string

    /** After every change the effect has written the language back to storage and the document. */
    ghost predicate Valid()
      reads this
    {
      && language != ""
      && storedLanguage == Some(language)
      && documentLang == DocumentLang(language)
    }

    /** Mount: read the stored value (null when absent), then run the effect once. */
    constructor (saved: Option<string>)
      ensures Valid()
      ensures language == InitialLanguage(saved)
    {
      var initial := InitialLanguage(saved);
      language := initial;
      documentLang := DocumentLang(initial);
      storedLanguage := Some(initial);
    }

    /** `toggleLanguage`, followed by the effect that the change of language triggers. */
    method ToggleLanguage()
      requires Valid()
      modifies this
      ensures Valid()
      ensures language == Toggled(old(language))
    {
      language := Toggled(language);
      documentLang := DocumentLang(language);
      storedLanguage := Some(language);
    }
  }

  /** What a provider hands to its consumers. */
  datatype ContextValue = ContextValue(language: string)

  /** `useLanguage`: the provider's value, or the error thrown outside any provider. */
  function UseLanguage(context: Option<ContextValue>): (r: Result<ContextValue, string>)
    ensures r.Failure? <==> context.None?
    ensures context.Some? ==> r == Success(context.value)
    ensures r.Failure? ==> r.error == "useLanguage must be used within LanguageProvider"
  {
    match context
    case None => Failure("useLanguage must be used within LanguageProvider")
    case Some(value) => Success(value)
  }
}
