/** The translation manager: language detection and choice, dotted-path
    lookup with an English fallback, and the set of language observers. */
module I18n {
  import opened Common

  /** A translation table entry: a string or a nested table. */
  datatype Entry = Text(s: string) | Table(children: map<string, Entry>)

  /** Language code to top-level table. */
  type Translations = map<string, Entry>

  const SupportedLanguages: seq<string> := ["en", "zh", "de", "fr"]

  /** `toLowerCase` restricted to ASCII letters; for the membership test
      against the four supported codes this is the same. */
  function LowerAscii(s: string): (r: string)
    ensures |r| == |s|
    ensures forall i :: 0 <= i < |s| ==> r[i] == if 'A' <= s[i] <= 'Z' then (s[i] as int + 32) as char else s[i]
  {
    if s == [] then [] else [if 'A' <= s[0] <= 'Z' then (s[0] as int + 32) as char else s[0]] + LowerAscii(s[1..])
  }

  /** `detectBrowserLanguage`, given the browser's language tag: the lower-cased
      primary subtag when it is supported, `en` otherwise. */
  function DetectBrowserLanguage(browserLang: string): (r: string)
    ensures r in SupportedLanguages
  {
    var primary := LowerAscii(Split(browserLang, '-')[0]);
    if primary in SupportedLanguages then primary else "en"
  }

  /** A string without the separator is a single segment. */
  lemma {:induction false} SplitNoSeparator(s: string, sep: char)
    requires sep !in s
    ensures Split(s, sep) == [s]
  {
    if s != [] {
      assert sep !in s[1..];
      SplitNoSeparator(s[1..], sep);
      assert Split(s, sep) == [[s[0]] + s[1..]];
      assert [s[0]] + s[1..] == s;
    }
  }

  /** A tag with a region: the text before the first `-`, lower-cased, when
      it is a supported code, `en` otherwise. */
  lemma DetectPrimary(p: string, rest: string)
    requires '-' !in p
    ensures DetectBrowserLanguage(p + ['-'] + rest) ==
      if LowerAscii(p) in SupportedLanguages then LowerAscii(p) else "en"
  {
    SplitSuffix(p, rest, '-');
  }

  /** A tag without a region: the whole tag, lower-cased, when it is a
      supported code, `en` otherwise. */
  lemma DetectWholeTag(p: string)
    requires '-' !in p
    ensures DetectBrowserLanguage(p) == if LowerAscii(p) in SupportedLanguages then LowerAscii(p) else "en"
  {
    SplitNoSeparator(p, '-');
  }

  lemma DetectGermanRegion()
    ensures DetectBrowserLanguage("DE-at") == "de"
  {
    SplitSuffix("DE", "at", '-');
    assert "DE" + ['-'] + "at" == "DE-at";
    assert LowerAscii("DE") == "de";
  }

  lemma DetectUnsupported()
    ensures DetectBrowserLanguage("pt-BR") == "en"
  {
    SplitSuffix("pt", "BR", '-');
    assert "pt" + ['-'] + "BR" == "pt-BR";
    assert LowerAscii("pt") == "pt";
  }

  /** `value && typeof value === 'object' && k in value` for every segment in
      turn: the entry at the end of the path, if every step exists. */
  function Walk(node: Option<Entry>, keys: seq<string>): (r: Option<Entry>)
    ensures keys == [] ==> r == node
    ensures r.Some? && keys != [] ==> node.Some? && node.value.Table? && keys[0] in node.value.children
    decreases |keys|
  {
    if keys == [] then node
    else if node.Some? && node.value.Table? && keys[0] in node.value.children
    then Walk(Some(node.value.children[keys[0]]), keys[1..])
    else None
  }

  /** Walking a path in two pieces is walking it whole. */
  lemma {:induction false} WalkAppend(node: Option<Entry>, a: seq<string>, b: seq<string>)
    ensures Walk(node, a + b) == Walk(Walk(node, a), b)
    decreases |a|
  {
    if a == [] {
      assert a + b == b;
    } else {
      assert (a + b)[0] == a[0] && (a + b)[1..] == a[1..] + b;
      if node.Some? && node.value.Table? && a[0] in node.value.children {
        WalkAppend(Some(node.value.children[a[0]]), a[1..], b);
      } else {
        WalkFromNothing(b);
      }
    }
  }

  lemma {:induction false} WalkFromNothing(keys: seq<string>)
    ensures Walk(None, keys) == None
  {
  }

  /** One more segment of a path whose prefix leads to a table holding it. */
  lemma WalkStep(node: Option<Entry>, keys: seq<string>, i: nat)
    requires i < |keys|
    requires var v := Walk(node, keys[..i]); v.Some? && v.value.Table? && keys[i] in v.value.children
    ensures Walk(node, keys[..i + 1]) == Some(Walk(node, keys[..i]).value.children[keys[i]])
  {
    WalkAppend(node, keys[..i], [keys[i]]);
    assert keys[..i + 1] == keys[..i] + [keys[i]];
  }

  /** A path whose prefix leads somewhere without the next segment is
      missing altogether. */
  lemma WalkStuck(node: Option<Entry>, keys: seq<string>, i: nat)
    requires i < |keys|
    requires var v := Walk(node, keys[..i]); !(v.Some? && v.value.Table? && keys[i] in v.value.children)
    ensures Walk(node, keys) == None
  {
    WalkAppend(node, keys[..i], keys[i..]);
    assert keys[..i] + keys[i..] == keys;
    assert keys[i..][0] == keys[i];
  }

  function Lookup(tr: Translations, lang: string): Option<Entry> {
    if lang in tr then Some(tr[lang]) else None
  }

  /** `fallback || key`. */
  function Default(key: string, fallback: string): string {
    if fallback != "" then fallback else key
  }

  /** What `t(key, fallback)` returns: walk the dotted path in the current
      language; if some segment is missing there (or the language itself is),
      walk it again in English; a path that ends at a string gives that
      string, anything else gives `fallback || key`. */
  function Translate(tr: Translations, lang: string, key: string, fallback: string): (r: string)
    ensures r == Default(key, fallback)
         || Walk(Lookup(tr, lang), Split(key, '.')) == Some(Text(r))
         || Walk(Lookup(tr, "en"), Split(key, '.')) == Some(Text(r))
  {
    var keys := Split(key, '.');
    var found := Walk(Lookup(tr, lang), keys);
    var value := if found.Some? then found else Walk(Lookup(tr, "en"), keys);
    if value.Some? && value.value.Text? then value.value.s else Default(key, fallback)
  }

  /** A path that exists in the current language and ends at a string gives
      that string. */
  lemma TranslateCurrent(tr: Translations, lang: string, key: string, fallback: string, s: string)
    requires Walk(Lookup(tr, lang), Split(key, '.')) == Some(Text(s))
    ensures Translate(tr, lang, key, fallback) == s
  {
  }

  /** A path missing in the current language is looked up in English; if
      English lacks it too, the result is `fallback || key`. */
  lemma TranslateFallsBackToEnglish(tr: Translations, lang: string, key: string, fallback: string)
    requires Walk(Lookup(tr, lang), Split(key, '.')) == None
    ensures Walk(Lookup(tr, "en"), Split(key, '.')) == None ==> Translate(tr, lang, key, fallback) == Default(key, fallback)
    ensures forall s :: Walk(Lookup(tr, "en"), Split(key, '.')) == Some(Text(s)) ==> Translate(tr, lang, key, fallback) == s
  {
  }

  /** A path that exists in the current language but ends at a table gives
      `fallback || key`; English is not consulted. */
  lemma TranslateTableIsNotText(tr: Translations, lang: string, key: string, fallback: string, m: map<string, Entry>)
    requires Walk(Lookup(tr, lang), Split(key, '.')) == Some(Table(m))
    ensures Translate(tr, lang, key, fallback) == Default(key, fallback)
  {
  }

  /** A few entries of the shipped tables. */
  function SampleTranslations(): Translations {
    var langs := Table(map["en" := Text("English"), "zh" := Text("中文"), "de" := Text("Deutsch"), "fr" := Text("Français")]);
    map[
      "en" := Table(map["connect" := Text("Connect"), "errorPrefix" := Text("Error: "), "languages" := langs]),
      "de" := Table(map["connect" := Text("Verbinden"), "languages" := langs])
    ]
  }

  lemma SampleGerman()
    ensures Translate(SampleTranslations(), "de", "connect", "") == "Verbinden"
  {
    SplitNoSeparator("connect", '.');
  }

  /** A language without the entry falls back to English. */
  lemma SampleEnglishFallback()
    ensures Translate(SampleTranslations(), "de", "errorPrefix", "") == "Error: "
  {
    var tr := SampleTranslations();
    SplitNoSeparator("errorPrefix", '.');
    assert |"errorPrefix"| != |"connect"| && |"errorPrefix"| != |"languages"|;
    assert tr["de"].children.Keys == {"connect", "languages"};
    assert "errorPrefix" !in tr["de"].children;
    assert Walk(Lookup(tr, "de"), ["errorPrefix"]) == None;
    assert Walk(Lookup(tr, "en"), ["errorPrefix"]) == Some(Text("Error: "));
  }

  /** An unknown language falls back to English. */
  lemma SampleUnknownLanguage()
    ensures Translate(SampleTranslations(), "xx", "connect", "") == "Connect"
  {
    SplitNoSeparator("connect", '.');
  }

  /** A key that names a table gives the key itself when no fallback is given. */
  lemma SampleTableKey()
    ensures Translate(SampleTranslations(), "de", "languages", "") == "languages"
  {
    SplitNoSeparator("languages", '.');
  }

  /** A dotted key walks into the nested table. */
  lemma SampleNestedKey()
    ensures Translate(SampleTranslations(), "de", "languages.fr", "") == "Français"
  {
    var tr := SampleTranslations();
    SplitNoSeparator("fr", '.');
    SplitSuffix("languages", "fr", '.');
    assert "languages" + ['.'] + "fr" == "languages.fr";
    var langs := tr["de"].children["languages"];
    assert Walk(Some(langs), ["fr"]) == Some(Text("Français"));
    WalkAppend(Lookup(tr, "de"), ["languages"], ["fr"]);
    assert ["languages"] + ["fr"] == ["languages", "fr"];
    TranslateCurrent(tr, "de", "languages.fr", "", "Français");
  }

  /** Splitting at the first separator: the first segment followed by the
      segments of the rest. */
  lemma {:induction false} SplitSuffix(a: string, b: string, sep: char)
    requires sep !in a
    ensures Split(a + [sep] + b, sep) == [a] + Split(b, sep)
  {
    if a == [] {
      assert a + [sep] + b == [sep] + b;
      assert ([sep] + b)[1..] == b;
    } else {
      assert (a + [sep] + b)[1..] == a[1..] + [sep] + b;
      SplitSuffix(a[1..], b, sep);
      assert [a[0]] + a[1..] == a;
    }
  }

  /** Observers form a set kept in insertion order (the order of `forEach`). */
  function WithObserver(observers: seq<nat>, o: nat): (r: seq<nat>)
    ensures o in r && forall x :: x in observers ==> x in r
    ensures forall x :: x in r ==> x == o || x in observers
  {
    if o in observers then observers else observers + [o]
  }

  /** Adding keeps the observers distinct, so adding one twice and removing
      it once leaves it absent. */
  lemma AddTwiceRemoveOnce(observers: seq<nat>, o: nat)
    requires Distinct(observers)
    ensures Distinct(WithObserver(observers, o))
    ensures WithObserver(WithObserver(observers, o), o) == WithObserver(observers, o)
    ensures o !in KeysWithout(WithObserver(WithObserver(observers, o), o), o)
  {
  }

  /** One observer call: who was called, with which code, and whether it
      threw (the error is logged and delivery goes on). */
  datatype Notification = Notification(observer: nat, language: string, threw: bool)

  function NotificationsFor(observers: seq<nat>, language: string, throwing: set<nat>): (r: seq<Notification>)
    ensures |r| == |observers|
    ensures forall k :: 0 <= k < |r| ==>
      r[k] == Notification(observers[k], language, observers[k] in throwing)
  {
    if observers == [] then []
    else [Notification(observers[0], language, observers[0] in throwing)]
         + NotificationsFor(observers[1..], language, throwing)
  }

  /** `!this.translations[code]`: the code names a truthy entry. */
  predicate HasLanguage(tr: Translations, code: string) {
    code in tr && (tr[code].Table? || tr[code].s != "")
  }

  /** The code `setLanguage` settles on. */
  function ChosenLanguage(tr: Translations, code: string): (r: string)
    ensures HasLanguage(tr, code) ==> r == code
    ensures !HasLanguage(tr, code) ==> r == "en"
  {
    if HasLanguage(tr, code) then code else "en"
  }

  class I18nManager {
    var currentLanguage: string
    var translations: Translations
    var observers: seq<nat>
    /** The persisted choice (`localStorage['gemini_ui_language']`). */
    var storedLanguage: Option<string>
    /** Every observer call so far, in order. */
    var notifications: seq<Notification>

    ghost predicate Valid()
      reads this
    {
      Distinct(observers)
    }

    /** A stored (non-empty) language wins over the detected one; detection
        never yields the empty string, so the final `'en'` default is never
        reached. */
    constructor (stored: Option<string>, browserLang: string, tr: Translations)
      ensures Valid()
      ensures stored.Some? && stored.value != "" ==> currentLanguage == stored.value
      ensures !(stored.Some? && stored.value != "") ==> currentLanguage == DetectBrowserLanguage(browserLang)
      ensures translations == tr && observers == [] && notifications == [] && storedLanguage == stored
    {
      currentLanguage :=
        if stored.Some? && stored.value != "" then stored.value
        else var detected := DetectBrowserLanguage(browserLang);
          if detected != "" then detected else "en";
      translations := tr;
      observers := [];
      storedLanguage := stored;
      notifications := [];
    }

    method AddObserver(o: nat)
      requires Valid()
      modifies this
      ensures Valid()
      ensures observers == WithObserver(old(observers), o)
      ensures currentLanguage == old(currentLanguage) && translations == old(translations)
      ensures storedLanguage == old(storedLanguage) && notifications == old(notifications)
    {
      AddTwiceRemoveOnce(observers, o);
      observers := WithObserver(observers, o);
    }

    method RemoveObserver(o: nat)
      requires Valid()
      modifies this
      ensures Valid()
      ensures observers == KeysWithout(old(observers), o)
      ensures currentLanguage == old(currentLanguage) && translations == old(translations)
      ensures storedLanguage == old(storedLanguage) && notifications == old(notifications)
    {
      KeysWithoutDistinct(observers, o);
      observers := KeysWithout(observers, o);
    }

    /** `notifyObservers`: every observer is called once, in insertion order,
        with the new code; one that throws does not stop the rest. */
    method NotifyObservers(language: string, throwing: set<nat>)
      modifies this`notifications
      ensures notifications == old(notifications) + NotificationsFor(observers, language, throwing)
    {
      var i := 0;
      while i < |observers|
        invariant 0 <= i <= |observers|
        invariant notifications == old(notifications) + NotificationsFor(observers[..i], language, throwing)
      {
        NotificationsAppend(observers[..i], observers[i], language, throwing);
        assert observers[..i + 1] == observers[..i] + [observers[i]];
        notifications := notifications + [Notification(observers[i], language, observers[i] in throwing)];
        i := i + 1;
      }
      assert observers[..i] == observers;
    }

    /** `setLanguage`: an unknown code becomes `en`; the final code is made
        current, persisted and sent to every observer. */
    method SetLanguage(code: string, throwing: set<nat>)
      requires Valid()
      modifies this
      ensures Valid()
      ensures currentLanguage == ChosenLanguage(old(translations), code)
      ensures storedLanguage == Some(currentLanguage)
      ensures notifications == old(notifications) + NotificationsFor(old(observers), currentLanguage, throwing)
      ensures translations == old(translations) && observers == old(observers)
    {
      var chosen := code;
      if !HasLanguage(translations, chosen) {
        chosen := "en";
      }
      currentLanguage := chosen;
      storedLanguage := Some(chosen);
      NotifyObservers(chosen, throwing);
    }

    /** `t(key, fallback)`: the loop over the segments, with the English
        re-walk nested inside it. */
    method T(key: string, fallback: string) returns (r: string)
      ensures r == Translate(translations, currentLanguage, key, fallback)
    {
      var keys := Split(key, '.');
      var start := Lookup(translations, currentLanguage);
      var english := Lookup(translations, "en");
      var value := start;
      ghost var usedEnglish := false;
      var i := 0;
      while i < |keys|
        invariant 0 <= i <= |keys|
        invariant !usedEnglish && value == Walk(start, keys[..i])
        invariant i > 0 ==> value.Some?
      {
        var k := keys[i];
        if value.Some? && value.value.Table? && k in value.value.children {
          WalkStep(start, keys, i);
          value := Some(value.value.children[k]);
          i := i + 1;
        } else {
          WalkStuck(start, keys, i);
          value := english;
          var j := 0;
          while j < |keys|
            invariant 0 <= j <= |keys|
            invariant value == Walk(english, keys[..j])
          {
            var fk := keys[j];
            if value.Some? && value.value.Table? && fk in value.value.children {
              WalkStep(english, keys, j);
              value := Some(value.value.children[fk]);
              j := j + 1;
            } else {
              WalkStuck(english, keys, j);
              return Default(key, fallback);
            }
          }
          assert keys[..j] == keys;
          usedEnglish := true;
          break;
        }
      }
      if !usedEnglish {
        assert keys[..i] == keys;
      }
      r := if value.Some? && value.value.Text? then value.value.s else Default(key, fallback);
    }
  }

  lemma NotificationsAppend(observers: seq<nat>, o: nat, language: string, throwing: set<nat>)
    ensures NotificationsFor(observers + [o], language, throwing)
         == NotificationsFor(observers, language, throwing) + [Notification(o, language, o in throwing)]
  {
  }
}
