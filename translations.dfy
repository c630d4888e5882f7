/** The translation dictionary of the web frontend
    (`web-frontend/src/typescript/i18n/getTranslations.ts`): the map from language to the
    default export of each `./<language>/translations.ts` module, and the choice of the
    language. The module glob is given as its entries, in enumeration order. */
module Translations {
  import opened Wrappers
  import opened Strings

  /** A module record: `{ default: T }`. */
  datatype Module<T> = Module(defaultExport: T)

  /** The second `/`-separated segment of a path (the array element at index 1 of
      `path.split('/')`), or nothing when the path has no `/`. */
  function SecondSegment(path: string): (r: Option<string>)
    ensures r.None? <==> '/' !in path
    ensures r.Some? ==> '/' !in r.value
  {
    match SplitOnce(path, '/')
    case None => None
    case Some((_, rest)) =>
      match SplitOnce(rest, '/')
      case Some((segment, _)) => Some(segment)
      case None => Some(rest)
  }

  /** The property name a path is stored under: its second segment, or `"undefined"` (the
      string an `undefined` index becomes) when it has none. */
  function LanguageKey(path: string): string {
    match SecondSegment(path)
    case Some(segment) => segment
    case None => "undefined"
  }

  /** A path `<first>/<lang>/<rest>` is stored under `<lang>`. */
  lemma KeyIsSecondSegment(first: string, lang: string, rest: string)
    requires '/' !in first && '/' !in lang
    ensures LanguageKey(first + ['/'] + lang + ['/'] + rest) == lang
  {
    var tail := lang + ['/'] + rest;
    assert first + ['/'] + lang + ['/'] + rest == first + ['/'] + tail;
    SplitOnceAfterHead(first, '/', tail);
    SplitOnceAfterHead(lang, '/', rest);
  }

  /** A path without `/` is stored under `undefined`. */
  lemma KeyWithoutSlash(path: string)
    requires '/' !in path
    ensures LanguageKey(path) == "undefined"
  {
  }

  /** The export map after the first `k` entries, each stored under `keyOf` of its path;
      `mapExports` uses `LanguageKey`. */
  function MapExportsUpTo<T>(modules: seq<(string, Module<T>)>, keyOf: string -> string, k: nat): map<string, T>
    requires k <= |modules|
  {
    if k == 0 then map[]
    else MapExportsUpTo(modules, keyOf, k - 1)[keyOf(modules[k - 1].0) := modules[k - 1].1.defaultExport]
  }

  /** `mapExports`: every module's default export is stored under its path's language, a
      later module overwriting an earlier one of the same language. */
  method MapExports<T>(modules: seq<(string, Module<T>)>) returns (exportMap: map<string, T>)
    ensures exportMap == MapExportsUpTo(modules, LanguageKey, |modules|)
  {
    exportMap := map[];
    var i := 0;
    while i < |modules|
      invariant 0 <= i <= |modules|
      invariant exportMap == MapExportsUpTo(modules, LanguageKey, i)
    {
      var lang := LanguageKey(modules[i].0);
      ExportStep(modules, i, lang);
      exportMap := exportMap[lang := modules[i].1.defaultExport];
      i := i + 1;
    }
  }

  /** One more module stores its default export under its language. */
  lemma ExportStep<T>(modules: seq<(string, Module<T>)>, i: nat, lang: string)
    requires i < |modules| && lang == LanguageKey(modules[i].0)
    ensures MapExportsUpTo(modules, LanguageKey, i + 1)
      == MapExportsUpTo(modules, LanguageKey, i)[lang := modules[i].1.defaultExport]
  {
  }

  /** The keys are exactly the keys of the paths. */
  lemma {:induction false} ExportKeys<T>(modules: seq<(string, Module<T>)>, keyOf: string -> string, k: nat, lang: string)
    requires k <= |modules|
    ensures lang in MapExportsUpTo(modules, keyOf, k) <==> exists i :: 0 <= i < k && keyOf(modules[i].0) == lang
  {
    if k > 0 {
      ExportKeys(modules, keyOf, k - 1, lang);
      if lang == keyOf(modules[k - 1].0) {
        assert 0 <= k - 1 < k;
      }
    }
  }

  /** Each key holds the default export of the last module with that key. */
  lemma {:induction false} LastModuleWins<T>(modules: seq<(string, Module<T>)>, keyOf: string -> string, k: nat, i: nat)
    requires i < k <= |modules|
    requires forall j :: i < j < k ==> keyOf(modules[j].0) != keyOf(modules[i].0)
    ensures keyOf(modules[i].0) in MapExportsUpTo(modules, keyOf, k)
    ensures MapExportsUpTo(modules, keyOf, k)[keyOf(modules[i].0)] == modules[i].1.defaultExport
  {
    if i < k - 1 {
      LastModuleWins(modules, keyOf, k - 1, i);
    }
  }

  /** The language of a page: the one found in its URI unless that is missing or empty,
      and `en` otherwise. */
  function PageLanguage(fromUri: Option<string>): (r: string)
    ensures fromUri.Some? && fromUri.value != "" ==> r == fromUri.value
    ensures fromUri.None? || fromUri.value == "" ==> r == "en"
    ensures r != ""
  {
    if fromUri.Some? && fromUri.value != "" then fromUri.value else "en"
  }
}
