/**
 * ClipZen/LocalizationManager.swift: string tables per language, the lookup
 * with its English and key fallbacks, the check that every language has a
 * table holding every English key, and the current-language setting.
 */
module Localization {
  import opened Common
  import opened Languages

  /** One `Localizable.strings` file: key to translation. */
  type Table = map<string, string>

  /** `stringTables`: the tables loaded so far, by language. */
  type Tables = map<Language, Table>

  /** Whether `localizedString(for:)` finds a translation in the current or the English table. */
  predicate Found(tables: Tables, current: Language, key: string) {
    (current in tables && key in tables[current]) || (English in tables && key in tables[English])
  }

  /**
   * `localizedString(for:_:)`: the current language's translation, else the
   * English one, formatted with `args` when there are any; else the key
   * itself, never formatted. `format` stands for String(format:arguments:).
   */
  function LocalizedString<A>(tables: Tables, current: Language, key: string, args: seq<A>,
                              format: (string, seq<A>) -> string): (r: string)
    ensures current in tables && key in tables[current] ==>
              r == if args == [] then tables[current][key] else format(tables[current][key], args)
    ensures !(current in tables && key in tables[current]) && English in tables && key in tables[English] ==>
              r == if args == [] then tables[English][key] else format(tables[English][key], args)
    ensures !Found(tables, current, key) ==> r == key
  {
    if current in tables && key in tables[current] then
      var translation := tables[current][key];
      if args == [] then translation else format(translation, args)
    else if English in tables && key in tables[English] then
      var englishTranslation := tables[English][key];
      if args == [] then englishTranslation else format(englishTranslation, args)
    else
      key
  }

  /** What validation reports about one language. */
  datatype Problem = TableMissing(language: Language) | KeysMissing(language: Language, keys: set<string>)

  /** The outcome of `validateTranslations`. */
  datatype Validation = EnglishTableMissing | Complete | Incomplete(problems: seq<Problem>)

  /** The problem, if any, of language `l` against the English table. */
  function ProblemsOf(tables: Tables, english: Table, l: Language): seq<Problem> {
    if l == English then []
    else if l !in tables then [TableMissing(l)]
    else
      var missing := english.Keys - tables[l].Keys;
      if missing == {} then [] else [KeysMissing(l, missing)]
  }

  /** The problems of the languages `ls`, in their order. */
  function ProblemsIn(tables: Tables, english: Table, ls: seq<Language>): seq<Problem> {
    if ls == [] then []
    else ProblemsIn(tables, english, ls[..|ls| - 1]) + ProblemsOf(tables, english, ls[|ls| - 1])
  }

  /** Language `l` is English, or has a table with every English key. */
  ghost predicate Covers(tables: Tables, english: Table, l: Language) {
    l == English || (l in tables && english.Keys <= tables[l].Keys)
  }

  /** Every language has a table, and every table has every English key. */
  ghost predicate FullyTranslated(tables: Tables) {
    English in tables && forall l :: Covers(tables, tables[English], l)
  }

  /** What a debug build's validation reports for `tables`. */
  function ValidationOf(tables: Tables): Validation {
    if English !in tables then EnglishTableMissing
    else
      var problems := ProblemsIn(tables, tables[English], AllCases);
      if problems == [] then Complete else Incomplete(problems)
  }

  lemma ProblemsOfEmpty(tables: Tables, english: Table, l: Language)
    ensures ProblemsOf(tables, english, l) == [] <==> Covers(tables, english, l)
  {
    if l != English && l in tables {
      var missing := english.Keys - tables[l].Keys;
      if missing == {} {
        forall k | k in english.Keys ensures k in tables[l].Keys {
          assert k !in missing;
        }
      }
    }
  }

  lemma {:induction false} NoProblemsExactlyWhenCovered(tables: Tables, english: Table, ls: seq<Language>)
    ensures ProblemsIn(tables, english, ls) == [] <==> forall i :: 0 <= i < |ls| ==> Covers(tables, english, ls[i])
  {
    if ls != [] {
      var init := ls[..|ls| - 1];
      NoProblemsExactlyWhenCovered(tables, english, init);
      ProblemsOfEmpty(tables, english, ls[|ls| - 1]);
      assert forall i :: 0 <= i < |init| ==> init[i] == ls[i];
    }
  }

  /**
   * Validation reports Complete exactly when there is an English table and
   * every other language has a table containing every English key.
   */
  lemma CompleteExactlyWhenTranslated(tables: Tables)
    ensures ValidationOf(tables) == Complete <==> FullyTranslated(tables)
  {
    if English !in tables {
      return;
    }
    var english := tables[English];
    NoProblemsExactlyWhenCovered(tables, english, AllCases);
    if ProblemsIn(tables, english, AllCases) == [] {
      forall l ensures Covers(tables, english, l) {
        AllCasesComplete(l);
        var i :| 0 <= i < |AllCases| && AllCases[i] == l;
      }
    }
  }

  /**
   * When validation passes, every English key is found in the current
   * language's own table: the English fallback is never taken for it.
   */
  lemma CompleteMeansOwnTranslation<A>(tables: Tables, current: Language, key: string, args: seq<A>,
                                       format: (string, seq<A>) -> string)
    requires ValidationOf(tables) == Complete
    requires English in tables && key in tables[English]
    ensures current in tables && key in tables[current]
    ensures LocalizedString(tables, current, key, args, format) ==
              if args == [] then tables[current][key] else format(tables[current][key], args)
  {
    CompleteExactlyWhenTranslated(tables);
    assert Covers(tables, tables[English], current);
  }

  /**
   * `validateTranslations`: without an English table it stops at once;
   * otherwise it walks `allCases` except English, noting each language with
   * no table and each table that misses English keys.
   */
  method ValidateTranslations(tables: Tables) returns (v: Validation)
    ensures v == ValidationOf(tables)
    ensures v == Complete <==> FullyTranslated(tables)
  {
    if English !in tables {
      CompleteExactlyWhenTranslated(tables);
      return EnglishTableMissing;
    }
    var english := tables[English];
    var hasErrors := false;
    var problems: seq<Problem> := [];
    for i := 0 to |AllCases|
      invariant problems == ProblemsIn(tables, english, AllCases[..i])
      invariant hasErrors <==> problems != []
    {
      var language := AllCases[i];
      assert AllCases[..i + 1][..i] == AllCases[..i];
      if language != English {
        if language !in tables {
          problems := problems + [TableMissing(language)];
          hasErrors := true;
        } else {
          var missingKeys := english.Keys - tables[language].Keys;
          if missingKeys != {} {
            hasErrors := true;
            problems := problems + [KeysMissing(language, missingKeys)];
          }
        }
      }
    }
    assert AllCases[..|AllCases|] == AllCases;
    v := if hasErrors then Incomplete(problems) else Complete;
    CompleteExactlyWhenTranslated(tables);
  }

  /** The tables after the loading loop has visited the languages `ls` in order. */
  function Loaded(tables: Tables, found: Tables, ls: seq<Language>): Tables {
    if ls == [] then tables
    else
      var before := Loaded(tables, found, ls[..|ls| - 1]);
      var l := ls[|ls| - 1];
      if l in found then before[l := found[l]] else before
  }

  lemma {:induction false} LoadedAt(tables: Tables, found: Tables, ls: seq<Language>, l: Language)
    ensures l in Loaded(tables, found, ls) <==> l in tables || (l in found && l in ls)
    ensures l in Loaded(tables, found, ls) ==>
              Loaded(tables, found, ls)[l] == if l in found && l in ls then found[l] else tables[l]
  {
    if ls != [] {
      var init := ls[..|ls| - 1];
      LoadedAt(tables, found, init, l);
      assert ls == init + [ls[|ls| - 1]];
    }
  }

  /** Visiting every language overwrites exactly the entries of `found`. */
  lemma LoadedAllCases(tables: Tables, found: Tables)
    ensures Loaded(tables, found, AllCases) == tables + found
  {
    var r := Loaded(tables, found, AllCases);
    forall l ensures (l in r <==> l in tables + found) && (l in r ==> r[l] == (tables + found)[l]) {
      LoadedAt(tables, found, AllCases, l);
      AllCasesComplete(l);
    }
    assert r.Keys == (tables + found).Keys;
  }

  /** LocalizationManager: the current language, the tables, and the persisted "language" default. */
  class LocalizationManager {
    var currentLanguage: Language
    var stringTables: Tables
    /** The value stored under the "language" user default. */
    var savedLanguage: Option<string>

    /**
     * `init`: the saved language when it is a valid raw value, otherwise the
     * system language; then the tables are loaded. Swift runs no `didSet`
     * inside an initializer, so nothing is persisted here.
     */
    constructor (saved: Option<string>, localeLanguageCode: Option<string>, localeRegionCode: Option<string>,
                 found: Tables)
      ensures saved.Some? && FromRawValue(saved.value).Some? ==> currentLanguage == FromRawValue(saved.value).value
      ensures !(saved.Some? && FromRawValue(saved.value).Some?) ==>
                currentLanguage == SystemLanguage(localeLanguageCode, localeRegionCode)
      ensures stringTables == found && savedLanguage == saved
    {
      if saved.Some? && FromRawValue(saved.value).Some? {
        currentLanguage := FromRawValue(saved.value).value;
      } else {
        currentLanguage := SystemLanguage(localeLanguageCode, localeRegionCode);
      }
      stringTables := map[];
      savedLanguage := saved;
      new;
      var _ := LoadAndValidateTranslations(found);
    }

    /** `localizedString(for:_:)` on the manager's own state. */
    function Localized<A>(key: string, args: seq<A>, format: (string, seq<A>) -> string): (r: string)
      reads this
      ensures currentLanguage in stringTables && key in stringTables[currentLanguage] ==>
                r == if args == [] then stringTables[currentLanguage][key]
                     else format(stringTables[currentLanguage][key], args)
      ensures !(currentLanguage in stringTables && key in stringTables[currentLanguage]) &&
              English in stringTables && key in stringTables[English] ==>
                r == if args == [] then stringTables[English][key] else format(stringTables[English][key], args)
      ensures !Found(stringTables, currentLanguage, key) ==> r == key
    {
      LocalizedString(stringTables, currentLanguage, key, args, format)
    }

    /**
     * The loading loop of `loadAndValidateTranslations`: `found` holds the
     * strings files the bundle yields; a language without one keeps its old
     * table.
     */
    method LoadTranslations(found: Tables)
      modifies this`stringTables
      ensures stringTables == old(stringTables) + found
    {
      for i := 0 to |AllCases|
        invariant stringTables == Loaded(old(stringTables), found, AllCases[..i])
      {
        var language := AllCases[i];
        assert AllCases[..i + 1][..i] == AllCases[..i];
        if language in found {
          stringTables := stringTables[language := found[language]];
        }
      }
      assert AllCases[..|AllCases|] == AllCases;
      LoadedAllCases(old(stringTables), found);
    }

    /** `loadAndValidateTranslations`, returning what a debug build's validation finds. */
    method LoadAndValidateTranslations(found: Tables) returns (v: Validation)
      modifies this`stringTables
      ensures stringTables == old(stringTables) + found
      ensures v == ValidationOf(stringTables)
    {
      LoadTranslations(found);
      v := ValidateTranslations(stringTables);
    }

    /**
     * `setLanguage`: nothing happens for the current language; otherwise the
     * `didSet` observer reloads the tables and persists the raw value.
     */
    method SetLanguage(language: Language, found: Tables) returns (v: Option<Validation>)
      modifies this
      ensures language == old(currentLanguage) ==>
                v == None && currentLanguage == old(currentLanguage) &&
                stringTables == old(stringTables) && savedLanguage == old(savedLanguage)
      ensures language != old(currentLanguage) ==>
                currentLanguage == language && savedLanguage == Some(RawValue(language)) &&
                stringTables == old(stringTables) + found && v == Some(ValidationOf(stringTables))
    {
      if language == currentLanguage {
        return None;
      }
      currentLanguage := language;
      var validation := LoadAndValidateTranslations(found);
      savedLanguage := Some(RawValue(currentLanguage));
      v := Some(validation);
    }
  }
}
