/**
 * Languages, themes and translation lookup of src/services/workflow.service.ts.
 * The translation table itself is an input: its contents are not modelled.
 */
module I18n {
  import opened JsText

  datatype Language = En | ZhTW | ZhCN | Ja | Ko | De | Es | Fr | Pt

  datatype Theme = Light | Slate | Dark | Black | Amoled

  /** The rotation order of `cycleLang`. */
  const LANGS: seq<Language> := [En, ZhTW, ZhCN, Ja, Ko, De, Es, Fr, Pt]

  /** The rotation order of `cycleTheme`. */
  const THEMES: seq<Theme> := [Light, Slate, Dark, Black, Amoled]

  /** `langs.indexOf(l)`. */
  function LangIndex(l: Language): (i: nat)
    ensures i < |LANGS| && LANGS[i] == l
  {
    match l
    case En => 0 case ZhTW => 1 case ZhCN => 2 case Ja => 3 case Ko => 4
    case De => 5 case Es => 6 case Fr => 7 case Pt => 8
  }

  function ThemeIndex(t: Theme): (i: nat)
    ensures i < |THEMES| && THEMES[i] == t
  {
    match t
    case Light => 0 case Slate => 1 case Dark => 2 case Black => 3 case Amoled => 4
  }

  /** The language after `l` in the rotation, wrapping from the last to the first. */
  function NextLang(l: Language): (r: Language)
    ensures LangIndex(r) == (LangIndex(l) + 1) % 9
  {
    LANGS[(LangIndex(l) + 1) % |LANGS|]
  }

  function NextTheme(t: Theme): (r: Theme)
    ensures ThemeIndex(r) == (ThemeIndex(t) + 1) % 5
  {
    THEMES[(ThemeIndex(t) + 1) % |THEMES|]
  }

  /** The language before `l` in the rotation. */
  function PrevLang(l: Language): (r: Language)
    ensures LangIndex(r) == (LangIndex(l) + 8) % 9
  {
    LANGS[(LangIndex(l) + |LANGS| - 1) % |LANGS|]
  }

  function PrevTheme(t: Theme): (r: Theme)
    ensures ThemeIndex(r) == (ThemeIndex(t) + 4) % 5
  {
    THEMES[(ThemeIndex(t) + |THEMES| - 1) % |THEMES|]
  }

  lemma LangIndexInjective(a: Language, b: Language)
    requires LangIndex(a) == LangIndex(b)
    ensures a == b
  {
  }

  lemma ThemeIndexInjective(a: Theme, b: Theme)
    requires ThemeIndex(a) == ThemeIndex(b)
    ensures a == b
  {
  }

  /** The rotation can be undone step by step, so it visits every language and repeats none before coming back. */
  lemma NextLangInverse(l: Language)
    ensures NextLang(PrevLang(l)) == l && PrevLang(NextLang(l)) == l
  {
    var i := LangIndex(l);
    assert ((i + 8) % 9 + 1) % 9 == i && ((i + 1) % 9 + 8) % 9 == i;
    LangIndexInjective(NextLang(PrevLang(l)), l);
    LangIndexInjective(PrevLang(NextLang(l)), l);
  }

  lemma NextThemeInverse(t: Theme)
    ensures NextTheme(PrevTheme(t)) == t && PrevTheme(NextTheme(t)) == t
  {
    var i := ThemeIndex(t);
    assert ((i + 4) % 5 + 1) % 5 == i && ((i + 1) % 5 + 4) % 5 == i;
    ThemeIndexInjective(NextTheme(PrevTheme(t)), t);
    ThemeIndexInjective(PrevTheme(NextTheme(t)), t);
  }

  /** The icon name shown for each theme. */
  function ThemeIcon(t: Theme): (r: string)
    ensures r != ""
  {
    match t
    case Light => "light_mode"
    case Slate => "bedtime"
    case Dark => "dark_mode"
    case Black => "nightlight"
    case Amoled => "brightness_3"
  }

  /** Different themes show different icons. */
  lemma ThemeIconInjective(a: Theme, b: Theme)
    requires a != b
    ensures ThemeIcon(a) != ThemeIcon(b)
  {
  }

  /** A translation table: per language, key to text. */
  type Table = map<Language, map<string, string>>

  /** A non-empty entry for `key` in the table for `l`; an empty string counts as missing (`||`). */
  predicate HasEntry(table: Table, l: Language, key: string) {
    l in table && key in table[l] && table[l][key] != ""
  }

  /** The first lookup of `t`: the current language, then English, then the key itself. */
  function Lookup(table: Table, l: Language, key: string): (r: string)
    ensures HasEntry(table, l, key) ==> r == table[l][key]
    ensures !HasEntry(table, l, key) && HasEntry(table, En, key) ==> r == table[En][key]
    ensures !HasEntry(table, l, key) && !HasEntry(table, En, key) ==> r == key
    ensures key != "" ==> r != ""
  {
    if l in table && key in table[l] && table[l][key] != "" then table[l][key]
    else if En in table && key in table[En] && table[En][key] != "" then table[En][key]
    else key
  }

  /** A language the table does not cover reads exactly the English texts. */
  lemma MissingLanguageReadsEnglish(table: Table, l: Language, key: string)
    requires l !in table
    ensures Lookup(table, l, key) == Lookup(table, En, key)
  {
  }

  /** The `{name}` placeholder a parameter fills. */
  function Placeholder(name: string): string {
    "{" + name + "}"
  }

  /**
   * The parameter loop of `t`: each parameter, in order, replaces the first
   * occurrence of its placeholder. Values are already rendered as text.
   */
  function ApplyParams(text: string, params: seq<(string, string)>): string
    decreases |params|
  {
    if params == [] then text
    else
      var last := params[|params| - 1];
      ReplaceFirst(ApplyParams(text, params[..|params| - 1]), Placeholder(last.0), last.1)
  }

  /** A text without any of the placeholders comes through the parameter loop unchanged. */
  lemma {:induction false} ApplyParamsWithoutPlaceholders(text: string, params: seq<(string, string)>)
    requires forall i :: 0 <= i < |params| ==> !Includes(text, Placeholder(params[i].0))
    ensures ApplyParams(text, params) == text
    decreases |params|
  {
    if params != [] {
      ApplyParamsWithoutPlaceholders(text, params[..|params| - 1]);
    }
  }

  /** A single parameter whose placeholder occurs puts its value in place of the first occurrence. */
  lemma SingleParam(text: string, name: string, value: string)
    requires Includes(text, Placeholder(name))
    ensures
      var i := IndexOf(text, Placeholder(name));
      ApplyParams(text, [(name, value)]) == text[..i] + value + text[i + |Placeholder(name)|..]
  {
    assert [(name, value)][..0] == [];
  }

  /** `t(key, params)`. */
  function Translate(table: Table, l: Language, key: string, params: seq<(string, string)>): string {
    ApplyParams(Lookup(table, l, key), params)
  }
}
