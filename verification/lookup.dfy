/**
 * The total lookups the client offers its views: translated text `t`
 * (App.tsx, lines 225-232), subject display names `tSubject` (lines 234-237)
 * and theme classes `getThemeClasses` (lines 211-223). The tables themselves
 * are data outside this model and are taken as parameters.
 */
module Lookup {
  import Text

  /** A two-level table: language (or theme colour) to key to text. */
  type Table = map<string, map<string, string>>

  /** `table[outer]?.[inner]` is a non-empty string (a truthy entry). */
  predicate HasEntry(table: Table, outer: string, inner: string) {
    outer in table && inner in table[outer] && table[outer][inner] != ""
  }

  /**
   * `translations[lang]?.[key] || translations.nl[key] || key`: the entry of
   * the current language, else the Dutch entry, else the key itself.
   */
  function Translation(translations: Table, lang: string, key: string): (text: string)
    ensures HasEntry(translations, lang, key) ==> text == translations[lang][key]
    ensures !HasEntry(translations, lang, key) && HasEntry(translations, "nl", key) ==>
              text == translations["nl"][key]
    ensures !HasEntry(translations, lang, key) && !HasEntry(translations, "nl", key) ==> text == key
    ensures key != "" ==> text != ""
  {
    if HasEntry(translations, lang, key) then translations[lang][key]
    else if HasEntry(translations, "nl", key) then translations["nl"][key]
    else key
  }

  /** A language without a table reads exactly like Dutch. */
  lemma UnknownLanguageReadsDutch(translations: Table, lang: string, key: string)
    requires lang !in translations
    ensures Translation(translations, lang, key) == Translation(translations, "nl", key)
  {
  }

  function Placeholder(name: string): string {
    "{" + name + "}"
  }

  /**
   * The text after the loop of `t`: for each replacement in order, the first
   * occurrence of `{name}` in the text built so far becomes the value.
   */
  function ApplyReplacements(text: string, replacements: seq<(string, string)>): string
    decreases |replacements|
  {
    if replacements == [] then text
    else
      var last := replacements[|replacements| - 1];
      Text.ReplaceFirst(ApplyReplacements(text, replacements[..|replacements| - 1]), Placeholder(last.0), last.1)
  }

  /** Replacements whose placeholders do not occur leave the text unchanged. */
  lemma {:induction false} AbsentPlaceholdersKeepText(text: string, replacements: seq<(string, string)>)
    requires forall i :: 0 <= i < |replacements| ==> !Text.Contains(text, Placeholder(replacements[i].0))
    ensures ApplyReplacements(text, replacements) == text
  {
    if replacements != [] {
      AbsentPlaceholdersKeepText(text, replacements[..|replacements| - 1]);
    }
  }

  /** One replacement puts its value where the first placeholder stood. */
  lemma SingleReplacement(text: string, name: string, value: string)
    requires Text.Contains(text, Placeholder(name))
    ensures var i := Text.IndexOf(text, Placeholder(name));
            ApplyReplacements(text, [(name, value)]) == text[..i] + value + text[i + |name| + 2..]
  {
    var r := ApplyReplacements(text, [(name, value)]);
    assert [(name, value)][..0] == [];
    assert ApplyReplacements(text, [(name, value)][..0]) == text;
    var i := Text.IndexOf(text, Placeholder(name));
    assert r == Text.ReplaceFirst(text, Placeholder(name), value);
    assert r == r[..i] + r[i..i + |value|] + r[i + |value|..];
  }

  /** `s.replace(/_/g, ' ')`. */
  function UnderscoresToSpaces(s: string): (r: string)
    ensures |r| == |s|
    ensures forall i :: 0 <= i < |r| ==> r[i] != '_'
    ensures forall i :: 0 <= i < |r| ==> (s[i] == '_' ==> r[i] == ' ') && (s[i] != '_' ==> r[i] == s[i])
  {
    seq(|s|, i requires 0 <= i < |s| => if s[i] == '_' then ' ' else s[i])
  }

  /**
   * The fallback display name of a subject key: first character upper-cased,
   * underscores in the rest turned into spaces; the empty key stays empty.
   */
  function Humanize(key: string): (r: string)
    ensures key == "" <==> r == ""
    ensures key != "" ==> |key| <= |r| <= |key| + 1
    ensures key != "" ==> forall i :: |r| - |key| < i < |r| ==> r[i] != '_'
    ensures key != "" ==> r[..|r| - |key| + 1] == Text.UpperChar(key[0])
    ensures key != "" ==> r[|r| - |key| + 1..] == UnderscoresToSpaces(key[1..])
  {
    if key == "" then "" else Text.UpperChar(key[0]) + UnderscoresToSpaces(key[1..])
  }

  /**
   * `tSubject`: the display name of the current language, else the
   * humanized key. Unlike `t` there is no Dutch fallback.
   */
  function SubjectName(names: Table, lang: string, key: string): (r: string)
    ensures HasEntry(names, lang, key) ==> r == names[lang][key]
    ensures !HasEntry(names, lang, key) ==> r == Humanize(key)
    ensures key != "" ==> r != ""
  {
    if HasEntry(names, lang, key) then names[lang][key] else Humanize(key)
  }

  /**
   * `getThemeClasses`: the class of the current colour, else the emerald
   * class of the same variant, else the empty string.
   */
  function ThemeClass(styles: Table, color: string, variant: string): (r: string)
    ensures HasEntry(styles, color, variant) ==> r == styles[color][variant]
    ensures !HasEntry(styles, color, variant) && HasEntry(styles, "emerald", variant) ==>
              r == styles["emerald"][variant]
    ensures r == "" <==> !HasEntry(styles, color, variant) && !HasEntry(styles, "emerald", variant)
  {
    if HasEntry(styles, color, variant) then styles[color][variant]
    else if HasEntry(styles, "emerald", variant) then styles["emerald"][variant]
    else ""
  }

  /** An unknown theme colour renders exactly like emerald. */
  lemma UnknownColorRendersEmerald(styles: Table, color: string, variant: string)
    requires color !in styles
    ensures ThemeClass(styles, color, variant) == ThemeClass(styles, "emerald", variant)
  {
  }
}
