/**
 * ClipZen/ThemeMode.swift: the user's theme choice and the colour scheme it
 * stands for, with the system appearance supplied as an input.
 */
module Theme {
  import opened Common

  datatype ThemeMode = System | Light | Dark

  /** SwiftUI's `ColorScheme`. */
  datatype ColorScheme = LightScheme | DarkScheme

  /** The appearance names `bestMatch(from: [.darkAqua, .aqua])` can answer. */
  datatype AppearanceName = DarkAqua | Aqua

  function RawValue(m: ThemeMode): string {
    match m
    case System => "system"
    case Light => "light"
    case Dark => "dark"
  }

  /** `ThemeMode(rawValue:)`, which `@AppStorage("themeMode")` uses to read the setting back. */
  function FromRawValue(s: string): (r: Option<ThemeMode>)
    ensures forall m :: RawValue(m) == s <==> r == Some(m)
    ensures r.None? <==> s !in {"system", "light", "dark"}
  {
    match s
    case "system" => Some(System)
    case "light" => Some(Light)
    case "dark" => Some(Dark)
    case _ => None
  }

  /**
   * `colorScheme`; `bestMatch` is what the application's effective appearance
   * answers to `bestMatch(from: [.darkAqua, .aqua])`.
   */
  function ColorSchemeOf(m: ThemeMode, bestMatch: Option<AppearanceName>): (r: ColorScheme)
    ensures m == Light ==> r == LightScheme
    ensures m == Dark ==> r == DarkScheme
    ensures m == System ==> (r == DarkScheme <==> bestMatch == Some(DarkAqua))
  {
    match m
    case Light => LightScheme
    case Dark => DarkScheme
    case System => if bestMatch == Some(DarkAqua) then DarkScheme else LightScheme
  }

  /** Only the system theme depends on the appearance. */
  lemma ExplicitThemeIgnoresAppearance(m: ThemeMode, a: Option<AppearanceName>, b: Option<AppearanceName>)
    requires m != System
    ensures ColorSchemeOf(m, a) == ColorSchemeOf(m, b)
  {
  }
}
