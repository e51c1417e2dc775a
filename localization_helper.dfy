/**
 * ClipZen/LocalizationHelper.swift: the settings screen's language list,
 * which adds a "system" entry, its default from the locale, the bundle each
 * entry selects, and the free function `LocalizedString`.
 */
module LocalizationHelper {
  import opened Common

  datatype Language =
    | System | English | German | SimplifiedChinese | TraditionalChinese
    | Japanese | Korean | French | Spanish | Italian | Russian | Turkish

  function RawValue(l: Language): string {
    match l
    case System => "system"
    case English => "en"
    case German => "de"
    case SimplifiedChinese => "zh-Hans"
    case TraditionalChinese => "zh-Hant"
    case Japanese => "ja"
    case Korean => "ko"
    case French => "fr"
    case Spanish => "es"
    case Italian => "it"
    case Russian => "ru"
    case Turkish => "tr"
  }

  /** `Language(rawValue:)`. */
  function FromRawValue(s: string): (r: Option<Language>)
    ensures forall l :: RawValue(l) == s <==> r == Some(l)
  {
    match s
    case "system" => Some(System)
    case "en" => Some(English)
    case "de" => Some(German)
    case "zh-Hans" => Some(SimplifiedChinese)
    case "zh-Hant" => Some(TraditionalChinese)
    case "ja" => Some(Japanese)
    case "ko" => Some(Korean)
    case "fr" => Some(French)
    case "es" => Some(Spanish)
    case "it" => Some(Italian)
    case "ru" => Some(Russian)
    case "tr" => Some(Turkish)
    case _ => None
  }

  /** Raw values, "system" included, round-trip, so they are distinct. */
  lemma RawValueRoundTrip(l: Language)
    ensures FromRawValue(RawValue(l)) == Some(l)
  {
  }

  /**
   * `systemDefault`: the case whose raw value is the locale's language code
   * (default "en"), else English.
   */
  function SystemDefault(languageCode: Option<string>): (r: Language)
    ensures forall l :: RawValue(l) == languageCode.GetOr("en") ==> r == l
    ensures (forall l :: RawValue(l) != languageCode.GetOr("en")) ==> r == English
  {
    FromRawValue(languageCode.GetOr("en")).GetOr(English)
  }

  /** A bare "zh" code names no case, so it gives English rather than a Chinese script. */
  lemma BareChineseGivesEnglish()
    ensures SystemDefault(Some("zh")) == English
  {
  }

  /** The bundle `bundle` asks for: the main bundle, or a named `.lproj` resource. */
  datatype BundleRequest = MainBundle | Resource(name: string, ofType: string)

  /**
   * `bundle`: the main bundle for `.system`; otherwise the `<rawValue>.lproj`
   * bundle, when `lookup` (the bundle path query) finds one.
   */
  function BundleOf<B>(l: Language, main: B, lookup: BundleRequest -> Option<B>): (r: Option<B>)
    ensures l == System ==> r == Some(main)
    ensures l != System ==> r == lookup(Resource(RawValue(l), "lproj"))
  {
    if l == System then Some(main) else lookup(Resource(RawValue(l), "lproj"))
  }

  /** Two different languages never ask for the same resource. */
  lemma BundleRequestsDistinct(a: Language, b: Language)
    requires a != b
    ensures Resource(RawValue(a), "lproj") != Resource(RawValue(b), "lproj")
  {
    RawValueRoundTrip(a);
    RawValueRoundTrip(b);
  }

  /**
   * `LocalizedString(key, args...)`: the looked-up format string itself when
   * there are no arguments, otherwise that string formatted with them.
   * `localize` stands for NSLocalizedString and `format` for String(format:).
   */
  function LocalizedString<A>(key: string, args: seq<A>, localize: string -> string,
                              format: (string, seq<A>) -> string): (r: string)
    ensures args == [] ==> r == localize(key)
    ensures args != [] ==> r == format(localize(key), args)
  {
    var fmt := localize(key);
    if args == [] then fmt else format(fmt, args)
  }
}
