/**
 * ClipZen/Language.swift: the eleven interface languages of the localization
 * manager and the mapping from the system locale to one of them.
 */
module Languages {
  import opened Common

  datatype Language =
    | English | Turkish | German | SimplifiedChinese | TraditionalChinese
    | Japanese | Korean | French | Spanish | Italian | Russian

  /** `allCases`, in declaration order. */
  const AllCases: seq<Language> :=
    [English, Turkish, German, SimplifiedChinese, TraditionalChinese,
     Japanese, Korean, French, Spanish, Italian, Russian]

  lemma AllCasesComplete(l: Language)
    ensures l in AllCases
  {
  }

  function RawValue(l: Language): string {
    match l
    case English => "en"
    case Turkish => "tr"
    case German => "de"
    case SimplifiedChinese => "zh-Hans"
    case TraditionalChinese => "zh-Hant"
    case Japanese => "ja"
    case Korean => "ko"
    case French => "fr"
    case Spanish => "es"
    case Italian => "it"
    case Russian => "ru"
  }

  /** `Language(rawValue:)`. */
  function FromRawValue(s: string): (r: Option<Language>)
    ensures forall l :: RawValue(l) == s <==> r == Some(l)
  {
    match s
    case "en" => Some(English)
    case "tr" => Some(Turkish)
    case "de" => Some(German)
    case "zh-Hans" => Some(SimplifiedChinese)
    case "zh-Hant" => Some(TraditionalChinese)
    case "ja" => Some(Japanese)
    case "ko" => Some(Korean)
    case "fr" => Some(French)
    case "es" => Some(Spanish)
    case "it" => Some(Italian)
    case "ru" => Some(Russian)
    case _ => None
  }

  /** Raw values round-trip, so the eleven of them are distinct. */
  lemma RawValueRoundTrip(l: Language)
    ensures FromRawValue(RawValue(l)) == Some(l)
  {
  }

  /** `displayName`: each language's name in that language. */
  function DisplayName(l: Language): string {
    match l
    case English => "English"
    case Turkish => "Türkçe"
    case German => "Deutsch"
    case SimplifiedChinese => "简体中文"
    case TraditionalChinese => "繁體中文"
    case Japanese => "日本語"
    case Korean => "한국어"
    case French => "Français"
    case Spanish => "Español"
    case Italian => "Italiano"
    case Russian => "Русский"
  }

  lemma DisplayNamesDistinct(a: Language, b: Language)
    ensures DisplayName(a) == DisplayName(b) <==> a == b
  {
  }

  /** The language codes `systemLanguage` maps straight to a case. */
  const DirectCodes: set<string> := {"tr", "en", "de", "fr", "es", "it", "ja", "ko"}

  /**
   * `systemLanguage`: the locale's language code (default "en") and region
   * code (default "") pick a language; Chinese splits on the region, and any
   * code not listed falls back to English.
   */
  function SystemLanguage(languageCode: Option<string>, regionCode: Option<string>): (r: Language)
    ensures var code, region := languageCode.GetOr("en"), regionCode.GetOr("");
            && (code in DirectCodes ==> RawValue(r) == code)
            && (code == "zh" ==> r == (if region == "TW" || region == "HK" then TraditionalChinese else SimplifiedChinese))
            && (code !in DirectCodes && code != "zh" ==> r == English)
    ensures r != Russian
  {
    var code := languageCode.GetOr("en");
    var region := regionCode.GetOr("");
    match code
    case "tr" => Turkish
    case "en" => English
    case "de" => German
    case "fr" => French
    case "es" => Spanish
    case "it" => Italian
    case "ja" => Japanese
    case "ko" => Korean
    case "zh" => if region == "TW" || region == "HK" then TraditionalChinese else SimplifiedChinese
    case _ => English
  }

  /** The region code matters only for Chinese. */
  lemma RegionMattersOnlyForChinese(languageCode: Option<string>, a: Option<string>, b: Option<string>)
    requires languageCode != Some("zh")
    ensures SystemLanguage(languageCode, a) == SystemLanguage(languageCode, b)
  {
  }
}
