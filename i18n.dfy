/**
 * Translation: a Portuguese and an English catalogue of UI strings, the
 * lookup `t` with its fallbacks, the normalisation of a chosen language and
 * the detection of the device language. The catalogues' contents are a
 * parameter.
 */
module I18n {
  import opened Wrappers
  import opened Js

  /** The two catalogues, from key to text. */
  datatype Translations = Translations(pt: map<string, string>, en: map<string, string>)

  /** The catalogue of a language: English for "en", Portuguese for "pt" and for any language without a
      catalogue. */
  function Dictionary(tr: Translations, lang: string): (d: map<string, string>)
    ensures lang == "en" ==> d == tr.en
    ensures lang != "en" ==> d == tr.pt
  {
    if lang == "en" then tr.en else tr.pt
  }

  /** `t`: the text of the language's catalogue, else the Portuguese text, else the key itself. */
  function Translate(tr: Translations, lang: string, key: string): (r: string)
    ensures key in Dictionary(tr, lang) ==> r == Dictionary(tr, lang)[key]
    ensures key !in Dictionary(tr, lang) && key in tr.pt ==> r == tr.pt[key]
    ensures key !in Dictionary(tr, lang) && key !in tr.pt ==> r == key
  {
    var dict := Dictionary(tr, lang);
    if key in dict then dict[key] else if key in tr.pt then tr.pt[key] else key
  }

  /** A language without a catalogue reads exactly like Portuguese, and English falls back to Portuguese key
      by key. */
  lemma UnknownLanguageReadsAsPortuguese(tr: Translations, lang: string, key: string)
    requires lang != "en"
    ensures Translate(tr, lang, key) == Translate(tr, "pt", key)
    ensures key !in tr.en ==> Translate(tr, "en", key) == Translate(tr, "pt", key)
  {
  }

  /** Every text `t` gives is the key or an entry of one of the catalogues. */
  lemma TranslateComesFromCatalogues(tr: Translations, lang: string, key: string)
    ensures var r := Translate(tr, lang, key);
            r == key || (key in tr.pt && r == tr.pt[key]) || (key in tr.en && r == tr.en[key])
  {
  }

  /** `setLang`'s normalisation: exactly "en" stays English, anything else becomes Portuguese. */
  function SafeLang(next: string): (r: string)
    ensures r == "en" <==> next == "en"
    ensures r != "en" ==> r == "pt"
  {
    if next == "en" then "en" else "pt"
  }

  lemma SafeLangIdempotent(next: string)
    ensures SafeLang(SafeLang(next)) == SafeLang(next)
  {
  }

  /** Where the device language comes from: the browser's language on the web, the locale of the `Intl`
      API elsewhere (`None` when either is missing or empty), or that lookup throwing. */
  datatype Platform = Web(navigatorLanguage: Option<string>) | Native(locale: Option<string>) | NativeThrows

  /** The locale a platform reports, "pt-BR" when it reports none. */
  function LocaleOf(p: Platform): (r: string)
    requires !p.NativeThrows?
    ensures p.Web? && IsTruthy(p.navigatorLanguage) ==> r == p.navigatorLanguage.value
    ensures p.Native? && IsTruthy(p.locale) ==> r == p.locale.value
    ensures (p.Web? && !IsTruthy(p.navigatorLanguage)) || (p.Native? && !IsTruthy(p.locale)) ==> r == "pt-BR"
  {
    var reported := if p.Web? then p.navigatorLanguage else p.locale;
    if IsTruthy(reported) then reported.value else "pt-BR"
  }

  /** `detectLanguage`: Portuguese exactly when the lower-cased locale starts with "pt", or when the lookup
      throws; English otherwise. */
  function DetectLanguage(p: Platform): (r: string)
    ensures p.NativeThrows? ==> r == "pt"
    ensures !p.NativeThrows? ==> (r == "pt" <==> StartsWith(ToLower(LocaleOf(p)), "pt"))
    ensures r == "pt" || r == "en"
  {
    if p.NativeThrows? then "pt"
    else if StartsWith(ToLower(LocaleOf(p)), "pt") then "pt" else "en"
  }

  /** A platform that reports no locale is taken as Brazilian Portuguese; "PT-pt" and "pt" are Portuguese and
      "en-US" is English. */
  lemma DetectionExamples()
    ensures DetectLanguage(Web(None)) == "pt" && DetectLanguage(Native(Some(""))) == "pt"
    ensures DetectLanguage(Native(Some("PT-pt"))) == "pt" && DetectLanguage(Web(Some("pt"))) == "pt"
    ensures DetectLanguage(Web(Some("en-US"))) == "en"
  {
    assert ToLower("pt-BR")[..2] == "pt";
    assert ToLower("PT-pt")[..2] == "pt";
    assert ToLower("pt")[..2] == "pt";
    assert ToLower("en-US")[0] == 'e';
  }

  /** What the screens read through `t`: the default context's identity on keys until the provider is ready,
      the lookup afterwards. */
  function Visible(tr: Translations, lang: string, ready: bool, key: string): (r: string)
    ensures !ready ==> r == key
    ensures ready ==> r == Translate(tr, lang, key)
  {
    if ready then Translate(tr, lang, key) else key
  }

  /** The provider's first load as written: the stored-language lookup it calls is not defined by the storage
      module, so the call throws before anything is set, and the provider stays not ready. */
  function LoadAsWritten(lang: string, ready: bool): (r: (string, bool))
    ensures r == (lang, ready)
  {
    (lang, ready)
  }

  /** As written, the provider starts not ready and its load leaves it so: every screen shows keys such as
      "settings.title" instead of their texts. */
  lemma LoadAsWrittenShowsKeys(tr: Translations)
    requires "settings.title" in tr.pt && tr.pt["settings.title"] == "Configurações"
    ensures var (lang, ready) := LoadAsWritten("pt", false);
            && Visible(tr, lang, ready, "settings.title") == "settings.title"
            && Translate(tr, "pt", "settings.title") == "Configurações"
  {
  }

  /** The translation provider, as intended: a load sets the language and makes the provider ready. */
  class Provider {
    const tr: Translations
    var lang: string
    var ready: bool

    constructor (tr: Translations)
      ensures this.tr == tr && lang == "pt" && !ready
    {
      this.tr := tr;
      lang := "pt";
      ready := false;
    }

    /** `t` as the screens see it. */
    function T(key: string): (r: string)
      reads this
      ensures r == Visible(tr, lang, ready, key)
      ensures ready && key in Dictionary(tr, lang) ==> r == Dictionary(tr, lang)[key]
    {
      Visible(tr, lang, ready, key)
    }

    /** The first load: the stored language when there is one, else the detected one; then ready. */
    method Load(stored: Option<string>, platform: Platform)
      modifies this`lang, this`ready
      ensures ready && forall key :: T(key) == Translate(tr, lang, key)
      ensures IsTruthy(stored) ==> lang == stored.value
      ensures !IsTruthy(stored) ==> lang == DetectLanguage(platform) && (lang == "pt" || lang == "en")
    {
      lang := if IsTruthy(stored) then stored.value else DetectLanguage(platform);
      ready := true;
    }

    /** `setLang`: the normalised language is stored and used; `saved` is what goes to storage. */
    method SetLang(next: string) returns (saved: string)
      modifies this`lang
      ensures saved == SafeLang(next) && lang == saved
    {
      saved := if next == "en" then "en" else "pt";
      lang := saved;
    }
  }
}
