/**
 * The language of the site: English, Turkish or Russian, chosen from local
 * storage or the browser, remembered, and used to look up labels with the
 * key itself as the fallback.
 */
module LanguageContext {
  import opened Optional
  import opened Text

  datatype Language = En | Tr | Ru

  function Code(l: Language): string {
    match l
    case En => "en"
    case Tr => "tr"
    case Ru => "ru"
  }

  /** `["en", "tr", "ru"].includes(s)`, giving the language it names. */
  function FromCode(s: string): (r: Option<Language>)
    ensures r.Some? <==> s == "en" || s == "tr" || s == "ru"
    ensures r.Some? ==> Code(r.value) == s
  {
    if s == "en" then Some(En)
    else if s == "tr" then Some(Tr)
    else if s == "ru" then Some(Ru)
    else None
  }

  /** Every language's code is read back as that language. */
  lemma CodeRoundTrip(l: Language)
    ensures FromCode(Code(l)) == Some(l)
  {
  }

  const EnglishTable: map<string, string> := map[
    "company.type" := "Company Type",
    "company.established" := "Established",
    "company.status" := "Status",
    "company.contact" := "Contact",
    "company.address" := "Address in Russia",
    "company.overview" := "Company Overview",
    "company.financials" := "Financials",
    "company.subsidiaries" := "Subsidiaries",
    "company.documents" := "Documents"]

  const TurkishTable: map<string, string> := map[
    "company.type" := "Şirket Türü",
    "company.established" := "Kuruluş",
    "company.status" := "Durum",
    "company.contact" := "İletişim",
    "company.address" := "Rusya'daki Adres",
    "company.overview" := "Şirket Genel Bakışı",
    "company.financials" := "Finansal Bilgiler",
    "company.subsidiaries" := "Bağlı Kuruluşlar",
    "company.documents" := "Belgeler"]

  const RussianTable: map<string, string> := map[
    "company.type" := "Тип компании",
    "company.established" := "Основана",
    "company.status" := "Статус",
    "company.contact" := "Контакт",
    "company.address" := "Адрес в России",
    "company.overview" := "Обзор компании",
    "company.financials" := "Финансы",
    "company.subsidiaries" := "Дочерние компании",
    "company.documents" := "Документы"]

  function Table(l: Language): map<string, string> {
    match l
    case En => EnglishTable
    case Tr => TurkishTable
    case Ru => RussianTable
  }

  /** `translations[language][key] || key`. */
  function T(l: Language, key: string): (r: string)
    ensures key in Table(l) && Table(l)[key] != "" ==> r == Table(l)[key]
    ensures key !in Table(l) || Table(l)[key] == "" ==> r == key
  {
    if key in Table(l) && Table(l)[key] != "" then Table(l)[key] else key
  }

  /**
   * The three tables translate the same keys, all to non-empty texts: a key
   * is either translated in every language or shown as itself in every one.
   */
  lemma TablesAgreeOnKeys(l: Language, key: string)
    ensures Table(l).Keys == EnglishTable.Keys
    ensures key in EnglishTable ==> T(l, key) == Table(l)[key] && T(l, key) != ""
    ensures key !in EnglishTable ==> T(l, key) == key
  {
  }

  /**
   * The language chosen at start-up: a stored "en", "tr" or "ru" is adopted;
   * otherwise the browser language up to its first "-" if it is one of
   * those, else English.
   */
  function Resolve(stored: Option<string>, browserLanguage: string): (r: Language)
    ensures stored.Some? && FromCode(stored.value).Some? ==> r == FromCode(stored.value).value
    ensures (stored.None? || FromCode(stored.value).None?) ==>
      r == FromCode(Split(browserLanguage, '-')[0]).GetOr(En)
  {
    if stored.Some? && FromCode(stored.value).Some? then FromCode(stored.value).value
    else FromCode(Split(browserLanguage, '-')[0]).GetOr(En)
  }

  /** A regional browser setting such as "tr-TR" picks its language. */
  lemma RegionalBrowserLanguage(l: Language, region: string)
    requires '-' !in region
    ensures Resolve(None, Code(l) + "-" + region) == l
  {
    SplitAtFirst(Code(l), region, '-');
  }

  /** The provider's state: the language shown and the value kept in local storage. */
  class LanguageProvider {
    var language: Language
    var stored: Option<string>

    /** The stored value names the language shown. */
    predicate Synced()
      reads this
    {
      stored == Some(Code(language))
    }

    /** The first render: English, whatever is stored. */
    constructor (stored: Option<string>)
      ensures language == En && this.stored == stored
    {
      language := En;
      this.stored := stored;
    }

    /**
     * The start-up effect: adopt a valid stored language, or else resolve the
     * browser's and store it. Afterwards the two agree.
     */
    method Initialize(browserLanguage: string)
      modifies this
      ensures language == Resolve(old(stored), browserLanguage)
      ensures old(stored).Some? && FromCode(old(stored).value).Some? ==> stored == old(stored)
      ensures Synced()
    {
      if stored.Some? && FromCode(stored.value).Some? {
        language := FromCode(stored.value).value;
      } else {
        var browserLang := Split(browserLanguage, '-')[0];
        var defaultLang := FromCode(browserLang).GetOr(En);
        language := defaultLang;
        stored := Some(Code(defaultLang));
      }
    }

    /** `setLanguage`: the state and the stored value both become `l`. */
    method SetLanguage(l: Language)
      modifies this
      ensures language == l && stored == Some(Code(l))
      ensures Synced()
    {
      language := l;
      stored := Some(Code(l));
    }

    /** `t` with the current language. */
    function Translate(key: string): string
      reads this
    {
      T(language, key)
    }
  }
}
