/** The interface locale of a guild configuration (`conftoml/src/guildconf/locale.rs`): its
    display form and the string visitor that deserializes it. */
module GuildLocale {
  import opened Wrappers

  /** `Locale`. */
  datatype Locale = EnAu | EnGb | EnUs | ZhHk

  /** `Display for Locale`. */
  function Display(l: Locale): (r: string)
    ensures |r| == 5 && r[2] == '_'
  {
    match l
    case EnAu => "en_AU"
    case EnGb => "en_GB"
    case EnUs => "en_US"
    case ZhHk => "zh_HK"
  }

  /** The error a deserializer reports. */
  datatype DeError = Custom(message: string)

  /** The strings `visit_str` accepts. */
  predicate IsLocaleName(v: string) {
    v == "en_AU" || v == "en_GB" || v == "en_US" || v == "zh_HK"
  }

  /** `visit_str`: one of the four display forms gives its locale; any other string,
      another casing included, is `invalid locale`. */
  function VisitStr(v: string): (r: Result<Locale, DeError>)
    ensures r.Ok? <==> IsLocaleName(v)
    ensures r.Ok? ==> Display(r.value) == v
    ensures r.Err? ==> r.error == Custom("invalid locale")
  {
    match v
    case "en_AU" => Ok(EnAu)
    case "en_GB" => Ok(EnGb)
    case "en_US" => Ok(EnUs)
    case "zh_HK" => Ok(ZhHk)
    case _ => Err(Custom("invalid locale"))
  }

  /** Parsing a displayed locale gives it back. */
  lemma DisplayRoundTrip(l: Locale)
    ensures VisitStr(Display(l)) == Ok(l)
  {
  }

  /** Distinct locales display differently. */
  lemma DisplayInjective(a: Locale, b: Locale)
    requires Display(a) == Display(b)
    ensures a == b
  {
    DisplayRoundTrip(a);
    DisplayRoundTrip(b);
  }
}
