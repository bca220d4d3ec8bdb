/** Date formatting: the date-fns locale chosen from the app language's primary
    subtag, and the call `formatDate` makes to date-fns. date-fns itself
    (`parseISO`, `format`) is not modelled: the result is the call it receives. */
module FormatDate {
  import opened Js

  /** The locales the app bundles. */
  datatype DateFnsLocale = EnUS | Ar | Ko | Es | Fr | Hi | Ja

  /** `language.split('-')[0]`: the text before the first hyphen, or all of it. */
  function PrimaryTag(language: string): (r: string)
    ensures r <= language
    ensures '-' !in r
    ensures '-' !in language ==> r == language
    ensures |r| < |language| ==> language[|r|] == '-'
  {
    language[..FirstIndexOf(language, '-')]
  }

  /** Whatever follows the first hyphen does not matter. */
  lemma PrimaryTagOfSubtagged(tag: string, rest: string)
    requires '-' !in tag
    ensures PrimaryTag(tag + "-" + rest) == tag
  {
    FirstIndexOfAfterPrefix(tag, '-', rest);
    assert (tag + "-" + rest)[..|tag|] == tag;
  }

  /** The switch over the primary tag; `en` and every unsupported tag give US English. */
  function LocaleForTag(tag: string): (r: DateFnsLocale)
    ensures r == Ar <==> tag == "ar"
    ensures r == Ko <==> tag == "ko"
    ensures r == Es <==> tag == "es"
    ensures r == Fr <==> tag == "fr"
    ensures r == Hi <==> tag == "hi"
    ensures r == Ja <==> tag == "ja"
    ensures r == EnUS <==> tag !in {"ar", "ko", "es", "fr", "hi", "ja"}
  {
    match tag
    case "en" => EnUS
    case "ar" => Ar
    case "ko" => Ko
    case "es" => Es
    case "fr" => Fr
    case "hi" => Hi
    case "ja" => Ja
    case _ => EnUS
  }

  /** The locale a language selects. A language without a hyphen is its own
      primary tag; any locale but US English comes from a two-letter primary
      tag, so `language` starts with that tag and then ends or has a hyphen. */
  function LocaleFor(language: string): (r: DateFnsLocale)
    ensures '-' !in language ==> r == LocaleForTag(language)
    ensures r != EnUS ==>
              |language| >= 2 && language[..2] in {"ar", "ko", "es", "fr", "hi", "ja"}
              && (|language| == 2 || language[2] == '-')
  {
    LocaleForTag(PrimaryTag(language))
  }

  /** A regional variant selects the same locale as its bare language, so
      `fr-CA` and `fr` agree. */
  lemma RegionalVariantSameLocale(tag: string, region: string)
    requires '-' !in tag
    ensures LocaleFor(tag + "-" + region) == LocaleFor(tag)
  {
    PrimaryTagOfSubtagged(tag, region);
  }

  /** `RegionalVariantSameLocale` for Canadian French. */
  lemma CanadianFrenchIsFrench()
    ensures LocaleFor("fr-CA") == LocaleFor("fr") == Fr
  {
    RegionalVariantSameLocale("fr", "CA");
    assert "fr" + "-" + "CA" == "fr-CA";
  }

  /** One entry of the options object handed to date-fns: the locale (which is
      `undefined` until a locale is loaded) or any other setting, kept opaque. */
  datatype OptionValue = LocaleOption(locale: Option<DateFnsLocale>) | Setting(text: string)

  type Options = map<string, OptionValue>

  const DefaultPattern := "MMM dd, yyyy"

  /** `format(parseISO(date), pattern, options)`, as a call. */
  datatype FormatCall = FormatCall(date: string, pattern: string, options: Options)

  /** `{...options, locale: dateFnsLocale}`; spreading `undefined` gives `{}`. */
  function WithLocale(options: Option<Options>, locale: Option<DateFnsLocale>): (r: Options)
    ensures "locale" in r && r["locale"] == LocaleOption(locale)
    ensures forall k :: k != "locale" ==> (k in r <==> options.Some? && k in options.value)
    ensures options.Some? ==> forall k :: k in options.value && k != "locale" ==> r[k] == options.value[k]
  {
    var base := if options.Some? then options.value else map[];
    base["locale" := LocaleOption(locale)]
  }

  /** The module-level `dateFnsLocale` and the two functions over it. */
  class DateFormatting {
    /** `None` stands for the `undefined` value before the first load. */
    var dateFnsLocale: Option<DateFnsLocale>

    constructor()
      ensures dateFnsLocale.None?
    {
      dateFnsLocale := None;
    }

    method LoadDateFnsLocale(language: string)
      modifies this
      ensures dateFnsLocale == Some(LocaleFor(language))
    {
      var primaryTag := PrimaryTag(language);
      if primaryTag == "en" {
        dateFnsLocale := Some(EnUS);
      } else if primaryTag == "ar" {
        dateFnsLocale := Some(Ar);
      } else if primaryTag == "ko" {
        dateFnsLocale := Some(Ko);
      } else if primaryTag == "es" {
        dateFnsLocale := Some(Es);
      } else if primaryTag == "fr" {
        dateFnsLocale := Some(Fr);
      } else if primaryTag == "hi" {
        dateFnsLocale := Some(Hi);
      } else if primaryTag == "ja" {
        dateFnsLocale := Some(Ja);
      } else {
        dateFnsLocale := Some(EnUS);
      }
    }

    function FormatDate(date: string, dateFormat: Option<string>, options: Option<Options>): (r: FormatCall)
      reads this
      ensures r.date == date
      ensures r.pattern == if dateFormat.Some? then dateFormat.value else DefaultPattern
      ensures r.options == WithLocale(options, dateFnsLocale)
      ensures "locale" in r.options && r.options["locale"] == LocaleOption(dateFnsLocale)
    {
      FormatCall(date, if dateFormat.Some? then dateFormat.value else DefaultPattern, WithLocale(options, dateFnsLocale))
    }
  }

  /** After a load, every call carries the loaded locale, whatever locale the
      caller passed. */
  method LoadThenFormat(f: DateFormatting, language: string, date: string, options: Options)
    modifies f
    ensures f.FormatDate(date, None, Some(options)).options
         == options["locale" := LocaleOption(Some(LocaleFor(language)))]
    ensures f.FormatDate(date, None, Some(options)).pattern == DefaultPattern
  {
    f.LoadDateFnsLocale(language);
  }
}
