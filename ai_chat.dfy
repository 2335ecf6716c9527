/**
 * The string shaping of the simulated AI commands
 * (imbulichka/bot/cogs/ai_chat.py): `translate` wraps the text with the
 * language's name, `summarize` cuts long text, and the echoed original is
 * clipped to 500 characters.
 */
module AiChat {
  import opened Wrappers

  /** The supported codes in dictionary order, with their names. */
  const Languages: seq<(string, string)> := [
    ("en", "English"), ("ru", "Russian"), ("es", "Spanish"), ("fr", "French"), ("de", "German")]

  function Codes(langs: seq<(string, string)>): (codes: seq<string>)
    ensures |codes| == |langs| && forall i :: 0 <= i < |langs| ==> codes[i] == langs[i].0
  {
    if langs == [] then [] else [langs[0].0] + Codes(langs[1..])
  }

  /** `languages.get(lang)`. */
  function LanguageName(langs: seq<(string, string)>, lang: string): (r: Option<string>)
    ensures r.Some? <==> lang in Codes(langs)
    ensures r.Some? ==> (lang, r.value) in langs
  {
    if langs == [] then None
    else if langs[0].0 == lang then Some(langs[0].1)
    else LanguageName(langs[1..], lang)
  }

  /** `", ".join(languages.keys())`. */
  function JoinComma(items: seq<string>): string {
    if items == [] then "" else if |items| == 1 then items[0] else items[0] + ", " + JoinComma(items[1..])
  }

  datatype TranslateOutcome =
    | Unsupported(lang: string, available: string)
    | Translated(language: string, original: string, translated: string)

  /** `translate_command`: an unknown code is reported with the list of codes. */
  function Translate(lang: string, text: string): (o: TranslateOutcome)
    ensures o.Unsupported? <==> lang !in Codes(Languages)
  {
    match LanguageName(Languages, lang)
    case None => Unsupported(lang, JoinComma(Codes(Languages)))
    case Some(name) => Translated(name, text, "[" + name + "] " + text + " (translated)")
  }

  /** Recovers the text from a translation by removing the tag and the suffix. */
  function Untranslate(name: string, translated: string): (text: Option<string>)
  {
    var prefix := "[" + name + "] ";
    var suffix := " (translated)";
    if |translated| >= |prefix| + |suffix| && translated[..|prefix|] == prefix
       && translated[|translated| - |suffix|..] == suffix
    then Some(translated[|prefix|..|translated| - |suffix|])
    else None
  }

  /**
   * A translation keeps the original, names a supported language, and
   * carries the text unchanged between its tag and its suffix.
   */
  lemma TranslateSpec(lang: string, text: string)
    ensures Translate(lang, text).Translated? ==>
      var o := Translate(lang, text);
      o.original == text
      && (lang, o.language) in Languages
      && Untranslate(o.language, o.translated) == Some(text)
  {
    var o := Translate(lang, text);
    if o.Translated? {
      var prefix := "[" + o.language + "] ";
      var suffix := " (translated)";
      assert o.translated == prefix + text + suffix;
      assert o.translated[..|prefix|] == prefix;
      assert o.translated[|o.translated| - |suffix|..] == suffix;
      assert o.translated[|prefix|..|o.translated| - |suffix|] == text;
    }
  }

  /** The codes of the table, in order. */
  lemma LanguageCodes()
    ensures Codes(Languages) == ["en", "ru", "es", "fr", "de"]
  {
    var c := Codes(Languages);
    assert c[0] == "en" && c[1] == "ru" && c[2] == "es" && c[3] == "fr" && c[4] == "de";
  }

  /** One more code in front of a non-empty list adds it and a comma. */
  lemma JoinCommaCons(code: string, rest: seq<string>)
    requires |rest| >= 1
    ensures JoinComma([code] + rest) == code + ", " + JoinComma(rest)
  {
    assert ([code] + rest)[1..] == rest;
  }

  /** The codes as the error message lists them. */
  lemma AvailableCodes()
    ensures JoinComma(Codes(Languages)) == "en, ru, es, fr, de"
  {
    LanguageCodes();
    JoinCommaCons("fr", ["de"]);
    JoinCommaCons("es", ["fr", "de"]);
    JoinCommaCons("ru", ["es", "fr", "de"]);
    JoinCommaCons("en", ["ru", "es", "fr", "de"]);
  }

  /** An unknown code is refused with the five codes listed. */
  lemma UnsupportedListsCodes()
    ensures Translate("it", "ciao") == Unsupported("it", "en, ru, es, fr, de")
  {
    AvailableCodes();
  }

  const SummarySuffix := "... [summarized]"

  /** `summarize_command`'s summary. */
  function Summarize(text: string): (summary: string)
  {
    if |text| < 50 then text
    else if |text| <= 100 then text + SummarySuffix
    else text[..100] + SummarySuffix
  }

  /**
   * Text under 50 characters is its own summary; longer text keeps its
   * first (at most 100) characters followed by the marker, so the summary
   * is never longer than 116 characters.
   */
  lemma SummarizeSpec(text: string)
    ensures |text| < 50 ==> Summarize(text) == text
    ensures |text| >= 50 ==>
      var n := if |text| <= 100 then |text| else 100;
      |Summarize(text)| == n + |SummarySuffix|
      && Summarize(text)[..n] == text[..n]
      && Summarize(text)[n..] == SummarySuffix
    ensures |Summarize(text)| <= 116
  {
  }

  /** The "Original" field: `text[:500]`, with "..." when something was cut. */
  function ClipOriginal(text: string): (shown: string)
  {
    (if |text| <= 500 then text else text[..500]) + (if |text| > 500 then "..." else "")
  }

  /**
   * The field is at most 503 characters and shows text that fits unchanged.
   * Longer text is shown unchanged only when it is 503 characters ending in
   * "...", which the cut reproduces.
   */
  lemma ClipOriginalSpec(text: string)
    ensures ClipOriginal(text) == text <==> |text| <= 500 || (|text| == 503 && text[500..] == "...")
    ensures |ClipOriginal(text)| <= 503
    ensures |text| > 500 ==> ClipOriginal(text)[..500] == text[..500] && ClipOriginal(text)[500..] == "..."
  {
    if |text| > 500 {
      assert |ClipOriginal(text)| == 503;
    }
  }
}
