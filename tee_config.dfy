/** The URL builders of the tee-time agent's settings: the login page, the tee sheet of
    one date, and the Telegram Bot API endpoint. Settings values are plain strings here. */
module TeeConfig {
  import opened Wrappers
  import opened Text
  import opened Calendar

  /** The club site used when no base URL is configured. */
  const DefaultBaseUrl: string := "https://members.brsgolf.com"

  /** The Telegram Bot API prefix, followed directly by the bot token. */
  const TelegramApiPrefix: string := "https://api.telegram.org/bot"

  const MissingSlugError: string := "club_slug must be provided when login_url is not set"

  /** `values.get(key)` on the settings seen so far. */
  function Get(values: map<string, string>, key: string): (r: Option<string>)
    ensures r.Some? <==> key in values
    ensures r.Some? ==> r.value == values[key]
  {
    if key in values then Some(values[key]) else None
  }

  /** A base URL without its trailing slashes, so it can be joined with `/`. */
  function BaseRoot(base: string): (r: string)
    ensures r == [] || r[|r| - 1] != '/'
    ensures StartsWith(base, r)
  {
    RStripChar(base, '/')
  }

  /** Adding a trailing slash to the base URL does not change where it leads. */
  lemma BaseRootSlash(base: string)
    ensures BaseRoot(base + "/") == BaseRoot(base)
  {
    assert (base + "/")[..|base|] == base;
  }

  /** The `default_login_url` validator: a truthy supplied login URL is kept; otherwise the
      URL is built from the base URL (or the default site) and the club slug, and a missing
      or empty slug is a `ValueError`. */
  function DefaultLoginUrl(value: Option<string>, values: map<string, string>): (r: Result<string>)
    ensures TruthyText(value) ==> r == Success(value.value)
    ensures !TruthyText(value) ==> (r.Failure? <==> !TruthyText(Get(values, "club_slug")))
    ensures r.Failure? ==> r.error == MissingSlugError
    ensures !TruthyText(value) && r.Success? ==>
              r.value == BaseRoot(if TruthyText(Get(values, "base_url")) then values["base_url"] else DefaultBaseUrl)
                         + "/" + values["club_slug"] + "/login"
  {
    if TruthyText(value) then Success(value.value)
    else
      var base := BaseRoot(if TruthyText(Get(values, "base_url")) then values["base_url"] else DefaultBaseUrl);
      var slug := Get(values, "club_slug");
      if !TruthyText(slug) then Failure(MissingSlugError)
      else Success(base + "/" + slug.value + "/login")
  }

  /** With no login URL supplied, the built URL is the slug's login page: it ends in
      `/<slug>/login`, and the base part before it never ends in a slash. */
  lemma LoginUrlShape(values: map<string, string>)
    requires TruthyText(Get(values, "club_slug"))
    ensures DefaultLoginUrl(None, values).Success?
    ensures EndsWith(DefaultLoginUrl(None, values).value, "/" + values["club_slug"] + "/login")
    ensures var u := DefaultLoginUrl(None, values).value;
            var k := |u| - |"/" + values["club_slug"] + "/login"|;
            k == 0 || u[k - 1] != '/'
  {
    var u := DefaultLoginUrl(None, values).value;
    var tail := "/" + values["club_slug"] + "/login";
    var base := BaseRoot(if TruthyText(Get(values, "base_url")) then values["base_url"] else DefaultBaseUrl);
    assert u == base + tail;
    assert u[|u| - |tail|..] == tail;
  }

  /** A base URL with or without a trailing slash gives the same login URL. */
  lemma LoginUrlIgnoresTrailingSlash(value: Option<string>, values: map<string, string>, base: string)
    requires base != ""
    ensures DefaultLoginUrl(value, values["base_url" := base])
            == DefaultLoginUrl(value, values["base_url" := base + "/"])
  {
    BaseRootSlash(base);
  }

  /** `{target_date:%Y/%m/%d}`. */
  function DatePath(n: Ordinal): (s: string)
    ensures EndsWith(s, ZeroPad(FromOrdinal(n).day, 2))
  {
    var d := FromOrdinal(n);
    Joined3(YearText(n), '/', ZeroPad(d.month, 2), ZeroPad(d.day, 2))
  }

  /** From year 1000 on, the date path is the ISO date with its dashes turned into slashes. */
  lemma DatePathIso(n: Ordinal)
    requires FromOrdinal(n).year >= 1000
    ensures var iso := Iso(n); DatePath(n) == iso[..4] + "/" + iso[5..7] + "/" + iso[8..]
  {
    var d := FromOrdinal(n);
    IsoFieldWidths(n);
    YearDigits(d.year);
    assert Iso(n) == Joined3(ZeroPad(d.year, 4), '-', ZeroPad(d.month, 2), ZeroPad(d.day, 2));
  }

  /** A year from 1000 on is printed with four digits, with no padding added. */
  lemma YearDigits(y: nat)
    requires y >= 1000
    ensures ZeroPad(y, 4) == NatToStr(y)
  {
    var t := NatToStr(y);
    DigitsValueBound(t);
    assert Pow10(3) == 1000;
    if |t| < 4 {
      PowMonotone(|t|, 3);
    }
  }

  lemma {:induction false} PowMonotone(a: nat, b: nat)
    requires a <= b
    ensures Pow10(a) <= Pow10(b)
    decreases b - a
  {
    if a < b {
      PowMonotone(a, b - 1);
    }
  }

  /** `tee_sheet_url(target_date)`: the club's tee sheet page for one course and date. */
  function TeeSheetUrl(base: string, clubSlug: string, courseId: string, n: Ordinal): (r: string)
    ensures StartsWith(r, BaseRoot(base) + "/" + clubSlug + "/tee-sheet/")
    ensures EndsWith(r, "/" + DatePath(n))
    ensures var head := BaseRoot(base) + "/" + clubSlug + "/tee-sheet/";
            |r| == |head| + |courseId| + 1 + |DatePath(n)| && r[|head|..|head| + |courseId|] == courseId
  {
    var head := BaseRoot(base) + "/" + clubSlug + "/tee-sheet/";
    var tail := "/" + DatePath(n);
    Affixes(head, courseId, tail);
    head + courseId + tail
  }

  /** Different courses of the same club and date have different tee sheet URLs. */
  lemma TeeSheetUrlPerCourse(base: string, clubSlug: string, course1: string, course2: string, n: Ordinal)
    requires course1 != course2
    ensures TeeSheetUrl(base, clubSlug, course1, n) != TeeSheetUrl(base, clubSlug, course2, n)
  {
  }

  /** A base URL with or without a trailing slash gives the same tee sheet URL. */
  lemma TeeSheetUrlIgnoresTrailingSlash(base: string, clubSlug: string, courseId: string, n: Ordinal)
    ensures TeeSheetUrl(base + "/", clubSlug, courseId, n) == TeeSheetUrl(base, clubSlug, courseId, n)
  {
    BaseRootSlash(base);
  }

  /** `telegram_api_endpoint`: the API prefix followed by the token, so different tokens
      give different endpoints. */
  function TelegramApiEndpoint(token: string): (r: string)
    ensures StartsWith(r, TelegramApiPrefix) && r[|TelegramApiPrefix|..] == token
  {
    TelegramApiPrefix + token
  }
}
