/** The URL shortener (src/components/URLShortener.tsx): creating short links
    and counting simulated visits. */
module UrlShortener {
  import opened Common
  import opened Types

  /** The alert a submission can stop with. */
  datatype LinkRejection = EmptyURL | InvalidURL | AliasInUse

  /** The short code of a new link: the custom alias when one was typed, else
      `randomCode` (at most six random base-36 characters), which is not checked against
      the codes already in use. */
  function ShortCode(customAlias: string, randomCode: string): (code: string)
    ensures customAlias != "" ==> code == customAlias
    ensures customAlias == "" ==> code == randomCode
  {
    if customAlias != "" then customAlias else randomCode
  }

  /** Some listed link already uses `code`. */
  predicate CodeInUse(urls: seq<ShortenedURL>, code: string)
  {
    exists u :: u in urls && u.shortCode == code
  }

  /** The three checks of the submit handler, in order. `parses` stands for the
      browser's URL constructor: it holds of the strings it accepts. */
  function ValidateLink(originalURL: string, customAlias: string, urls: seq<ShortenedURL>,
                        parses: string -> bool): (r: Check<LinkRejection>)
    ensures r == Fail(EmptyURL) <==> originalURL == ""
    ensures r == Fail(InvalidURL) <==> originalURL != "" && !parses(originalURL)
    ensures r == Fail(AliasInUse) <==>
              originalURL != "" && parses(originalURL) && customAlias != "" && CodeInUse(urls, customAlias)
    ensures r.Pass? ==> customAlias == "" || !CodeInUse(urls, customAlias)
  {
    if originalURL == "" then Fail(EmptyURL)
    else if !parses(originalURL) then Fail(InvalidURL)
    else if customAlias != "" && CodeInUse(urls, customAlias) then Fail(AliasInUse)
    else Pass
  }

  /** No two listed links share a short code. */
  predicate DistinctCodes(urls: seq<ShortenedURL>)
  {
    forall i, j :: 0 <= i < j < |urls| ==> urls[i].shortCode != urls[j].shortCode
  }

  /** A link created with a custom alias that passed the checks never duplicates
      a code: prepending it keeps the codes distinct. */
  lemma AliasLinkKeepsCodesDistinct(originalURL: string, customAlias: string, randomCode: string,
                                    urls: seq<ShortenedURL>, parses: string -> bool, now: Time)
    requires DistinctCodes(urls)
    requires customAlias != ""
    requires ValidateLink(originalURL, customAlias, urls, parses).Pass?
    ensures DistinctCodes([ShortenedURL(originalURL, ShortCode(customAlias, randomCode), now, 0)] + urls)
  {
  }

  /** A generated code is used as it comes: when it equals a listed code, the
      submission still passes and the list ends up with a repeated code. */
  lemma GeneratedCodeMayRepeat(originalURL: string, randomCode: string,
                               urls: seq<ShortenedURL>, parses: string -> bool, now: Time)
    requires originalURL != "" && parses(originalURL)
    requires |urls| > 0 && urls[0].shortCode == randomCode
    ensures ValidateLink(originalURL, "", urls, parses) == Pass
    ensures !DistinctCodes([ShortenedURL(originalURL, ShortCode("", randomCode), now, 0)] + urls)
  {
    var n := [ShortenedURL(originalURL, randomCode, now, 0)] + urls;
    assert n[0].shortCode == n[1].shortCode;
  }

  /** The list after one simulated visit to `code`: the same links in the same
      positions, the counter of each link with that code raised by exactly one. */
  function IncrementClicks(urls: seq<ShortenedURL>, code: string): (r: seq<ShortenedURL>)
    ensures |r| == |urls|
    ensures forall i :: 0 <= i < |urls| ==>
              r[i].clicks == urls[i].clicks + (if urls[i].shortCode == code then 1 else 0)
    ensures forall i :: 0 <= i < |urls| ==> r[i] == urls[i].(clicks := r[i].clicks)
  {
    if urls == [] then []
    else
      var u := urls[0];
      [if u.shortCode == code then u.(clicks := u.clicks + 1) else u] + IncrementClicks(urls[1..], code)
  }

  /** A visit to a code no link uses changes nothing. */
  lemma IncrementAbsentCode(urls: seq<ShortenedURL>, code: string)
    requires !CodeInUse(urls, code)
    ensures IncrementClicks(urls, code) == urls
  {
  }

  /** Two visits to `code` raise its counters by exactly two and no other counter. */
  lemma IncrementTwice(urls: seq<ShortenedURL>, code: string)
    ensures var r := IncrementClicks(IncrementClicks(urls, code), code);
            |r| == |urls| &&
            forall i :: 0 <= i < |urls| ==>
              r[i] == urls[i].(clicks := urls[i].clicks + (if urls[i].shortCode == code then 2 else 0))
  {
  }

  /** Visits never lower a counter and never change which links there are. */
  lemma IncrementKeepsCodes(urls: seq<ShortenedURL>, code: string)
    ensures var r := IncrementClicks(urls, code);
            (forall i :: 0 <= i < |urls| ==> r[i].clicks >= urls[i].clicks && r[i].shortCode == urls[i].shortCode)
            && (DistinctCodes(urls) ==> DistinctCodes(r))
  {
  }

  /** The public address of a short code on the page origin `origin`; the code
      can be read back from it. */
  function GetShortURL(origin: string, code: string): (url: string)
    ensures |url| == |origin| + 3 + |code|
    ensures url[..|origin|] == origin
    ensures url[|origin|..|origin| + 3] == "/s/"
    ensures url[|origin| + 3..] == code
  {
    origin + "/s/" + code
  }

  /** Distinct codes on one origin have distinct addresses. */
  lemma ShortURLInjective(origin: string, c1: string, c2: string)
    requires GetShortURL(origin, c1) == GetShortURL(origin, c2)
    ensures c1 == c2
  {
  }

  /** The shortener component. */
  class URLShortener {
    var originalURL: string
    var customAlias: string
    var shortenedURLs: seq<ShortenedURL>

    constructor ()
      ensures originalURL == "" && customAlias == "" && shortenedURLs == []
    {
      originalURL, customAlias, shortenedURLs := "", "", [];
    }

    /** The shorten button. `parses` is the URL constructor's verdict, `randomCode`
        the random code and `now` the creation time. On a failed check nothing
        changes; otherwise one link with no clicks is put in front of the list and
        both inputs are cleared. */
    method HandleSubmit(parses: string -> bool, randomCode: string, now: Time) returns (outcome: Check<LinkRejection>)
      modifies this
      ensures outcome == ValidateLink(old(originalURL), old(customAlias), old(shortenedURLs), parses)
      ensures outcome.Fail? ==>
                originalURL == old(originalURL) && customAlias == old(customAlias) && shortenedURLs == old(shortenedURLs)
      ensures outcome.Pass? ==> originalURL == "" && customAlias == ""
      ensures outcome.Pass? ==>
                shortenedURLs == [ShortenedURL(old(originalURL), ShortCode(old(customAlias), randomCode), now, 0)]
                                 + old(shortenedURLs)
    {
      outcome := ValidateLink(originalURL, customAlias, shortenedURLs, parses);
      if outcome.Fail? {
        return;
      }
      var code := ShortCode(customAlias, randomCode);
      shortenedURLs := [ShortenedURL(originalURL, code, now, 0)] + shortenedURLs;
      originalURL, customAlias := "", "";
    }

    /** The "visit" button of one link. */
    method HandleIncrementClicks(code: string)
      modifies this`shortenedURLs
      ensures shortenedURLs == IncrementClicks(old(shortenedURLs), code)
    {
      shortenedURLs := IncrementClicks(shortenedURLs, code);
    }
  }
}
