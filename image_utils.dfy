/** Poster URL checks: a URL is accepted when, after trimming, it starts with
    http:// or https:// and the URL parser reads an http: or https:
    protocol from it; otherwise the placeholder image is used.

    The input is `Some(s)` for a string and `None` for any value that is not
    a string (null, undefined, a number, ...). The URL parser is the
    parameter `parseProtocol`: the protocol it reads, or None when it throws. */
module ImageUtils {
  import opened Common

  const HTTP_PREFIX: string := "http://"
  const HTTPS_PREFIX: string := "https://"

  /** https://via.placeholder.com/240x360/473b54/ab9cba?text=No+Poster */
  const DEFAULT_PLACEHOLDER: string := HTTPS_PREFIX + "via.placeholder.com/240x360/473b54/ab9cba?text=No+Poster"

  predicate IsValidImageUrl(url: Option<string>, parseProtocol: string -> Option<string>) {
    if url.None? || url.value == "" || Trim(url.value) == "" then false
    else
      var trimmed := Trim(url.value);
      if !StartsWith(trimmed, HTTP_PREFIX) && !StartsWith(trimmed, HTTPS_PREFIX) then false
      else parseProtocol(trimmed) == Some("http:") || parseProtocol(trimmed) == Some("https:")
  }

  /** getImageUrl(imageUrl, placeholder = DEFAULT_PLACEHOLDER); None for the
      placeholder argument stands for leaving it out. */
  function GetImageUrl(url: Option<string>, placeholder: Option<string>, parseProtocol: string -> Option<string>): string {
    if IsValidImageUrl(url, parseProtocol) then url.value else placeholder.GetOr(DEFAULT_PLACEHOLDER)
  }

  // ---------------------------------------------------------------------------
  // Properties
  // ---------------------------------------------------------------------------

  /** A non-string, an empty string and an all-white-space string are rejected. */
  lemma RejectsNonStringOrBlank(url: Option<string>, parseProtocol: string -> Option<string>)
    requires url.None? || forall i :: 0 <= i < |url.value| ==> IsWhitespace(url.value[i])
    ensures !IsValidImageUrl(url, parseProtocol)
  {
  }

  /** A URL whose trimmed form starts with neither prefix is rejected, whatever
      the parser would say. */
  lemma RejectsOtherSchemes(url: string, parseProtocol: string -> Option<string>)
    requires !StartsWith(Trim(url), HTTP_PREFIX) && !StartsWith(Trim(url), HTTPS_PREFIX)
    ensures !IsValidImageUrl(Some(url), parseProtocol)
  {
  }

  /** An accepted URL has the right prefix and the parser reads http: or
      https: from its trimmed form; conversely, such a URL is accepted. */
  lemma ValidExactly(url: string, parseProtocol: string -> Option<string>)
    ensures IsValidImageUrl(Some(url), parseProtocol) <==>
      && (StartsWith(Trim(url), HTTP_PREFIX) || StartsWith(Trim(url), HTTPS_PREFIX))
      && parseProtocol(Trim(url)) in {Some("http:"), Some("https:")}
  {
    if StartsWith(Trim(url), HTTP_PREFIX) {
      assert Trim(url) != "";
    }
    if StartsWith(Trim(url), HTTPS_PREFIX) {
      assert Trim(url) != "";
    }
  }

  /** A URL the parser throws on is rejected. */
  lemma RejectsUnparseable(url: string, parseProtocol: string -> Option<string>)
    requires parseProtocol(Trim(url)).None?
    ensures !IsValidImageUrl(Some(url), parseProtocol)
  {
  }

  /** getImageUrl returns the input as given (white space included) or the
      placeholder; with a valid placeholder, its answer is always valid. */
  lemma ImageUrlIsInputOrPlaceholder(url: Option<string>, placeholder: Option<string>, parseProtocol: string -> Option<string>)
    ensures var r := GetImageUrl(url, placeholder, parseProtocol);
      (url.Some? && r == url.value && IsValidImageUrl(url, parseProtocol)) || r == placeholder.GetOr(DEFAULT_PLACEHOLDER)
    ensures IsValidImageUrl(Some(placeholder.GetOr(DEFAULT_PLACEHOLDER)), parseProtocol) ==>
      IsValidImageUrl(Some(GetImageUrl(url, placeholder, parseProtocol)), parseProtocol)
  {
  }

  /** The default placeholder passes the prefix check, so it is valid for any
      parser that reads its https: protocol. */
  lemma DefaultPlaceholderValid(parseProtocol: string -> Option<string>)
    requires parseProtocol(DEFAULT_PLACEHOLDER) == Some("https:")
    ensures IsValidImageUrl(Some(DEFAULT_PLACEHOLDER), parseProtocol)
  {
    assert DEFAULT_PLACEHOLDER[0] == 'h';
    assert DEFAULT_PLACEHOLDER[|DEFAULT_PLACEHOLDER| - 1] == 'r';
    assert TrimStart(DEFAULT_PLACEHOLDER) == DEFAULT_PLACEHOLDER;
    assert TrimEnd(DEFAULT_PLACEHOLDER) == DEFAULT_PLACEHOLDER;
    assert DEFAULT_PLACEHOLDER[..|HTTPS_PREFIX|] == HTTPS_PREFIX;
  }
}
