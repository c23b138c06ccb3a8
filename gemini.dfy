/** The pure parts of the cloud translation call: the API-key gate, the
    data-URL prefix strip, reply normalisation and error collapsing. The
    request to the model and the JSON parser are foreign calls; they are
    passed in as functions. */
module GeminiService {
  import opened Wrappers
  import opened Types

  const MissingKeyMessage: string := "API configuration error: Missing API Key."
  const GenericFailureMessage: string := "Failed to process image. Please try again."
  const NoTextPlaceholder: string := "(No text detected)"
  const NoTranslationPlaceholder: string := "(No translation available)"

  /** The environment's API key is falsy: absent, or the empty string. Any
      other string, however short, counts as configured. */
  predicate ApiKeyMissing(apiKey: Option<string>): (missing: bool)
    ensures apiKey == None ==> missing
    ensures apiKey == Some("") ==> missing
    ensures forall k :: apiKey == Some(k) && |k| > 0 ==> !missing
  {
    apiKey.None? || apiKey.value == ""
  }

  // ---------------------------------------------------------------------
  // Data-URL prefix: the anchored pattern `^data:image\/\w+;base64,`
  // ---------------------------------------------------------------------

  const DataUrlHead: string := "data:image/"
  const Base64Marker: string := ";base64,"

  /** A character of the regular-expression class `\w`. */
  predicate IsWordChar(c: char)
  {
    ('a' <= c <= 'z') || ('A' <= c <= 'Z') || ('0' <= c <= '9') || c == '_'
  }

  /** A non-empty run of word characters, what `\w+` matches. */
  predicate IsWord(w: string)
  {
    |w| > 0 && forall i :: 0 <= i < |w| ==> IsWordChar(w[i])
  }

  /** `s` is the data URL with image subtype `w` and payload `payload`. */
  predicate IsDataUrl(s: string, w: string, payload: string)
  {
    IsWord(w) && s == DataUrlHead + w + Base64Marker + payload
  }

  /** The length of the longest prefix of `s` made of word characters: how
      far the greedy `\w+` reaches. */
  function WordRunLength(s: string): (n: nat)
    ensures n <= |s|
    ensures forall i :: 0 <= i < n ==> IsWordChar(s[i])
    ensures n < |s| ==> !IsWordChar(s[n])
  {
    if s == [] || !IsWordChar(s[0]) then 0 else 1 + WordRunLength(s[1..])
  }

  /** Removes a leading `data:image/<word>;base64,` and returns the rest;
      any other string is returned unchanged. The result is always a
      suffix of the input. */
  function StripDataUrlPrefix(s: string): (r: string)
    ensures |r| <= |s| && r == s[|s| - |r|..]
    ensures r != s ==> exists w :: IsDataUrl(s, w, r)
  {
    if |s| >= |DataUrlHead| && s[..|DataUrlHead|] == DataUrlHead then
      var rest := s[|DataUrlHead|..];
      var n := WordRunLength(rest);
      if n > 0 && n + |Base64Marker| <= |rest| && rest[n..n + |Base64Marker|] == Base64Marker then
        var payload := rest[n + |Base64Marker|..];
        assert s == DataUrlHead + rest[..n] + Base64Marker + payload;
        assert IsDataUrl(s, rest[..n], payload);
        payload
      else s
    else s
  }

  /** The greedy `\w+` stops exactly at the end of a run of word characters
      followed by a non-word character. */
  lemma {:induction false} WordRunStopsAt(w: string, t: string)
    requires forall i :: 0 <= i < |w| ==> IsWordChar(w[i])
    requires t != [] && !IsWordChar(t[0])
    ensures WordRunLength(w + t) == |w|
    decreases |w|
  {
    if w == [] {
      assert w + t == t;
    } else {
      assert (w + t)[0] == w[0];
      assert (w + t)[1..] == w[1..] + t;
      WordRunStopsAt(w[1..], t);
    }
  }

  /** The strip inverts building a data URL: the payload comes back exactly. */
  lemma StripDataUrl(w: string, payload: string)
    requires IsWord(w)
    ensures StripDataUrlPrefix(DataUrlHead + w + Base64Marker + payload) == payload
  {
    var tail := w + (Base64Marker + payload);
    var s := DataUrlHead + tail;
    assert s == DataUrlHead + w + Base64Marker + payload;
    assert s[..|DataUrlHead|] == DataUrlHead;
    assert s[|DataUrlHead|..] == tail;
    WordRunStopsAt(w, Base64Marker + payload);
    assert tail[|w|..|w| + |Base64Marker|] == Base64Marker;
    assert tail[|w| + |Base64Marker|..] == payload;
  }

  /** A string that is not a data URL is passed through untouched. */
  lemma StripKeepsNonDataUrl(s: string)
    requires forall w, payload :: !IsDataUrl(s, w, payload)
    ensures StripDataUrlPrefix(s) == s
  {
  }

  // ---------------------------------------------------------------------
  // Reply normalisation
  // ---------------------------------------------------------------------

  /** The parsed JSON reply; every field may be absent. */
  datatype RawReply = RawReply(
    originalText: Option<string>,
    translatedText: Option<string>,
    detectedLanguage: Option<string>)

  /** The value of `v || fallback` for an optional string. */
  function OrElse(v: Option<string>, fallback: string): (r: string)
    ensures v.Some? && v.value != "" ==> r == v.value
    ensures v.None? || v.value == "" ==> r == fallback
  {
    if v.Some? && v.value != "" then v.value else fallback
  }

  /** The object returned for a parsed reply: empty or absent texts are
      replaced by fixed placeholders, the detected language is passed on. */
  function NormalizeReply(raw: RawReply): (r: ScanReply)
    ensures r.originalText != "" && r.translatedText != ""
    ensures r.originalText == OrElse(raw.originalText, NoTextPlaceholder)
    ensures r.translatedText == OrElse(raw.translatedText, NoTranslationPlaceholder)
    ensures r.detectedLanguage == raw.detectedLanguage
  {
    ScanReply(
      OrElse(raw.originalText, NoTextPlaceholder),
      OrElse(raw.translatedText, NoTranslationPlaceholder),
      raw.detectedLanguage)
  }

  // ---------------------------------------------------------------------
  // The call
  // ---------------------------------------------------------------------

  /** What the model request yields: a transport failure, or a response
      whose text may be missing. */
  datatype ModelResponse = TransportFailure | Responded(text: Option<string>)

  /** The remote scan. `generate` is the model request, made with the
      stripped payload and the target language; `parse` is the JSON parser
      followed by the reading of the three fields, `None` when parsing or
      reading a field throws. */
  function ScanAndTranslate(
    apiKey: Option<string>,
    image: string,
    lang: Language,
    generate: (string, Language) -> ModelResponse,
    parse: string -> Option<RawReply>): (r: Result<ScanReply>)
    ensures ApiKeyMissing(apiKey) ==> r == Failure(MissingKeyMessage)
    ensures !ApiKeyMissing(apiKey) && r.Failure? ==> r.message == GenericFailureMessage
    ensures r.Success? ==> r.value.originalText != "" && r.value.translatedText != ""
  {
    if ApiKeyMissing(apiKey) then
      Failure(MissingKeyMessage)
    else
      match generate(StripDataUrlPrefix(image), lang)
      case TransportFailure => Failure(GenericFailureMessage)
      case Responded(text) =>
        if text.None? || text.value == "" then
          Failure(GenericFailureMessage)
        else
          match parse(text.value)
          case None => Failure(GenericFailureMessage)
          case Some(raw) => Success(NormalizeReply(raw))
  }

  /** With a key configured, the call succeeds exactly when the model answers
      with non-empty text that parses, and then yields the normalised reply. */
  lemma ScanSucceedsExactly(
    apiKey: Option<string>,
    image: string,
    lang: Language,
    generate: (string, Language) -> ModelResponse,
    parse: string -> Option<RawReply>)
    requires !ApiKeyMissing(apiKey)
    ensures var resp := generate(StripDataUrlPrefix(image), lang);
      var r := ScanAndTranslate(apiKey, image, lang, generate, parse);
      && (r.Success? <==> resp.Responded? && resp.text.Some? && resp.text.value != ""
                          && parse(resp.text.value).Some?)
      && (r.Success? ==> r.value == NormalizeReply(parse(resp.text.value).value))
  {
  }
}
