/**
 * Reply selection in `sendMessage`: how the configured API key and the outcome
 * of the one generative-language request become the reply string. The request
 * itself is foreign; its outcome is an input.
 */
module Replies {
  import opened Wrappers
  import opened Text
  import opened Config

  /** The fixed replies `sendMessage` can give instead of generated text. */
  datatype Canned =
    | NotConfigured | Rephrase | NotAuthorized | TechnicalDifficulties
    | CouldNotGenerate | TroubleConnecting | Fallback

  const NotConfiguredText := "I'm sorry, but I'm not properly configured to respond right now. Please check the API key configuration."
  const RephraseText := "I couldn't process your request. Please try rephrasing your message."
  const NotAuthorizedText := "I'm not authorized to respond right now. Please check the API key permissions."
  const TechnicalDifficultiesText := "I'm experiencing technical difficulties. Please try again in a moment."
  const CouldNotGenerateText := "I received your message but couldn't generate a proper response. Please try again."
  const TroubleConnectingText := "I'm having trouble connecting to my AI service. Please check your internet connection and try again."
  const FallbackText := "Thanks! I received your message, but I'm having trouble generating a response right now."

  /** The text of each fixed reply. */
  function Wording(c: Canned): string {
    match c
    case NotConfigured => NotConfiguredText
    case Rephrase => RephraseText
    case NotAuthorized => NotAuthorizedText
    case TechnicalDifficulties => TechnicalDifficultiesText
    case CouldNotGenerate => CouldNotGenerateText
    case TroubleConnecting => TroubleConnectingText
    case Fallback => FallbackText
  }

  /** Every fixed reply ends in a full stop, so none is blank. */
  lemma WordingNotBlank(c: Canned)
    ensures |Wording(c)| > 0 && Wording(c)[|Wording(c)| - 1] == '.' && !Blank(Wording(c))
  {
  }

  /** The fixed replies are pairwise different texts, so a reply identifies its case. */
  lemma WordingInjective(a: Canned, b: Canned)
    requires Wording(a) == Wording(b)
    ensures a == b
  {
  }

  const GeminiKeyAliases: seq<EnvVar> := [GEMINI_API_KEY_TEXT, GEMINI_API_KEY_IMAGE]

  /** `GEMINI_API_KEY_TEXT || GEMINI_API_KEY_IMAGE`, with "" for "no key". */
  function ApiKey(env: Env): (key: string)
    ensures key == "" <==> Lookup(env, GEMINI_API_KEY_TEXT) == "" && Lookup(env, GEMINI_API_KEY_IMAGE) == ""
  {
    assert GeminiKeyAliases[0] == GEMINI_API_KEY_TEXT && GeminiKeyAliases[1] == GEMINI_API_KEY_IMAGE;
    FirstNonEmpty(env, GeminiKeyAliases)
  }

  /** One element of `content.parts`; `text` is None when the part or its text is missing. */
  datatype Part = Part(text: Option<string>)

  /** `content` is None when missing; a present content may lack `parts`. */
  datatype Content = Content(parts: Option<seq<Part>>)
  datatype Candidate = Candidate(content: Option<Content>)

  /**
   * What the request produced: an HTTP response (with `data.candidates`, None when
   * absent) or a thrown network or parse error.
   */
  datatype Upstream = Response(status: int, candidates: Option<seq<Candidate>>) | Threw

  /** `response.ok` of the fetch API. */
  predicate IsOk(status: int) {
    200 <= status <= 299
  }

  /** The message for a non-ok status. */
  function StatusReply(status: int): (r: string)
    ensures r == Wording(Rephrase) <==> status == 400
    ensures r == Wording(NotAuthorized) <==> status == 403
    ensures r == Wording(TechnicalDifficulties) <==> status != 400 && status != 403
    ensures !Blank(r)
  {
    var c := if status == 400 then Rephrase else if status == 403 then NotAuthorized else TechnicalDifficulties;
    assert forall d :: Wording(d) == Wording(c) ==> d == c by {
      forall d | Wording(d) == Wording(c) ensures d == c { WordingInjective(d, c); }
    }
    assert !Blank(Wording(c)) by { WordingNotBlank(c); }
    Wording(c)
  }

  /** A part survives `.map(p => p?.text).filter(t => t && t.trim())`. */
  predicate Kept(p: Part) {
    p.text.Some? && !Blank(p.text.value)
  }

  /** The texts of the parts that survive the filter, in order. */
  function KeptTexts(parts: seq<Part>): (ts: seq<string>)
    ensures |ts| <= |parts|
    ensures forall i :: 0 <= i < |ts| ==> !Blank(ts[i])
    ensures ts == [] <==> forall i :: 0 <= i < |parts| ==> !Kept(parts[i])
  {
    if parts == [] then []
    else
      var rest := KeptTexts(parts[1..]);
      assert forall i :: 1 <= i < |parts| ==> parts[i] == parts[1..][i - 1];
      if Kept(parts[0]) then [parts[0].text.value] + rest else rest
  }

  /** Filtering distributes over concatenation: it keeps order and drops only unkept parts. */
  lemma {:induction false} KeptTextsAppend(a: seq<Part>, b: seq<Part>)
    ensures KeptTexts(a + b) == KeptTexts(a) + KeptTexts(b)
  {
    if a == [] {
      assert a + b == b;
    } else {
      assert (a + b)[1..] == a[1..] + b;
      KeptTextsAppend(a[1..], b);
    }
  }

  /** A single part contributes its own text exactly when it is kept. */
  lemma KeptTextsSingle(p: Part)
    ensures KeptTexts([p]) == if Kept(p) then [p.text.value] else []
  {
  }

  /** The parts of the first candidate, when there is a candidate with content and at least one part. */
  function FirstParts(candidates: Option<seq<Candidate>>): (r: Option<seq<Part>>)
    ensures r.Some? <==>
      && candidates.Some? && |candidates.value| > 0
      && candidates.value[0].content.Some?
      && candidates.value[0].content.value.parts.Some?
      && |candidates.value[0].content.value.parts.value| > 0
    ensures r.Some? ==> r.value == candidates.value[0].content.value.parts.value && |r.value| > 0
  {
    if candidates.Some? && |candidates.value| > 0 then
      var content := candidates.value[0].content;
      if content.Some? && content.value.parts.Some? && |content.value.parts.value| > 0 then
        content.value.parts
      else None
    else None
  }

  /** The extracted text of an ok response: the kept part texts joined by newlines, trimmed. */
  function Extracted(candidates: Option<seq<Candidate>>): (r: string)
    ensures r == "" <==> FirstParts(candidates) == None || KeptTexts(FirstParts(candidates).value) == []
    ensures r != "" ==> !Blank(r)
    ensures FirstParts(candidates).Some? ==> r == Trim(Join(KeptTexts(FirstParts(candidates).value), "\n"))
  {
    match FirstParts(candidates)
    case None => ""
    case Some(parts) =>
      var kept := KeptTexts(parts);
      assert kept != [] ==> !Blank(Join(kept, "\n")) by {
        if kept != [] { JoinNotBlank(kept, "\n"); }
      }
      Trim(Join(kept, "\n"))
  }

  /** The value of `reply` after the key check and the request (lines 57-135). */
  function GeneratedReply(apiKey: string, upstream: Upstream): (r: string)
    ensures !Blank(r)
  {
    assert forall c :: !Blank(Wording(c)) by {
      forall c ensures !Blank(Wording(c)) { WordingNotBlank(c); }
    }
    if apiKey == "" then Wording(NotConfigured)
    else match upstream
      case Threw => Wording(TroubleConnecting)
      case Response(status, candidates) =>
        if !IsOk(status) then StatusReply(status)
        else
          var text := Extracted(candidates);
          if text == "" then Wording(CouldNotGenerate) else text
  }

  /**
   * The reply `sendMessage` returns: the generated reply, or the fallback when
   * that is blank. Every branch already yields a non-blank reply, so the fallback
   * never applies.
   */
  function SelectReply(apiKey: string, upstream: Upstream): (r: string)
    ensures r != "" && !Blank(r)
    ensures r == GeneratedReply(apiKey, upstream)
    ensures apiKey == "" ==> r == Wording(NotConfigured)
    ensures apiKey != "" && upstream == Threw ==> r == Wording(TroubleConnecting)
    ensures apiKey != "" && upstream.Response? && !IsOk(upstream.status) ==>
      && (r == Wording(Rephrase) <==> upstream.status == 400)
      && (r == Wording(NotAuthorized) <==> upstream.status == 403)
      && (r == Wording(TechnicalDifficulties) <==> upstream.status != 400 && upstream.status != 403)
    ensures apiKey != "" && upstream.Response? && IsOk(upstream.status) ==>
      var parts := FirstParts(upstream.candidates);
      if parts == None || KeptTexts(parts.value) == [] then r == Wording(CouldNotGenerate)
      else r == Trim(Join(KeptTexts(parts.value), "\n"))
  {
    var reply := GeneratedReply(apiKey, upstream);
    if Blank(reply) then Wording(Fallback) else reply
  }

  /** Without a key the upstream outcome is never consulted: every outcome gives the same reply. */
  lemma NoKeyIgnoresUpstream(u1: Upstream, u2: Upstream)
    ensures SelectReply("", u1) == SelectReply("", u2) == Wording(NotConfigured)
  {
  }
}
