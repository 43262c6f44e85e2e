/**
 * The generation-phase error classifier: the text of a caught exception is
 * mapped to one of four safe messages, checked in priority order. The
 * messages are built from the LLM provider's name alone; the API key is
 * never interpolated into them.
 */
module ErrorClassifier {
  import opened Wrappers
  import opened Text
  import opened ChatTypes

  /** What an empty API key makes the HTTP layer raise. */
  const EmptyBearerMarker: string := "Illegal header value b'Bearer  '"

  /** What a key with whitespace or control characters makes the HTTP layer raise. */
  const HeaderValueMarker: string :=
    "Invalid leading whitespace, reserved character(s), or return character(s) in header value"

  datatype ErrorClass = EmptyApiKey | MalformedApiKey | RejectedApiKey | Unexpected

  /** Whether the error text contains the key, compared case-insensitively. */
  predicate EchoesKey(error: string, apiKey: Option<string>)
  {
    Truthy(apiKey) && Contains(Lower(error), Lower(apiKey.value))
  }

  function Classify(error: string, apiKey: Option<string>): ErrorClass
  {
    if Contains(error, EmptyBearerMarker) then EmptyApiKey
    else if Contains(error, HeaderValueMarker) then MalformedApiKey
    else if EchoesKey(error, apiKey) then RejectedApiKey
    else Unexpected
  }

  const EmptyKeyHead: string := "Authentication error: Invalid or empty API key provided for '"
  const MalformedKeyHead: string := "Authentication error: Invalid API key format for '"
  const RejectedKeyHead: string := "LLM failed to respond. Invalid API key error from '"
  const UnexpectedMessage: string :=
    "An unexpected error occurred while processing your request. Please try again later."

  function SafeMessage(c: ErrorClass, provider: string): string
  {
    match c
    case EmptyApiKey =>
      EmptyKeyHead + provider + "'. Please check your API key configuration."
    case MalformedApiKey =>
      MalformedKeyHead + provider + "'. "
      + "Please ensure your API key does not contain leading/trailing whitespace or invalid characters."
    case RejectedApiKey =>
      RejectedKeyHead + provider + "'."
    case Unexpected =>
      UnexpectedMessage
  }

  /** The four messages a failed turn can show for `provider`; none is built from the key. */
  function SafeMessages(provider: string): set<string>
  {
    {SafeMessage(EmptyApiKey, provider), SafeMessage(MalformedApiKey, provider),
     SafeMessage(RejectedApiKey, provider), SafeMessage(Unexpected, provider)}
  }

  /** The message streamed for a caught exception whose text is `error`. */
  function ClassifyError(error: string, provider: string, apiKey: Option<string>): string
  {
    SafeMessage(Classify(error, apiKey), provider)
  }

  /** Whatever the exception text, the streamed message is one of the four safe messages. */
  lemma ClassifiedMessageIsSafe(error: string, provider: string, apiKey: Option<string>)
    ensures ClassifyError(error, provider, apiKey) in SafeMessages(provider)
  {
  }

  /** The empty-key marker wins over everything, whatever the key. */
  lemma EmptyBearerWins(error: string, provider: string, apiKey: Option<string>)
    requires Contains(error, EmptyBearerMarker)
    ensures ClassifyError(error, provider, apiKey) == SafeMessage(EmptyApiKey, provider)
  {
  }

  /** The header marker wins over the key test. */
  lemma HeaderMarkerBeatsKey(error: string, provider: string, apiKey: Option<string>)
    requires !Contains(error, EmptyBearerMarker) && Contains(error, HeaderValueMarker)
    ensures ClassifyError(error, provider, apiKey) == SafeMessage(MalformedApiKey, provider)
  {
  }

  /**
   * An error text holding the key, in any letter case, is reported as a
   * rejected key once neither marker is present.
   */
  lemma EchoedKeyInAnyCase(error: string, provider: string, key: string, variant: string)
    requires key != "" && Lower(variant) == Lower(key) && Contains(error, variant)
    requires !Contains(error, EmptyBearerMarker) && !Contains(error, HeaderValueMarker)
    ensures ClassifyError(error, provider, Some(key)) == SafeMessage(RejectedApiKey, provider)
  {
    ContainsCaseVariant(error, variant, key);
  }

  /** Without a marker and without the key, the message is the generic one. */
  lemma OtherwiseUnexpected(error: string, provider: string, apiKey: Option<string>)
    requires !Contains(error, EmptyBearerMarker) && !Contains(error, HeaderValueMarker)
    requires !EchoesKey(error, apiKey)
    ensures ClassifyError(error, provider, apiKey) == SafeMessage(Unexpected, provider)
  {
  }

  /** The key alone never changes the message beyond the class it selects. */
  lemma MessageDependsOnKeyOnlyThroughClass(error: string, provider: string, k1: Option<string>, k2: Option<string>)
    requires EchoesKey(error, k1) == EchoesKey(error, k2)
    ensures ClassifyError(error, provider, k1) == ClassifyError(error, provider, k2)
  {
  }
}
