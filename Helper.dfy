/**
 * The response envelopes every tool returns (src/helper/index.ts): a success
 * value or an error wrapped into a single "text" content item. Both
 * formatters are functions, so they are stateless by construction: the same
 * input always gives the same envelope and nothing else changes.
 */
module Helper {
  import opened Wrappers
  import opened JsValues

  const TextKind := "text"
  const ErrorPrefix := "Error: "

  /** One content item. `text` is `None` when the value put there was
      `undefined` (what `JSON.stringify` returns for a value it cannot print). */
  datatype ContentItem = ContentItem(kind: string, text: Option<string>)

  datatype Envelope = Envelope(content: seq<ContentItem>)

  predicate SingleTextItem(e: Envelope) {
    |e.content| == 1 && e.content[0].kind == TextKind
  }

  /** The text of an envelope's only item. */
  function TextOf(e: Envelope): Option<string>
    requires |e.content| == 1
  {
    e.content[0].text
  }

  /** formatMcpResponse: a string passes through verbatim; any other value is
      printed by `stringify`, which stands for `JSON.stringify(data, null, 2)`. */
  function FormatMcpResponse(stringify: JsValue -> Option<string>, data: JsValue): (r: Envelope)
    ensures SingleTextItem(r)
    ensures data.Str? ==> TextOf(r) == Some(data.s)
    ensures !data.Str? ==> TextOf(r) == stringify(data)
  {
    Envelope([ContentItem(TextKind, if data.Str? then Some(data.s) else stringify(data))])
  }

  /** The message formatMcpError reports: `error.message` for an Error
      instance, `String(error)` for anything else. */
  function ErrorMessage(error: JsValue): string {
    if error.ErrorObj? then error.message else ToJsString(error)
  }

  /** formatMcpError: "Error: " followed by the error's message. */
  function FormatMcpError(error: JsValue): (r: Envelope)
    ensures SingleTextItem(r) && TextOf(r).Some?
    ensures ErrorPrefix <= TextOf(r).value
    ensures error.ErrorObj? ==> TextOf(r).value == ErrorPrefix + error.message
    ensures !error.ErrorObj? ==> TextOf(r).value == ErrorPrefix + ToJsString(error)
  {
    Envelope([ContentItem(TextKind, Some(ErrorPrefix + ErrorMessage(error)))])
  }

  /** Reads an error envelope's text back: the message after the prefix. */
  function StripErrorPrefix(text: string): Option<string> {
    if |text| >= |ErrorPrefix| && text[..|ErrorPrefix|] == ErrorPrefix then Some(text[|ErrorPrefix|..]) else None
  }

  // ---------------------------------------------------------------------------
  // Laws of the success envelope
  // ---------------------------------------------------------------------------

  /** The text field is absent exactly when a non-string value has no JSON
      text. */
  lemma ResponseTextAbsentIff(stringify: JsValue -> Option<string>, data: JsValue)
    ensures TextOf(FormatMcpResponse(stringify, data)).None? <==> !data.Str? && stringify(data).None?
  {
  }

  /** `formatMcpResponse(undefined)` yields an item without text. */
  lemma UndefinedResponseHasNoText(stringify: JsValue -> Option<string>)
    requires BehavesLikeJsonStringify(stringify)
    ensures TextOf(FormatMcpResponse(stringify, Undefined)) == None
  {
  }

  /** A string result is not re-serialised: the text is the string itself,
      which differs from its JSON literal. */
  lemma StringResponseIsNotReserialised(stringify: JsValue -> Option<string>, s: string)
    requires BehavesLikeJsonStringify(stringify)
    ensures TextOf(FormatMcpResponse(stringify, Str(s))) == Some(s)
    ensures TextOf(FormatMcpResponse(stringify, Str(s))) != stringify(Str(s))
  {
    QuoteChangesEveryString(s);
  }

  // ---------------------------------------------------------------------------
  // Laws of the error envelope
  // ---------------------------------------------------------------------------

  /** The message can be read back from the text: formatting an error loses
      nothing but adds the prefix. */
  lemma ErrorTextRoundTrip(error: JsValue)
    ensures StripErrorPrefix(TextOf(FormatMcpError(error)).value) == Some(ErrorMessage(error))
  {
  }

  /** Two errors give the same envelope only when their messages agree. */
  lemma ErrorEnvelopeDeterminesMessage(e1: JsValue, e2: JsValue)
    ensures FormatMcpError(e1) == FormatMcpError(e2) <==> ErrorMessage(e1) == ErrorMessage(e2)
  {
    if FormatMcpError(e1) == FormatMcpError(e2) {
      ErrorTextRoundTrip(e1);
      ErrorTextRoundTrip(e2);
    }
  }

  /** Two thrown integers give the same error envelope exactly when they are
      equal: the decimal text loses nothing. */
  lemma ThrownIntegersAreDistinguished(n: JsInteger, m: JsInteger)
    ensures FormatMcpError(Number(n)) == FormatMcpError(Number(m)) <==> n == m
  {
    ErrorEnvelopeDeterminesMessage(Number(n), Number(m));
    IntToDecimalRoundTrip(n);
    IntToDecimalRoundTrip(m);
  }

  /** Only Error instances contribute their message field: a plain object that
      carries a `message` is reported by its string conversion. */
  lemma PlainObjectMessageIsIgnored(m: string)
    ensures TextOf(FormatMcpError(Obj([("message", Str(m))]))) == Some("Error: [object Object]")
  {
    assert ErrorPrefix + "[object Object]" == "Error: [object Object]";
  }

  /** A thrown non-Error is reported through `String(...)`: a thrown string
      verbatim, a thrown integer in decimal, `undefined` by name. */
  lemma ThrownPrimitivesAreStringified(s: string, n: JsInteger)
    ensures TextOf(FormatMcpError(Str(s))) == Some(ErrorPrefix + s)
    ensures TextOf(FormatMcpError(Number(n))) == Some(ErrorPrefix + IntToDecimal(n))
    ensures TextOf(FormatMcpError(Undefined)) == Some("Error: undefined")
  {
    assert ErrorPrefix + "undefined" == "Error: undefined";
  }
}
