/**
 * The translation proxy `handler` of api/translate.js as a total function.
 *
 * The outcome of the one outbound call (the provider's parsed JSON reply, or
 * the message of whatever `fetch` or `response.json()` threw) is an input.
 * The result records the form the handler would send, when it sends one, and
 * the single status and JSON body it answers with; `Escaped` is the one case
 * in which an exception leaves the handler instead.
 */
module Gateway {
  import opened Wrappers
  import opened Js
  import opened Provider

  datatype Request = Request(verb: string, body: Json)

  /** What awaiting `fetch(...)` and then `response.json()` produced. */
  datatype Upstream = Replied(data: Json) | Faulted(message: string)

  /** One `params.append(name, value)`; turning the value into text is the encoder's business. */
  datatype FormField = FormField(name: string, value: Json)

  datatype Response = Response(status: int, body: Json)

  datatype Handled =
    | Responded(outbound: Option<seq<FormField>>, response: Response)
    | Escaped

  const MethodNotAllowed := "Method Not Allowed"
  const MissingFields := "Missing text or target language"
  const TranslationInvalid := "Translation missing or invalid"
  const TranslationFailed := "Translation failed"

  /** The fixed source language the form always carries. */
  const SourceLanguage := "en"

  /** `{ error: message }`: one key, `error`. */
  function ErrorBody(message: string): (b: Json)
    ensures ObjectKeys(b) == Normal(["error"]) && Get(b, "error") == Normal(Str(message))
  {
    var b := Obj([Field("error", Str(message))]);
    assert ObjectKeys(b).value[0] == "error";
    assert ObjectKeys(b).value == ["error"];
    assert FieldLookup(b.fields, "error") == Str(message);
    b
  }

  /** The form body, in the order the fields are appended. */
  function OutboundForm(text: Json, to: Json): (form: seq<FormField>)
    ensures |form| == 3
    ensures [form[0].name, form[1].name, form[2].name] == ["from", "to", "texts"]
    ensures form[0].value == Str(SourceLanguage) && form[1].value == to && form[2].value == text
  {
    [FormField("from", Str(SourceLanguage)), FormField("to", to), FormField("texts", text)]
  }

  /** The reply once the outbound call has been made (the `try`/`catch` of the handler). */
  function ReplyTo(upstream: Upstream): (resp: Response)
    ensures resp.status == 200 <==> upstream.Replied? && Truthy(FirstTranslated(upstream.data))
    ensures resp.status == 200 ==> resp.body == Obj([Field("translation", FirstTranslated(upstream.data))])
    ensures resp.status != 200 ==> resp.status == 500
    ensures upstream.Faulted? ==>
              resp.body == Obj([Field("error", Str(TranslationFailed)), Field("details", Str(upstream.message))])
    ensures upstream.Replied? && !Truthy(FirstTranslated(upstream.data)) ==>
              resp.body == Obj([Field("error", Str(TranslationInvalid)), Field("raw", upstream.data)])
  {
    match upstream
    case Faulted(message) =>
      Response(500, Obj([Field("error", Str(TranslationFailed)), Field("details", Str(message))]))
    case Replied(data) =>
      var translated := FirstTranslated(data);
      if !Truthy(translated) then
        Response(500, Obj([Field("error", Str(TranslationInvalid)), Field("raw", data)]))
      else
        Response(200, Obj([Field("translation", translated)]))
  }

  /** The request handler. */
  function Handler(req: Request, upstream: Upstream): (h: Handled)
    // wrong method: 405 before anything else is looked at
    ensures req.verb != "POST" ==> h == Responded(None, Response(405, ErrorBody(MethodNotAllowed)))
    // a POST without a body object: the destructuring throws outside the try
    ensures h.Escaped? <==> req.verb == "POST" && Nullish(req.body)
    // a falsy text or target: 400 and no outbound call
    ensures req.verb == "POST" && !Nullish(req.body) ==>
              (h == Responded(None, Response(400, ErrorBody(MissingFields)))
               <==> !Truthy(Get(req.body, "text").value) || !Truthy(Get(req.body, "to").value))
    // otherwise exactly one call, with the fixed three-field form, and its outcome decides the reply
    ensures req.verb == "POST" && !Nullish(req.body)
            && Truthy(Get(req.body, "text").value) && Truthy(Get(req.body, "to").value) ==>
              h == Responded(Some(OutboundForm(Get(req.body, "text").value, Get(req.body, "to").value)), ReplyTo(upstream))
    ensures h.Responded? && h.outbound.Some? ==>
              h.outbound.value == OutboundForm(Get(req.body, "text").value, Get(req.body, "to").value)
              && h.response == ReplyTo(upstream)
    ensures h.Responded? ==> (h.outbound.None? <==> h.response.status in {400, 405})
    ensures h.Responded? && h.response.status == 405 <==> req.verb != "POST"
  {
    if req.verb != "POST" then
      Responded(None, Response(405, ErrorBody(MethodNotAllowed)))
    else
      match (Get(req.body, "text"), Get(req.body, "to"))
      case (Normal(text), Normal(to)) =>
        if !Truthy(text) || !Truthy(to) then
          Responded(None, Response(400, ErrorBody(MissingFields)))
        else
          Responded(Some(OutboundForm(text, to)), ReplyTo(upstream))
      case _ => Escaped
  }

  /** Without an outbound call the upstream outcome cannot influence the answer. */
  lemma NoCallNoInfluence(req: Request, u1: Upstream, u2: Upstream)
    requires Handler(req, u1).Responded? && Handler(req, u1).outbound.None?
    ensures Handler(req, u2) == Handler(req, u1)
  {
  }

  /** Every status the handler answers with, and only these. */
  lemma StatusesAnswered(req: Request, upstream: Upstream)
    ensures Handler(req, upstream).Responded? ==> Handler(req, upstream).response.status in {200, 400, 405, 500}
  {
  }

  /** A `from` in the request has no effect: the form always says `from=en`. */
  lemma SourceLanguageIgnored(text: Json, to: Json, from: Json, upstream: Upstream)
    requires Truthy(text) && Truthy(to)
    ensures var body := Obj([Field("text", text), Field("to", to), Field("from", from)]);
            Handler(Request("POST", body), upstream).outbound == Some(OutboundForm(text, to))
            && OutboundForm(text, to)[0] == FormField("from", Str("en"))
  {
    var body := Obj([Field("text", text), Field("to", to), Field("from", from)]);
    assert FieldLookup(body.fields[1..], "to") == to;
    assert Get(body, "to") == Normal(to);
  }

  /** A reply whose `translations` field is absent never yields a translation. */
  lemma MissingTranslationsInvalid(data: Json)
    requires data.Obj? && forall i | 0 <= i < |data.fields| :: data.fields[i].key != "translations"
    ensures ReplyTo(Replied(data)) == Response(500, Obj([Field("error", Str(TranslationInvalid)), Field("raw", data)]))
  {
    NoTranslationsField(data);
  }

  /**
   * A reply whose first entry's first string is truthy is answered with 200
   * and that string, wherever `translations` and `translated` are listed.
   */
  lemma ShapedReplyTranslated(data: Json, entries: seq<Json>, strings: seq<Json>)
    requires Get(data, "translations") == Normal(Arr(entries)) && entries != []
    requires Get(entries[0], "translated") == Normal(Arr(strings)) && strings != []
    requires Truthy(strings[0])
    ensures ReplyTo(Replied(data)) == Response(200, Obj([Field("translation", strings[0])]))
  {
    FirstOfFirstOnly(data, entries, strings);
  }
}
