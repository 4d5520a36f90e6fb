/**
 * The page and the proxy put together: what `translateText` posts is what
 * `handler` receives, and what `handler` answers is what `translateText`
 * parses.
 *
 * As written, the page posts `{ text, toLanguages: [target] }` and looks for
 * `translations[0].translated[0]` in the answer, while the proxy reads `to`
 * and answers `{ translation }` or `{ error, ... }`. Every translation the
 * page asks for therefore ends in its fallback. The `Intended` members pair
 * the page with the proxy's own field names and show that the provider's
 * translation then reaches the page.
 */
module Wiring {
  import opened Wrappers
  import opened Js
  import opened Provider
  import Gateway
  import App

  /** The request `translateText` sends, as the proxy receives it. */
  function PageRequest(call: App.TranslateCall): (req: Gateway.Request)
    ensures req.verb == "POST" && Get(req.body, "text") == Normal(Str(call.text))
    ensures Get(req.body, "to") == Normal(Undefined)
  {
    var body := App.TranslateRequestBody(call.text, call.target);
    assert FieldLookup(body.fields[1..], "to") == Undefined;
    Gateway.Request("POST", body)
  }

  /**
   * What the page's `fetch` and `response.json()` make of the proxy's outcome.
   * The status is never consulted. When an exception escapes the handler the
   * hosting platform answers with its own error page, which is not JSON the
   * page can parse.
   */
  function AtPage(h: Gateway.Handled): (fetched: App.Fetched)
    ensures fetched.Received? <==> h.Responded?
    ensures h.Responded? ==> fetched.data == h.response.body
  {
    match h
    case Responded(_, response) => App.Received(response.body)
    case Escaped => App.Failed("invalid JSON")
  }

  /** The proxy rejects every request the page sends, before any outbound call. */
  lemma PageRequestRejected(call: App.TranslateCall, upstream: Gateway.Upstream)
    ensures Gateway.Handler(PageRequest(call), upstream)
            == Gateway.Responded(None, Gateway.Response(400, Gateway.ErrorBody(Gateway.MissingFields)))
  {
  }

  /** Nothing the proxy answers, to any request, is read by the page as a translation. */
  lemma ProxyAnswersNeverRead(req: Gateway.Request, upstream: Gateway.Upstream)
    ensures App.ReceivedTranslation(AtPage(Gateway.Handler(req, upstream))) == None
  {
    var h := Gateway.Handler(req, upstream);
    if h.Responded? {
      NoTranslationsField(h.response.body);
    }
  }

  /**
   * `translateText` run against the proxy: with a selection it always ends in
   * the fallback text and the failure message, whatever the provider would say.
   */
  method TranslateThroughProxy(page: App.Page, upstream: Gateway.Upstream) returns (handled: Option<Gateway.Handled>)
    requires page.Valid()
    modifies page
    ensures page.Valid()
    ensures old(page.selectedText) == [] ==> handled == None && page.State() == old(page.State())
    ensures old(page.selectedText) != [] ==>
              handled == Some(Gateway.Responded(None, Gateway.Response(400, Gateway.ErrorBody(Gateway.MissingFields))))
              && page.State() == old(page.State()).(
                   translatedText := Str(App.Fallback(old(page.selectedText))),
                   error := App.TranslateErrorMessage,
                   isLoading := false)
  {
    var call := page.BeginTranslate();
    if call.None? {
      return None;
    }
    var h := Gateway.Handler(PageRequest(call.value), upstream);
    ProxyAnswersNeverRead(PageRequest(call.value), upstream);
    PageRequestRejected(call.value, upstream);
    page.CompleteTranslate(call.value, AtPage(h));
    handled := Some(h);
  }

  // ---------------------------------------------------------------------
  // The exchange with the field names the proxy uses

  /** The body the proxy expects: one target under `to`. */
  function IntendedRequest(call: App.TranslateCall): (req: Gateway.Request)
    ensures req.verb == "POST" && ObjectKeys(req.body) == Normal(["text", "to"])
    ensures Get(req.body, "text") == Normal(Str(call.text)) && Get(req.body, "to") == Normal(Str(call.target))
  {
    var body := Obj([Field("text", Str(call.text)), Field("to", Str(call.target))]);
    assert ObjectKeys(body).value == ["text", "to"];
    assert FieldLookup(body.fields[1..], "to") == Str(call.target);
    Gateway.Request("POST", body)
  }

  /** Reading the proxy's answer as the proxy writes it: a truthy `translation` field. */
  function IntendedReceivedTranslation(fetched: App.Fetched): (r: Option<Json>)
    ensures r.Some? <==> fetched.Received? && !Nullish(fetched.data) && Truthy(Get(fetched.data, "translation").value)
    ensures r.Some? ==> r.value == Get(fetched.data, "translation").value
  {
    match fetched
    case Failed(_) => None
    case Received(data) =>
      match Get(data, "translation")
      case TypeError => None
      case Normal(translation) => if Truthy(translation) then Some(translation) else None
  }

  /** With the proxy's field names a non-empty selection is forwarded with its target. */
  lemma IntendedRequestForwarded(call: App.TranslateCall, upstream: Gateway.Upstream)
    requires call.text != [] && call.target != []
    ensures Gateway.Handler(IntendedRequest(call), upstream)
            == Gateway.Responded(Some(Gateway.OutboundForm(Str(call.text), Str(call.target))), Gateway.ReplyTo(upstream))
  {
  }

  /** The `translation` field of the proxy's answer once it has made its call. */
  lemma TranslationField(upstream: Gateway.Upstream)
    ensures Get(Gateway.ReplyTo(upstream).body, "translation")
            == Normal(if upstream.Replied? && Truthy(FirstTranslated(upstream.data))
                      then FirstTranslated(upstream.data) else Undefined)
  {
  }

  /**
   * With the proxy's field names, a non-empty selection is forwarded with its
   * target, and the page receives exactly the provider's first translation
   * when there is a truthy one, and nothing otherwise.
   */
  lemma IntendedExchange(call: App.TranslateCall, upstream: Gateway.Upstream)
    requires call.text != [] && call.target != []
    ensures var h := Gateway.Handler(IntendedRequest(call), upstream);
            h.Responded? && h.outbound == Some(Gateway.OutboundForm(Str(call.text), Str(call.target)))
    ensures IntendedReceivedTranslation(AtPage(Gateway.Handler(IntendedRequest(call), upstream)))
            == if upstream.Replied? && Truthy(FirstTranslated(upstream.data))
               then Some(FirstTranslated(upstream.data)) else None
  {
    IntendedRequestForwarded(call, upstream);
    TranslationField(upstream);
  }
}
