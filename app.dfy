/**
 * The article/translation page of src/App.jsx.
 *
 * The component's state hooks become the fields of `Page`; its handlers become
 * methods. Each asynchronous handler is split at its `await`: a `Begin`
 * method does what runs before the request leaves and returns the values the
 * handler's closure captured; a `Complete` method takes those values and the
 * already-fetched response (or the failure) and does the rest.
 */
module App {
  import opened Wrappers
  import opened Js
  import opened Provider

  // ---------------------------------------------------------------------
  // The language table and its lookup

  datatype Language = Language(code: string, name: string)

  const Languages: seq<Language> := [
    Language("en", "English"),
    Language("es", "Spanish"),
    Language("fr", "French"),
    Language("de", "German"),
    Language("it", "Italian"),
    Language("pt", "Portuguese"),
    Language("ru", "Russian"),
    Language("zh", "Chinese"),
    Language("ja", "Japanese"),
    Language("ar", "Arabic"),
    Language("ko", "Korean"),
    Language("hi", "Hindi")
  ]

  /** A code one of the two selectors offers. */
  predicate Offered(code: string) {
    exists i | 0 <= i < |Languages| :: Languages[i].code == code
  }

  /** `table.find(l => l.code === code)?.name`: the name of the first entry with that code. */
  function FindName(table: seq<Language>, code: string): (r: Option<string>)
    ensures r.Some? <==> exists i | 0 <= i < |table| :: table[i].code == code
    ensures r.Some? ==> exists i | 0 <= i < |table| ::
              table[i] == Language(code, r.value) && forall j | 0 <= j < i :: table[j].code != code
  {
    if table == [] then None
    else if table[0].code == code then Some(table[0].name)
    else
      var r := FindName(table[1..], code);
      assert forall i | 1 <= i < |table| :: table[1..][i - 1] == table[i];
      r
  }

  /** `languages.find(l => l.code === code)?.name` over the table. */
  function LanguageName(code: string): (r: Option<string>)
    ensures r.Some? <==> Offered(code)
  {
    FindName(Languages, code)
  }

  /** No code appears twice in the table. */
  lemma CodesUnique()
    ensures forall i, j | 0 <= i < j < |Languages| :: Languages[i].code != Languages[j].code
  {
  }

  /** Every offered code has a name, and it is the name the table pairs with that code. */
  lemma OfferedCodesNamed(code: string)
    requires Offered(code)
    ensures LanguageName(code).Some?
    ensures forall i | 0 <= i < |Languages| && Languages[i].code == code :: Languages[i].name == LanguageName(code).value
  {
    CodesUnique();
  }

  // ---------------------------------------------------------------------
  // Messages

  /** Written as its two sentences, so that its first characters can be read off. */
  const FetchErrorMessage := "Error fetching Wikipedia article." + " Please try again."
  const TranslateErrorMessage := "Translation failed. Please try again later."

  /** The message for a search that found no article; never the generic error message. */
  function NoArticleMessage(term: string, languageName: string): (m: string)
    ensures |m| == |term| + |languageName| + 27
    ensures m[..22] == "No article found for \"" && m[22..22 + |term|] == term
    ensures m[22 + |term|..27 + |term|] == "\" in " && m[27 + |term|..] == languageName
    ensures m != FetchErrorMessage
  {
    var m := "No article found for \"" + term + "\" in " + languageName;
    assert m[0] == 'N' && FetchErrorMessage[0] == 'E';
    m
  }

  /** The visibly marked text shown when no translation arrived. */
  function Fallback(text: string): (r: string)
    ensures |r| == |text| + 23 && r[22..|r| - 1] == text
    ensures r[..22] == "[Unable to translate: " && r[|r| - 1] == ']'
  {
    "[Unable to translate: " + text + "]"
  }

  // ---------------------------------------------------------------------
  // What the two fetches produce, and how the handlers read it

  /** What awaiting `fetch(url)` and then `response.json()` produced. */
  datatype Fetched = Received(data: Json) | Failed(message: string)

  /**
   * `const { pages } = data.query; const pageIds = Object.keys(pages);` and
   * `pageIds.length > 0 && pages[pageIds[0]].extract`: None when the page set
   * is empty, the first page's extract otherwise, a TypeError where the code
   * reads through a nullish value.
   */
  function FirstPageExtract(data: Json): (r: Completion<Option<Json>>)
    ensures Nullish(data) ==> r == TypeError
    ensures !Nullish(data) && Nullish(Get(data, "query").value) ==> r == TypeError
    ensures (!Nullish(data) && !Nullish(Get(data, "query").value)
             && Nullish(Get(Get(data, "query").value, "pages").value)) ==> r == TypeError
    ensures r == Normal(None) <==>
              !Nullish(data) && !Nullish(Get(data, "query").value)
              && ObjectKeys(Get(Get(data, "query").value, "pages").value) == Normal([])
    ensures (!Nullish(data) && !Nullish(Get(data, "query").value)
             && !Nullish(Get(Get(data, "query").value, "pages").value)) ==>
              var pages := Get(Get(data, "query").value, "pages").value;
              var ids := ObjectKeys(pages).value;
              ids != [] ==>
                var page := Get(pages, ids[0]).value;
                r == if Nullish(page) then TypeError else Normal(Some(Get(page, "extract").value))
  {
    match Get(data, "query")
    case TypeError => TypeError
    case Normal(query) =>
      match Get(query, "pages")
      case TypeError => TypeError
      case Normal(pages) =>
        match ObjectKeys(pages)
        case TypeError => TypeError
        case Normal(pageIds) =>
          if |pageIds| == 0 then Normal(None)
          else
            match Get(pages, pageIds[0])
            case TypeError => TypeError
            case Normal(page) =>
              match Get(page, "extract")
              case TypeError => TypeError
              case Normal(extract) => Normal(Some(extract))
  }

  /**
   * When `query.pages` is a non-empty object, its first listed page decides,
   * wherever `query` and `pages` are listed; a nullish page throws.
   */
  lemma FirstListedPageDecides(data: Json, query: Json, pages: seq<Field>)
    requires Get(data, "query") == Normal(query) && Get(query, "pages") == Normal(Obj(pages)) && pages != []
    ensures FirstPageExtract(data) ==
              match Get(pages[0].value, "extract")
              case TypeError => TypeError
              case Normal(x) => Normal(Some(x))
  {
    assert ObjectKeys(Obj(pages)).value[0] == pages[0].key;
    assert IndexOfKey(pages, pages[0].key) == 0;
  }

  /** How a search ends once its response is in. */
  datatype SearchEnd = Found(extract: Json) | NotFound(message: string) | FetchError

  predicate HasTruthyExtract(data: Json) {
    match FirstPageExtract(data)
    case Normal(Some(x)) => Truthy(x)
    case _ => false
  }

  /** The `try`/`catch` of `handleSearch` after the request (lines 40-55). */
  function SearchOutcome(fetched: Fetched, term: string, language: string): (r: SearchEnd)
    ensures r.Found? <==> fetched.Received? && HasTruthyExtract(fetched.data)
    ensures r.Found? ==> Truthy(r.extract) && FirstPageExtract(fetched.data) == Normal(Some(r.extract))
    ensures r.NotFound? <==> fetched.Received? && FirstPageExtract(fetched.data).Normal?
                             && !HasTruthyExtract(fetched.data) && LanguageName(language).Some?
    ensures r.NotFound? ==> r.message == NoArticleMessage(term, LanguageName(language).value)
    ensures fetched.Failed? ==> r == FetchError
  {
    match fetched
    case Failed(_) => FetchError
    case Received(data) =>
      match FirstPageExtract(data)
      case TypeError => FetchError
      case Normal(extract) =>
        if extract.Some? && Truthy(extract.value) then Found(extract.value)
        else
          match LanguageName(language)
          case None => FetchError
          case Some(name) => NotFound(NoArticleMessage(term, name))
  }

  /**
   * For an offered language the generic error means the fetch failed, or
   * reading `query.pages` or the first page's `extract` threw.
   */
  lemma OfferedLanguageLookupNeverFails(fetched: Fetched, term: string, language: string)
    requires Offered(language)
    ensures SearchOutcome(fetched, term, language) == FetchError
            <==> fetched.Failed? || FirstPageExtract(fetched.data).TypeError?
  {
    OfferedCodesNamed(language);
  }

  /**
   * `data.translations?.[0]?.translated?.[0]`, checked for truthiness (line 89);
   * the TypeError on a nullish reply and a failed fetch both give None.
   */
  function ReceivedTranslation(fetched: Fetched): (r: Option<Json>)
    ensures r.Some? <==> fetched.Received? && !Nullish(fetched.data) && Truthy(FirstTranslated(fetched.data))
    ensures r.Some? ==> Truthy(r.value) && r.value == FirstTranslated(fetched.data)
  {
    match fetched
    case Failed(_) => None
    case Received(data) =>
      match Get(data, "translations")
      case TypeError => None
      case Normal(_) =>
        var translated := FirstTranslated(data);
        if Truthy(translated) then Some(translated) else None
  }

  /** The body `translateText` posts (lines 81-84). */
  function TranslateRequestBody(text: string, target: string): (b: Json)
    ensures ObjectKeys(b) == Normal(["text", "toLanguages"])
    ensures Get(b, "text") == Normal(Str(text)) && Get(b, "toLanguages") == Normal(Arr([Str(target)]))
  {
    var b := Obj([Field("text", Str(text)), Field("toLanguages", Arr([Str(target)]))]);
    assert ObjectKeys(b).value == ["text", "toLanguages"];
    assert FieldLookup(b.fields[1..], "toLanguages") == Arr([Str(target)]);
    b
  }

  // ---------------------------------------------------------------------
  // The component

  datatype PageState = PageState(
    searchTerm: string,
    articleContent: Json,
    selectedText: string,
    translatedText: Json,
    language: string,
    targetLanguage: string,
    isLoading: bool,
    error: string)

  /** The values the `useState` calls start from (lines 5-12). */
  const InitialState := PageState("", Str(""), "", Str(""), "es", "en", false, "")

  /** What `handleSearch` captured when it was called. */
  datatype SearchCall = SearchCall(term: string, language: string)

  /** What `translateText` captured when it was called. */
  datatype TranslateCall = TranslateCall(text: string, target: string)

  /** `useEffect(..., [selectedText])`: the effect translates when the text changed to a non-empty one. */
  predicate EffectTranslates(before: string, after: string)
    ensures EffectTranslates(before, after) <==> after != before && Truthy(Str(after))
  {
    after != before && after != []
  }

  class Page {
    var searchTerm: string
    var articleContent: Json
    var selectedText: string
    var translatedText: Json
    var language: string
    var targetLanguage: string
    var isLoading: bool
    var error: string

    function State(): PageState
      reads this
    {
      PageState(searchTerm, articleContent, selectedText, translatedText, language, targetLanguage, isLoading, error)
    }

    /** Both selectors hold one of the table's codes. */
    predicate Valid()
      reads this
    {
      Offered(language) && Offered(targetLanguage)
    }

    constructor ()
      ensures State() == InitialState && Valid()
    {
      searchTerm, articleContent, selectedText, translatedText := "", Str(""), "", Str("");
      language, targetLanguage, isLoading, error := "es", "en", false, "";
      assert Languages[1].code == "es" && Languages[0].code == "en";
    }

    /** The search box's `onChange`. */
    method SetSearchTerm(term: string)
      modifies this
      ensures State() == old(State()).(searchTerm := term)
    {
      searchTerm := term;
    }

    /** The article-language selector's `onChange`; it offers only the table's codes. */
    method SetLanguage(code: string)
      requires Offered(code)
      modifies this
      ensures State() == old(State()).(language := code)
      ensures old(Valid()) ==> Valid()
    {
      language := code;
    }

    /** The target-language selector's `onChange`; it offers only the table's codes. */
    method SetTargetLanguage(code: string)
      requires Offered(code)
      modifies this
      ensures State() == old(State()).(targetLanguage := code)
      ensures old(Valid()) ==> Valid()
    {
      targetLanguage := code;
    }

    /** `handleSearch` up to its `fetch`. */
    method BeginSearch() returns (call: Option<SearchCall>)
      requires Valid()
      modifies this
      ensures Valid()
      ensures Trim(old(searchTerm)) == [] ==> call == None && State() == old(State())
      ensures Trim(old(searchTerm)) != [] ==>
                call == Some(SearchCall(old(searchTerm), old(language)))
                && State() == old(State()).(isLoading := true, error := "", articleContent := Str(""))
    {
      if Trim(searchTerm) == [] {
        return None;
      }
      isLoading := true;
      error := "";
      articleContent := Str("");
      call := Some(SearchCall(searchTerm, language));
    }

    /** `handleSearch` from the response on, including its `finally`. */
    method CompleteSearch(call: SearchCall, fetched: Fetched)
      requires Valid()
      modifies this
      ensures Valid()
      ensures var outcome := SearchOutcome(fetched, call.term, call.language);
              State() == old(State()).(
                articleContent := if outcome.Found? then outcome.extract else old(articleContent),
                error := match outcome
                         case Found(_) => old(error)
                         case NotFound(message) => message
                         case FetchError => FetchErrorMessage,
                isLoading := false)
    {
      var outcome := SearchOutcome(fetched, call.term, call.language);
      match outcome {
        case Found(extract) =>
          articleContent := extract;
        case NotFound(message) =>
          error := message;
        case FetchError =>
          error := FetchErrorMessage;
      }
      isLoading := false;
    }

    /** `handleSearch` as a whole, given what its fetch produces. */
    method HandleSearch(fetched: Fetched) returns (started: bool)
      requires Valid()
      modifies this
      ensures Valid()
      ensures started <==> Trim(old(searchTerm)) != []
      ensures started ==> (error == FetchErrorMessage <==> fetched.Failed? || FirstPageExtract(fetched.data).TypeError?)
      ensures !started ==> State() == old(State())
      ensures started ==>
                var outcome := SearchOutcome(fetched, old(searchTerm), old(language));
                State() == old(State()).(
                  articleContent := if outcome.Found? then outcome.extract else Str(""),
                  error := match outcome
                           case Found(_) => ""
                           case NotFound(message) => message
                           case FetchError => FetchErrorMessage,
                  isLoading := false)
    {
      var call := BeginSearch();
      started := call.Some?;
      if started {
        CompleteSearch(call.value, fetched);
        OfferedLanguageLookupNeverFails(fetched, call.value.term, call.value.language);
      }
    }

    /** `handleTextSelection`, given the raw selection string; also says whether the effect then translates. */
    method HandleTextSelection(raw: string) returns (translates: bool)
      requires Valid()
      modifies this
      ensures Valid()
      ensures State() == old(State()).(selectedText := if Trim(raw) != [] then Trim(raw) else old(selectedText))
      ensures translates <==> EffectTranslates(old(selectedText), selectedText)
    {
      var before := selectedText;
      var text := Trim(raw);
      if text != [] {
        selectedText := text;
      }
      translates := EffectTranslates(before, selectedText);
    }

    /** `translateText` up to its `fetch`. */
    method BeginTranslate() returns (call: Option<TranslateCall>)
      requires Valid()
      modifies this
      ensures Valid()
      ensures old(selectedText) == [] ==> call == None && State() == old(State())
      ensures old(selectedText) != [] ==>
                call == Some(TranslateCall(old(selectedText), old(targetLanguage)))
                && State() == old(State()).(isLoading := true, translatedText := Str(""), error := "")
    {
      if selectedText == [] {
        return None;
      }
      isLoading := true;
      translatedText := Str("");
      error := "";
      call := Some(TranslateCall(selectedText, targetLanguage));
    }

    /** `translateText` from the response on. */
    method CompleteTranslate(call: TranslateCall, fetched: Fetched)
      requires Valid()
      modifies this
      ensures Valid()
      ensures State() == old(State()).(
                translatedText := match ReceivedTranslation(fetched)
                                  case Some(x) => x
                                  case None => Str(Fallback(call.text)),
                error := if ReceivedTranslation(fetched).Some? then old(error) else TranslateErrorMessage,
                isLoading := false)
      ensures Truthy(translatedText)
    {
      var received := ReceivedTranslation(fetched);
      match received {
        case Some(translated) =>
          translatedText := translated;
        case None =>
          error := TranslateErrorMessage;
          translatedText := Str(Fallback(call.text));
      }
      isLoading := false;
    }

    /** `translateText` as a whole, given what its fetch produces. */
    method TranslateText(fetched: Fetched) returns (call: Option<TranslateCall>)
      requires Valid()
      modifies this
      ensures Valid()
      ensures old(selectedText) == [] ==> call == None && State() == old(State())
      ensures old(selectedText) != [] ==>
                call == Some(TranslateCall(old(selectedText), old(targetLanguage)))
                && State() == old(State()).(
                     translatedText := match ReceivedTranslation(fetched)
                                       case Some(x) => x
                                       case None => Str(Fallback(old(selectedText))),
                     error := if ReceivedTranslation(fetched).Some? then "" else TranslateErrorMessage,
                     isLoading := false)
      ensures old(selectedText) != [] ==> Truthy(translatedText)
    {
      call := BeginTranslate();
      if call.Some? {
        CompleteTranslate(call.value, fetched);
      }
    }

    /**
     * A mouse-up over the article: the selection handler, then the effect,
     * which translates when the selected text changed to a non-empty one.
     */
    method SelectText(raw: string, fetched: Fetched)
      requires Valid()
      modifies this
      ensures Valid()
      ensures !EffectTranslates(old(selectedText), Trim(raw)) ==>
                State() == old(State()).(selectedText := if Trim(raw) != [] then Trim(raw) else old(selectedText))
      ensures EffectTranslates(old(selectedText), Trim(raw)) ==>
                State() == old(State()).(
                  selectedText := Trim(raw),
                  translatedText := match ReceivedTranslation(fetched)
                                    case Some(x) => x
                                    case None => Str(Fallback(Trim(raw))),
                  error := if ReceivedTranslation(fetched).Some? then "" else TranslateErrorMessage,
                  isLoading := false)
      ensures EffectTranslates(old(selectedText), Trim(raw)) ==> Truthy(translatedText)
    {
      var translates := HandleTextSelection(raw);
      if translates {
        var _ := TranslateText(fetched);
      }
    }
  }

  // ---------------------------------------------------------------------
  // Properties of the reading functions

  /**
   * A reply whose first entry's first string is truthy gives the page that
   * string, wherever `translations` and `translated` are listed.
   */
  lemma ShapedReplyReceived(data: Json, entries: seq<Json>, strings: seq<Json>)
    requires Get(data, "translations") == Normal(Arr(entries)) && entries != []
    requires Get(entries[0], "translated") == Normal(Arr(strings)) && strings != []
    requires Truthy(strings[0])
    ensures ReceivedTranslation(Received(data)) == Some(strings[0])
  {
    FirstOfFirstOnly(data, entries, strings);
  }

  /** A reply without a `translations` field always ends in the fallback. */
  lemma NoTranslationsFallsBack(data: Json)
    requires data.Obj? && forall i | 0 <= i < |data.fields| :: data.fields[i].key != "translations"
    ensures ReceivedTranslation(Received(data)) == None
  {
    NoTranslationsField(data);
  }
}
