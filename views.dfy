/**
 * The request handlers of the explorer that decide something: `/results`
 * (classify a search query by its length and look it up), `/address` (the
 * address form, which insists on exactly 34 characters) and `/search` (strip
 * the query and forward it to `/results`).
 *
 * A handler is a function from the request to a `Response`: the lookups it
 * asked the provider for, the messages it flashed, the lines it printed, and
 * what the view function returned. The provider is the parameter `api`.
 */
module Views {
  import opened Wrappers
  import opened Text
  import opened PyInt
  import opened Api

  datatype HttpMethod = Get | Post

  /** The Bootstrap categories used with `flash`. */
  datatype Category = Danger | Warning

  datatype Flash = Flash(message: string, category: Category)

  /** The endpoints a handler redirects to. */
  datatype Endpoint = Index | AddressPage | ResultsPage(query: string)

  /** What a view function returns. `NoReturn` is a view that falls off its
      end and returns `None`; `BadRequest` is the HTTP 400 that Flask answers
      when a form field the handler indexes is missing; `ServerError` is the
      HTTP 500 Flask answers when the view raises an exception it does not
      catch. */
  datatype Reply<+R> =
    | RenderResults(query: string, searchResults: Option<R>, kind: Option<string>)
    | RenderAddressForm
    | RenderAddress(address: R, searchValue: string)
    | Redirect(target: Endpoint)
    | BadRequest
    | ServerError
    | NoReturn

  datatype Response<+R> = Response(lookups: seq<Call>, flashes: seq<Flash>, printed: seq<string>, reply: Reply<R>)

  const BlockInfo := "Block Info"
  const AddressInfo := "Address Info"
  const BlockHeightInfo := "Block Height Info"
  const InvalidQuery := "Invalid query expression. "
  const MalformedAddress := "The Bitcoin address is malformed.  Please check your data and try again."
  const ApiError := "API Error"
  const AnErrorOccurred := "An error has occurred: "

  /** The length of a valid address on the address form. */
  const AddressLength := 34

  // ---------------------------------------------------------------------------
  // /results/<query>
  // ---------------------------------------------------------------------------

  datatype QueryKind = BlockQuery | AddressQuery | HeightQuery

  /** The search heuristic: a query is classified by its length alone. */
  function Classify(length: nat): (k: QueryKind)
    ensures k == BlockQuery <==> 63 < length
    ensures k == AddressQuery <==> 33 < length <= 63
    ensures k == HeightQuery <==> length <= 33
  {
    if length > 63 then BlockQuery else if length > 33 then AddressQuery else HeightQuery
  }

  /** The `type` label the results page shows for each kind of query. */
  function Label(k: QueryKind): string
  {
    match k
    case BlockQuery => BlockInfo
    case AddressQuery => AddressInfo
    case HeightQuery => BlockHeightInfo
  }

  /** The `/results/<query>` handler. */
  function Results<R>(query: string, api: Call -> ApiReply<R>): (resp: Response<R>)
    // at most one lookup, and none exactly when a height query is not a number
    ensures |resp.lookups| <= 1
    ensures resp.lookups == [] <==> Classify(|query|) == HeightQuery && ParseInt(query).None?
    // block and address queries are looked up verbatim; the address lookup goes without the API key
    ensures Classify(|query|) == BlockQuery ==> resp.lookups == [GetBlock(query)]
    ensures Classify(|query|) == AddressQuery ==> resp.lookups == [GetAddress(query, false)]
    ensures Classify(|query|) == HeightQuery && ParseInt(query).Some? ==>
              resp.lookups == [GetBlockHeight(ParseInt(query).value)]
    // a height query that is not a number: flash the `ValueError`, back to the index
    ensures resp.lookups == [] ==>
              resp == Response([], [Flash(InvalidQuery + InvalidLiteral(query), Danger)], [], Redirect(Index))
    // otherwise the outcome is decided by what the provider did
    ensures resp.lookups != [] ==>
              match api(resp.lookups[0])
              case Ok(v) =>
                resp.flashes == [] && resp.printed == [] &&
                resp.reply == RenderResults(query, Some(v), Some(Label(Classify(|query|))))
              case ApiException(_) =>
                // printed, and the page is still rendered without results; `type` is
                // set before the height lookup but after the other two
                resp.flashes == [] && |resp.printed| == 1 &&
                resp.reply == RenderResults(query, None,
                                            if Classify(|query|) == HeightQuery then Some(BlockHeightInfo) else None)
              case ValueOrTypeError(e) =>
                // only the height lookup sits inside the `except (ValueError, TypeError)`
                resp.printed == [] &&
                if Classify(|query|) == HeightQuery
                then resp.flashes == [Flash(InvalidQuery + e, Danger)] && resp.reply == Redirect(Index)
                else resp.flashes == [] && resp.reply == ServerError
  {
    match Classify(|query|)
    case BlockQuery =>
      var call := GetBlock(query);
      (match api(call)
       case Ok(v) => Response([call], [], [], RenderResults(query, Some(v), Some(BlockInfo)))
       case ApiException(e) => Response([call], [], ["An API error has occurred " + e], RenderResults(query, None, None))
       case ValueOrTypeError(_) => Response([call], [], [], ServerError))
    case AddressQuery =>
      var call := GetAddress(query, false);
      (match api(call)
       case Ok(v) => Response([call], [], [], RenderResults(query, Some(v), Some(AddressInfo)))
       case ApiException(e) => Response([call], [], ["Error " + e], RenderResults(query, None, None))
       case ValueOrTypeError(_) => Response([call], [], [], ServerError))
    case HeightQuery =>
      match ParseInt(query)
      case None => Response([], [Flash(InvalidQuery + InvalidLiteral(query), Danger)], [], Redirect(Index))
      case Some(n) =>
        var call := GetBlockHeight(n);
        match api(call)
        case Ok(v) => Response([call], [], [], RenderResults(query, Some(v), Some(BlockHeightInfo)))
        case ApiException(e) => Response([call], [], ["Error " + e], RenderResults(query, None, Some(BlockHeightInfo)))
        case ValueOrTypeError(e) => Response([call], [Flash(InvalidQuery + e, Danger)], [], Redirect(Index))
  }

  /** Every numeric height query of at most 33 characters, whitespace around
      it included, is looked up at the number it spells. */
  lemma ResultsHeightLookup<R>(pre: string, n: int, post: string, api: Call -> ApiReply<R>)
    requires AllSpace(pre) && AllSpace(post) && |pre + Decimal(n) + post| <= 33
    ensures Results(pre + Decimal(n) + post, api).lookups == [GetBlockHeight(n)]
  {
    ParseIntDecimal(pre, n, post);
  }

  /** A 34-character address is looked up as it is. */
  lemma ResultsAddressScenario<R>(api: Call -> ApiReply<R>)
    ensures Results("1A1zP1eP5QGefi2DMPTfTL5SLmv7DivfNa", api).lookups
              == [GetAddress("1A1zP1eP5QGefi2DMPTfTL5SLmv7DivfNa", false)]
  {
  }

  /** A 64-character block hash is looked up as it is, without changing its case. */
  lemma ResultsBlockScenario<R>(api: Call -> ApiReply<R>)
    ensures Results("000000000019D6689C085AE165831E934FF763AE46A2A6C172B3F1B60A8CE26F", api).lookups
              == [GetBlock("000000000019D6689C085AE165831E934FF763AE46A2A6C172B3F1B60A8CE26F")]
  {
  }

  /** `"600000"` is looked up as height 600000. */
  lemma ResultsHeightScenario<R>(api: Call -> ApiReply<R>)
    ensures Results("600000", api).lookups == [GetBlockHeight(600000)]
  {
    ParseIntOfHeightQuery();
  }

  /** `"600000x"` is classified as a height by its length, fails to parse,
      and sends the user back to the index with no lookup. */
  lemma ResultsInvalidScenario<R>(api: Call -> ApiReply<R>)
    ensures Results("600000x", api).lookups == []
    ensures Results("600000x", api).reply == Redirect(Index)
    ensures Results("600000x", api).flashes ==
              [Flash(InvalidQuery + InvalidLiteral("600000x"), Danger)]
  {
  }

  /** The empty query is a height query that fails to parse. */
  lemma ResultsEmptyScenario<R>(api: Call -> ApiReply<R>)
    ensures Results("", api).reply == Redirect(Index)
  {
  }

  // ---------------------------------------------------------------------------
  // /address (the address form)
  // ---------------------------------------------------------------------------

  /** The `/address` handler as written: on a malformed address it flashes and
      builds a redirect but does not return it, so the view returns nothing. */
  function AddressForm<R>(verb: HttpMethod, form: map<string, string>, api: Call -> ApiReply<R>): (resp: Response<R>)
    ensures resp.printed == []
    ensures verb == Get ==> resp == Response([], [], [], RenderAddressForm)
    ensures verb == Post && "addr" !in form ==> resp == Response([], [], [], BadRequest)
    // a lookup happens exactly for a posted address that is 34 characters long once stripped
    ensures resp.lookups != [] <==> verb == Post && "addr" in form && |Strip(form["addr"])| == AddressLength
    ensures resp.lookups != [] ==> resp.lookups == [GetAddress(Strip(form["addr"]), true)]
    ensures verb == Post && "addr" in form && |Strip(form["addr"])| != AddressLength ==>
              resp == Response([], [Flash(MalformedAddress, Danger)], [], NoReturn)
    ensures resp.lookups != [] ==>
              match api(resp.lookups[0])
              case Ok(v) => resp.flashes == [] && resp.reply == RenderAddress(v, Strip(form["addr"]))
              case ApiException(_) => resp.flashes == [Flash(ApiError, Warning)] && resp.reply == Redirect(AddressPage)
              // escapes the inner `try` and is caught by the outer one
              case ValueOrTypeError(e) =>
                resp.flashes == [Flash(AnErrorOccurred + e, Danger)] && resp.reply == Redirect(AddressPage)
  {
    match verb
    case Get => Response([], [], [], RenderAddressForm)
    case Post =>
      if "addr" !in form then Response([], [], [], BadRequest)
      else
        var addr := Strip(form["addr"]);
        if |addr| == AddressLength then
          var call := GetAddress(addr, true);
          match api(call)
          case Ok(v) => Response([call], [], [], RenderAddress(v, addr))
          case ApiException(_) => Response([call], [Flash(ApiError, Warning)], [], Redirect(AddressPage))
          case ValueOrTypeError(e) => Response([call], [Flash(AnErrorOccurred + e, Danger)], [], Redirect(AddressPage))
        else
          Response([], [Flash(MalformedAddress, Danger)], [], NoReturn)
  }

  /** Whitespace around the posted address changes nothing. */
  lemma AddressFormIgnoresPadding<R>(pre: string, a: string, post: string, form: map<string, string>,
                                     api: Call -> ApiReply<R>)
    requires AllSpace(pre) && AllSpace(post)
    ensures AddressForm(Post, form["addr" := pre + a + post], api) == AddressForm(Post, form["addr" := a], api)
  {
    StripSurrounding(pre, a, post);
  }

  /** The form only ever looks up a 34-character address with no whitespace around it. */
  lemma AddressFormLookupIsClean<R>(verb: HttpMethod, form: map<string, string>, api: Call -> ApiReply<R>)
    ensures forall c :: c in AddressForm(verb, form, api).lookups ==>
              c.GetAddress? && c.withApiCode && |c.address| == AddressLength && Strip(c.address) == c.address
  {
  }

  /** A 33-character address posted to the form: the view returns nothing. */
  lemma AddressFormMalformedReturnsNothing<R>(api: Call -> ApiReply<R>)
    ensures AddressForm(Post, map["addr" := "1A1zP1eP5QGefi2DMPTfTL5SLmv7DivfN"], api).reply == NoReturn
  {
  }

  /** The `/address` handler with the redirect on a malformed address returned,
      as in its other error branch. */
  function AddressFormIntended<R>(verb: HttpMethod, form: map<string, string>, api: Call -> ApiReply<R>): (resp: Response<R>)
    ensures verb == Post && "addr" in form ==> resp.reply.RenderAddress? || resp.reply.Redirect?
    ensures verb == Post && "addr" in form && |Strip(form["addr"])| != AddressLength ==>
              resp == Response([], [Flash(MalformedAddress, Danger)], [], Redirect(AddressPage))
    ensures resp.lookups == AddressForm(verb, form, api).lookups
  {
    var resp := AddressForm(verb, form, api);
    if resp.reply.NoReturn? then resp.(reply := Redirect(AddressPage)) else resp
  }

  // ---------------------------------------------------------------------------
  // /search
  // ---------------------------------------------------------------------------

  /** The `/search` handler; `valid` is the outcome of the search form's
      validation, which is not part of this model. The route accepts POST only
      (Flask answers any other method with a 405 before the view runs), so the
      handler's own test that the method is POST always holds. The handler
      only ever redirects: the result is where to, or `None` for the 400 Flask
      answers when the `search` field is missing. It flashes nothing and makes
      no lookup. */
  function Search(valid: bool, form: map<string, string>): (target: Option<Endpoint>)
    ensures target == Some(Index) <==> !valid
    ensures target == None <==> valid && "search" !in form
    ensures target.Some? && target.value.ResultsPage? ==>
              "search" in form && target.value.query == Strip(form["search"])
    // the forwarded query has no whitespace left around it
    ensures target.Some? && target.value.ResultsPage? ==> Strip(target.value.query) == target.value.query
  {
    if valid then
      if "search" in form then
        StripIdempotent(form["search"]);
        Some(ResultsPage(Strip(form["search"])))
      else None
    else Some(Index)
  }

  /** A hash or an address typed into the search box with whitespace around
      it reaches `/results` as exactly that hash or address, and is looked up
      as it is. */
  lemma SearchThenResults<R>(pre: string, q: string, post: string, form: map<string, string>,
                             api: Call -> ApiReply<R>)
    requires AllSpace(pre) && AllSpace(post) && Strip(q) == q
    ensures Search(true, form["search" := pre + q + post]) == Some(ResultsPage(q))
    ensures 63 < |q| ==> Results(q, api).lookups == [GetBlock(q)]
    ensures 33 < |q| <= 63 ==> Results(q, api).lookups == [GetAddress(q, false)]
  {
    StripSurrounding(pre, q, post);
  }
}
