/** The request handler: validate the host, fetch, locate and decode the
    data blob, map it to the response record; the first failure ends the
    request with its status code. */
module Scraper {
  import opened Wrappers
  import opened Json
  import opened Text
  import opened Fetcher
  import opened BlobLocator
  import opened FieldMapper

  /** The code the scraper calls but that is not part of this model, as
      given functions: the HTML parser with `get_text(strip=True)` applied to
      every script element (document order), `json.loads` (None where it
      raises), and `int` applied to a string (None where it raises). */
  datatype Collaborators = Collaborators(
    scriptTexts: string -> seq<string>,
    loads: string -> Option<JsonValue>,
    parseInt: string -> Option<int>)

  /** Reference definition of the whole pipeline. */
  function Pipeline(host: string, fetch: FetchOutcome, lib: Collaborators): (r: Result<ProductResponse, int>)
    ensures r.Ok? ==> DomainAllowed(host) && fetch.Response? && fetch.status == 200 && !Blocked(fetch.body)
    ensures r.Ok? ==> r.value.title != ""
    ensures r.Err? ==> r.error in {BadRequest, Forbidden, ServerError, BadGateway}
                       || (fetch.Response? && r.error == fetch.status)
  {
    if !DomainAllowed(host) then Err(BadRequest)
    else
      var html :- Classify(fetch);
      var raw :- DecodeBlob(FirstMarked(lib.scriptTexts(html)), lib.loads);
      MapFields(raw, lib.parseInt)
  }

  /** `fetch_myntra_product`, step by step. */
  method FetchMyntraProduct(host: string, fetch: FetchOutcome, lib: Collaborators)
    returns (r: Result<ProductResponse, int>)
    ensures r == Pipeline(host, fetch, lib)
  {
    if !DomainAllowed(host) {
      return Err(BadRequest);
    }
    var html :- Classify(fetch);
    var scriptText := LocateScript(lib.scriptTexts(html));
    var raw :- DecodeBlob(scriptText, lib.loads);
    var d :- EffectiveRecord(raw);
    var title :- Title(d);
    var image :- PickPrimaryImage(d);
    r := Finish(d, title, image, lib.parseInt);
  }

  /** The domain gate comes first: for an unsupported host the result is 400
      whatever the fetch would have returned and whatever the page holds. */
  lemma DomainCheckedFirst(host: string, fetch1: FetchOutcome, fetch2: FetchOutcome,
                           lib1: Collaborators, lib2: Collaborators)
    requires !Contains(host, Domain)
    ensures Pipeline(host, fetch1, lib1) == Pipeline(host, fetch2, lib2) == Err(BadRequest)
  {
  }

  /** Upstream failures: 502 for a transport failure, the upstream status
      itself for anything but 200, 403 for a block page. */
  lemma UpstreamFailures(host: string, fetch: FetchOutcome, lib: Collaborators)
    requires DomainAllowed(host)
    ensures fetch.TransportFailure? ==> Pipeline(host, fetch, lib) == Err(BadGateway)
    ensures fetch.Response? && fetch.status != 200 ==> Pipeline(host, fetch, lib) == Err(fetch.status)
    ensures fetch.Response? && fetch.status == 200 && Contains(fetch.body, AccessDenied)
            ==> Pipeline(host, fetch, lib) == Err(Forbidden)
    ensures fetch.Response? && fetch.status == 200 && Contains(fetch.body, NoPermission)
            ==> Pipeline(host, fetch, lib) == Err(Forbidden)
  {
  }

  /** A page none of whose scripts carries the marker is a 500. */
  lemma NoMarkedScript(host: string, body: string, lib: Collaborators)
    requires DomainAllowed(host) && !Blocked(body)
    requires forall j :: 0 <= j < |lib.scriptTexts(body)| ==> !Contains(lib.scriptTexts(body)[j], Marker)
    ensures Pipeline(host, Response(200, body), lib) == Err(ServerError)
  {
  }

  /** Once the located script is known, the decoder sees exactly the suffix
      from its first `{`; without a `{` the result is 500, and a rejected
      suffix is 500. */
  lemma DecoderSeesBraceSuffix(host: string, body: string, lib: Collaborators, text: string, i: nat)
    requires DomainAllowed(host) && !Blocked(body)
    requires FirstMarked(lib.scriptTexts(body)) == Some(text)
    requires i < |text| && text[i] == '{' && '{' !in text[..i]
    ensures Pipeline(host, Response(200, body), lib) ==
      match lib.loads(text[i..])
      case None => Err(ServerError)
      case Some(v) => MapFields(v, lib.parseInt)
  {
  }

  /** A located script without any `{` is a 500. */
  lemma NoBraceInScript(host: string, body: string, lib: Collaborators, text: string)
    requires DomainAllowed(host) && !Blocked(body)
    requires FirstMarked(lib.scriptTexts(body)) == Some(text)
    requires '{' !in text
    ensures Pipeline(host, Response(200, body), lib) == Err(ServerError)
  {
  }

  /** The product object of the worked example below. */
  function ShoeValue(): JsonValue {
    Obj(map["name" := Str("Shoe"), "mrp" := Num(2000),
            "price" := Obj(map["effective" := Num(1500)]),
            "flags" := Obj(map["outOfStock" := Bool(true)])])
  }

  /** Mapping the worked example's object: name, mrp, price.effective and
      flags.outOfStock give the title, both prices and the stock flag. */
  lemma ShoeFields(parseInt: string -> Option<int>)
    ensures MapFields(ShoeValue(), parseInt) == Ok(ProductResponse("Shoe", "", 2000, 1500, false))
  {
    var d := ShoeValue().fields;
    assert EffectiveRecord(ShoeValue()) == Ok(d);
    assert Title(d) == Ok(Str("Shoe"));
    assert ImageOf(d) == Ok(Str(""));
    assert OriginalPrice(d) == Ok(Num(2000));
    assert DiscountedPrice(d, Num(2000)) == Ok(Num(1500));
    assert InStock(d) == Ok(false);
  }

  /** Worked example: a page whose one script assigns the product object to
      `pdpData`, with a decoder that knows that object. */
  lemma ShoeExample(host: string, body: string, blob: string, script: string, lib: Collaborators)
    requires host == "www.myntra.com" && body == "<html/>"
    requires blob == "{" + "\"name\":\"Shoe\",\"mrp\":2000,\"price\":{\"effective\":1500},\"flags\":{\"outOfStock\":true}}"
    requires script == "var pdpData=" + blob
    requires lib.scriptTexts(body) == [script]
    requires lib.loads(blob) == Some(ShoeValue())
    ensures Pipeline(host, Response(200, body), lib) == Ok(ProductResponse("Shoe", "", 2000, 1500, false))
  {
    assert host[4..14] == Domain;
    assert OccursAt(host, Domain, 4);
    assert script[4..11] == Marker;
    assert OccursAt(script, Marker, 4);
    assert FirstMarked([script]) == Some(script);
    assert script[..12] == "var pdpData=" && script[12..] == blob;
    assert script[12] == blob[0] == '{';
    DecoderSeesBraceSuffix(host, body, lib, script, 12);
    ShoeFields(lib.parseInt);
  }

  /** An upstream 403 carrying the block phrase is reported as 403, by the
      status pass-through before the body is looked at. */
  lemma Upstream403Example(host: string, lib: Collaborators)
    requires DomainAllowed(host)
    ensures Pipeline(host, Response(403, "Access Denied"), lib) == Err(Forbidden)
  {
  }
}
