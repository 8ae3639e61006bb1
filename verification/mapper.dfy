/** The field mapper: from the decoded page data to the fixed five-field
    product record, one `or`-chain of lookups per field. */
module FieldMapper {
  import opened Wrappers
  import opened Json

  /** The response record: every field is always present and typed. */
  datatype ProductResponse = ProductResponse(
    title: string,
    primaryImage: string,
    originalPrice: int,
    discountedPrice: int,
    inStock: bool)

  const UnknownProduct := "Unknown Product"

  /** `v[key]` read leniently, for stating what a chain picks: None unless
      `v` is a dict that has the key. */
  function Field(v: JsonValue, key: string): JsonValue {
    if v.Obj? then Get(v.fields, key) else Null
  }

  /** `raw_data.get("pdpData") or raw_data`, which must then be a dict for
      the `data.get(...)` calls that follow. */
  function EffectiveRecord(raw: JsonValue): (r: Result<map<string, JsonValue>, int>)
    ensures r.Err? ==> r.error == ServerError
    ensures r.Err? <==> !raw.Obj? || (Truthy(Field(raw, "pdpData")) && !Field(raw, "pdpData").Obj?)
    ensures r.Ok? && Truthy(Field(raw, "pdpData")) ==> Field(raw, "pdpData") == Obj(r.value)
    ensures r.Ok? && !Truthy(Field(raw, "pdpData")) ==> raw == Obj(r.value)
  {
    var nested :- Lookup(raw, "pdpData");
    var data := Or(nested, raw);
    if data.Obj? then Ok(data.fields) else Err(ServerError)
  }

  /** `data.get("name") or data.get("product", {}).get("productName")
      or "Unknown Product"`. A present but non-dict `product` fails only when
      `name` is falsy, because `or` short-circuits. */
  function Title(d: map<string, JsonValue>): (r: Result<JsonValue, int>)
    ensures r.Ok? ==> Truthy(r.value)
    ensures r.Err? ==> r.error == ServerError
    ensures r.Err? <==> !Truthy(Get(d, "name")) && "product" in d && !d["product"].Obj?
  {
    var name := Get(d, "name");
    if Truthy(name) then Ok(name)
    else
      var productName :- Lookup(GetOr(d, "product", EmptyObj), "productName");
      Ok(Or(productName, Str(UnknownProduct)))
  }

  /** `images[0]` on a truthy value: the first item of a list, the first
      character of a string; a dict (no key 0) or a number raises. */
  function Subscript0(v: JsonValue): (r: Result<JsonValue, int>)
    ensures r.Ok? ==> (v.Arr? && v.items != [] && r.value == v.items[0])
                      || (v.Str? && v.s != [] && r.value == Str([v.s[0]]))
    ensures (v.Arr? && v.items != []) || (v.Str? && v.s != []) ==> r.Ok?
  {
    match v
    case Arr(items) => if items == [] then Err(ServerError) else Ok(items[0])
    case Str(s) =>
      if s == "" then Err(ServerError)
      else
        assert s[..1] == [s[0]];
        Ok(Str(s[..1]))
    case _ => Err(ServerError)
  }

  /** `img.get("secureSrc") or img.get("imageURL") or img.get("src")`. */
  function ImageSource(img: JsonValue): (r: Result<JsonValue, int>)
    ensures r.Err? <==> !img.Obj?
    ensures r.Ok? ==> r.value == FirstTruthy([Field(img, "secureSrc"), Field(img, "imageURL")], Field(img, "src"))
  {
    if !img.Obj? then Err(ServerError)
    else Ok(Or(Get(img.fields, "secureSrc"), Or(Get(img.fields, "imageURL"), Get(img.fields, "src"))))
  }

  /** Reference definition of `primary_image`: descend media -> albums[0] ->
      images[0] and read the image's source, `""` whenever a step is
      missing, empty or falsy. */
  function ImageOf(d: map<string, JsonValue>): (r: Result<JsonValue, int>)
    ensures r.Err? ==> r.error == ServerError
    ensures r.Ok? ==> Truthy(r.value) || r.value == Str("")
  {
    var albums :- Lookup(Or(Get(d, "media"), EmptyObj), "albums");
    var list := Or(albums, EmptyArr);
    var picked :-
      if Truthy(list) && list.Arr? then
        var images :- Lookup(list.items[0], "images");
        var imageList := Or(images, EmptyArr);
        if Truthy(imageList) then
          var img :- Subscript0(imageList);
          ImageSource(img)
        else Ok(Null)
      else Ok(Null);
    Ok(Or(picked, Str("")))
  }

  /** `primary_image` as the scraper builds it: start from None, overwrite it
      only when each step of the descent succeeds, and fall back to `""`. */
  method PickPrimaryImage(d: map<string, JsonValue>) returns (r: Result<JsonValue, int>)
    ensures r == ImageOf(d)
  {
    var primary := Null;
    var media := Or(Get(d, "media"), EmptyObj);
    var albums :- Lookup(media, "albums");
    albums := Or(albums, EmptyArr);
    if Truthy(albums) && albums.Arr? {
      var images :- Lookup(albums.items[0], "images");
      images := Or(images, EmptyArr);
      if Truthy(images) {
        var img :- Subscript0(images);
        primary :- ImageSource(img);
      }
    }
    if !Truthy(primary) {
      primary := Str("");
    }
    r := Ok(primary);
  }

  /** `data.get("price") or {}`. */
  function PriceInfo(d: map<string, JsonValue>): JsonValue {
    Or(Get(d, "price"), EmptyObj)
  }

  /** `data.get("mrp") or price_info.get("mrp") or price_info.get("marked")
      or 0`. */
  function OriginalPrice(d: map<string, JsonValue>): (r: Result<JsonValue, int>)
    ensures r.Err? <==> !Truthy(Get(d, "mrp")) && !PriceInfo(d).Obj?
    ensures r.Err? ==> r.error == ServerError
    ensures r.Ok? ==> Truthy(r.value) || r.value == Num(0)
  {
    var mrp := Get(d, "mrp");
    if Truthy(mrp) then Ok(mrp)
    else
      // price_info.get(...) raises unless price_info is a dict
      if !PriceInfo(d).Obj? then Err(ServerError)
      else
        var info := PriceInfo(d).fields;
        Ok(Or(Get(info, "mrp"), Or(Get(info, "marked"), Num(0))))
  }

  /** `data.get("discountedPrice") or price_info.get("discountedPrice")
      or price_info.get("effective") or original_price`. */
  function DiscountedPrice(d: map<string, JsonValue>, original: JsonValue): (r: Result<JsonValue, int>)
    ensures r.Err? <==> !Truthy(Get(d, "discountedPrice")) && !PriceInfo(d).Obj?
    ensures r.Err? ==> r.error == ServerError
    ensures r.Ok? ==> Truthy(r.value) || r.value == original
  {
    var discounted := Get(d, "discountedPrice");
    if Truthy(discounted) then Ok(discounted)
    else
      if !PriceInfo(d).Obj? then Err(ServerError)
      else
        var info := PriceInfo(d).fields;
        Ok(Or(Get(info, "discountedPrice"), Or(Get(info, "effective"), original)))
  }

  /** `data.get("flags") or {}`. */
  function Flags(d: map<string, JsonValue>): JsonValue {
    Or(Get(d, "flags"), EmptyObj)
  }

  /** `not flags.get("outOfStock", False)`. */
  function InStock(d: map<string, JsonValue>): (r: Result<bool, int>)
    ensures r.Err? <==> !Flags(d).Obj?
    ensures r.Err? ==> r.error == ServerError
    ensures r.Ok? ==> (r.value <==> !Truthy(Field(Flags(d), "outOfStock")))
  {
    var outOfStock :- Lookup(Flags(d), "outOfStock", Bool(false));
    Ok(!Truthy(outOfStock))
  }

  /** Validation of a `str` field of the response model: only a string is
      accepted (no coercion of numbers, booleans, lists or dicts). */
  function AsString(v: JsonValue): (r: Result<string, int>)
    ensures r.Ok? <==> v.Str?
    ensures r.Ok? ==> v == Str(r.value)
    ensures r.Err? ==> r.error == ServerError
  {
    if v.Str? then Ok(v.s) else Err(ServerError)
  }

  /** Python's `int(v)`: an integer as is, a boolean as 0 or 1, a string
      through the integer parser; None, a list or a dict raise TypeError. */
  function ToInt(v: JsonValue, parseInt: string -> Option<int>): (r: Result<int, int>)
    ensures v.Num? ==> r == Ok(v.n)
    ensures v.Bool? ==> r == Ok(if v.b then 1 else 0)
    ensures v.Null? || v.Arr? || v.Obj? ==> r == Err(ServerError)
    ensures v.Str? && parseInt(v.s).Some? ==> r == Ok(parseInt(v.s).value)
    ensures v.Str? && parseInt(v.s).None? ==> r == Err(ServerError)
  {
    match v
    case Num(n) => Ok(n)
    case Bool(b) => Ok(if b then 1 else 0)
    case Str(s) => (
      match parseInt(s)
      case Some(n) => Ok(n)
      case None => Err(ServerError))
    case _ => Err(ServerError)
  }

  /** Everything after the title and the image: the prices, the stock flag
      and the construction of the response record. */
  function Finish(d: map<string, JsonValue>, title: JsonValue, image: JsonValue,
                  parseInt: string -> Option<int>): (r: Result<ProductResponse, int>)
    ensures r.Err? ==> r.error == ServerError
    ensures r.Ok? ==> title == Str(r.value.title) && image == Str(r.value.primaryImage)
    ensures r.Ok? ==> OriginalPrice(d).Ok? && DiscountedPrice(d, OriginalPrice(d).value).Ok?
    ensures r.Ok? ==> ToInt(Or(OriginalPrice(d).value, Num(0)), parseInt) == Ok(r.value.originalPrice)
    ensures r.Ok? ==> ToInt(Or(DiscountedPrice(d, OriginalPrice(d).value).value, Num(0)), parseInt)
                      == Ok(r.value.discountedPrice)
    ensures r.Ok? ==> InStock(d) == Ok(r.value.inStock)
  {
    var original :- OriginalPrice(d);
    var discounted :- DiscountedPrice(d, original);
    var inStock :- InStock(d);
    var titleText :- AsString(title);
    var imageText :- AsString(image);
    var originalPrice :- ToInt(Or(original, Num(0)), parseInt);
    var discountedPrice :- ToInt(Or(discounted, Num(0)), parseInt);
    Ok(ProductResponse(titleText, imageText, originalPrice, discountedPrice, inStock))
  }

  /** The whole field mapper on a decoded value. Every failure is a 500, and
      a record that is produced always has a non-empty title. */
  function MapFields(raw: JsonValue, parseInt: string -> Option<int>): (r: Result<ProductResponse, int>)
    ensures r.Err? ==> r.error == ServerError
    ensures r.Ok? ==> r.value.title != ""
  {
    var d :- EffectiveRecord(raw);
    var title :- Title(d);
    var image :- ImageOf(d);
    Finish(d, title, image, parseInt)
  }

  /** Each title candidate is looked up in order; with the lenient reading of
      `product`, the title is the first truthy one or "Unknown Product". */
  lemma TitleChain(d: map<string, JsonValue>)
    requires Title(d).Ok?
    ensures Title(d).value ==
      FirstTruthy([Get(d, "name"), Field(GetOr(d, "product", EmptyObj), "productName")], Str(UnknownProduct))
  {
  }

  /** A three-candidate chain, unfolded. */
  lemma ThreeCandidates(a: JsonValue, b: JsonValue, c: JsonValue, default: JsonValue)
    ensures FirstTruthy([a, b, c], default) == Or(a, Or(b, Or(c, default)))
  {
    assert [c][1..] == [];
    assert FirstTruthy([c], default) == Or(c, default);
    assert [b, c][1..] == [c];
    assert FirstTruthy([b, c], default) == Or(b, Or(c, default));
    assert [a, b, c][1..] == [b, c];
  }

  /** Whenever the chain does not fail, the original price is the first
      truthy of mrp, price.mrp and price.marked, else 0. */
  lemma OriginalPriceChain(d: map<string, JsonValue>)
    requires OriginalPrice(d).Ok?
    ensures OriginalPrice(d) ==
      Ok(FirstTruthy([Get(d, "mrp"), Field(PriceInfo(d), "mrp"), Field(PriceInfo(d), "marked")], Num(0)))
  {
    ThreeCandidates(Get(d, "mrp"), Field(PriceInfo(d), "mrp"), Field(PriceInfo(d), "marked"), Num(0));
  }

  /** Whenever the chain does not fail, the discounted price is the first
      truthy of discountedPrice, price.discountedPrice and price.effective,
      else the already resolved original price. */
  lemma DiscountedPriceChain(d: map<string, JsonValue>, original: JsonValue)
    requires DiscountedPrice(d, original).Ok?
    ensures DiscountedPrice(d, original) ==
      Ok(FirstTruthy([Get(d, "discountedPrice"), Field(PriceInfo(d), "discountedPrice"),
                      Field(PriceInfo(d), "effective")], original))
  {
    ThreeCandidates(Get(d, "discountedPrice"), Field(PriceInfo(d), "discountedPrice"),
                    Field(PriceInfo(d), "effective"), original);
  }

  /** The image descent stops before yielding a source: no media, no (list
      of) albums, no images in the first album, or an image without a truthy
      source field. */
  predicate ImageDescentStops(d: map<string, JsonValue>) {
    var media := Or(Get(d, "media"), EmptyObj);
    var albums := Field(media, "albums");
    media.Obj? &&
    (!Truthy(albums) || !albums.Arr? ||
     (albums.items[0].Obj? &&
      var images := Field(albums.items[0], "images");
      !Truthy(images) ||
      (images.Arr? && images.items[0].Obj? &&
       var img := images.items[0];
       !Truthy(Field(img, "secureSrc")) && !Truthy(Field(img, "imageURL")) && !Truthy(Field(img, "src")))))
  }

  /** A missing, empty or falsy step of the descent gives the empty string,
      never an error. */
  lemma MissingImageIsEmpty(d: map<string, JsonValue>)
    requires ImageDescentStops(d)
    ensures ImageOf(d) == Ok(Str(""))
  {
  }

  /** The image descent reaches a first image that is a dict: media is a
      dict, albums a non-empty list, and the first album's images a non-empty
      list whose first item is a dict. */
  predicate ImageDescentReaches(d: map<string, JsonValue>) {
    var media := Or(Get(d, "media"), EmptyObj);
    var albums := Field(media, "albums");
    media.Obj? && albums.Arr? && albums.items != [] &&
    var images := Field(albums.items[0], "images");
    images.Arr? && images.items != [] && images.items[0].Obj?
  }

  /** `media.albums[0].images[0]`, where the descent reaches it. */
  function FirstImage(d: map<string, JsonValue>): JsonValue
    requires ImageDescentReaches(d)
  {
    var albums := Field(Or(Get(d, "media"), EmptyObj), "albums");
    Field(albums.items[0], "images").items[0]
  }

  /** When the descent reaches a first image that is a dict, the image is its
      first truthy source field, or "" when there is none. */
  lemma FirstImageSource(d: map<string, JsonValue>)
    requires ImageDescentReaches(d)
    ensures ImageOf(d) ==
      Ok(Or(FirstTruthy([Field(FirstImage(d), "secureSrc"), Field(FirstImage(d), "imageURL")],
                        Field(FirstImage(d), "src")), Str("")))
  {
  }

  /** What a produced record holds, field by field, in terms of the effective
      record `d`: the title chain, the stock flag, and a discounted price that
      falls back to the original price. */
  lemma RecordFields(raw: JsonValue, parseInt: string -> Option<int>, d: map<string, JsonValue>)
    requires EffectiveRecord(raw) == Ok(d)
    requires MapFields(raw, parseInt).Ok?
    ensures var rec := MapFields(raw, parseInt).value;
      && Str(rec.title) ==
         FirstTruthy([Get(d, "name"), Field(GetOr(d, "product", EmptyObj), "productName")], Str(UnknownProduct))
      && rec.inStock == !Truthy(Field(Flags(d), "outOfStock"))
      && ((!Truthy(Get(d, "discountedPrice")) && !Truthy(Field(PriceInfo(d), "discountedPrice"))
           && !Truthy(Field(PriceInfo(d), "effective"))) ==> rec.discountedPrice == rec.originalPrice)
      && (ImageDescentStops(d) ==> rec.primaryImage == "")
      && (ImageDescentReaches(d) ==>
            Str(rec.primaryImage) ==
            Or(FirstTruthy([Field(FirstImage(d), "secureSrc"), Field(FirstImage(d), "imageURL")],
                           Field(FirstImage(d), "src")), Str("")))
      && ToInt(Or(FirstTruthy([Get(d, "mrp"), Field(PriceInfo(d), "mrp"), Field(PriceInfo(d), "marked")],
                              Num(0)), Num(0)), parseInt)
         == Ok(rec.originalPrice)
      && ToInt(Or(FirstTruthy([Get(d, "discountedPrice"), Field(PriceInfo(d), "discountedPrice"),
                               Field(PriceInfo(d), "effective")], OriginalPrice(d).value), Num(0)), parseInt)
         == Ok(rec.discountedPrice)
  {
    TitleChain(d);
    if ImageDescentStops(d) {
      MissingImageIsEmpty(d);
    }
    if ImageDescentReaches(d) {
      FirstImageSource(d);
    }
    OriginalPriceChain(d);
    DiscountedPriceChain(d, OriginalPrice(d).value);
  }

  /** An empty decoded object maps to the all-defaults record. */
  lemma EmptyRecordDefaults(parseInt: string -> Option<int>)
    ensures MapFields(EmptyObj, parseInt) == Ok(ProductResponse(UnknownProduct, "", 0, 0, true))
  {
  }
}
