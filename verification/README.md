# Myntra product scraper, modelled in Dafny

This project models the one non-trivial operation of the Myntra product API,
`fetch_myntra_product` in `main.py`. Given a product URL, it returns a fixed
five-field record: title, primary image, original price, discounted price and
stock flag. It works in four stages, and the first failure ends the request
with an HTTP status code:

1. **Domain gate.** The URL's host must contain `myntra.com`. Otherwise the
   result is 400.
2. **Fetch classification.** A transport failure gives 502. A status other
   than 200 is reported as that same status. A 200 body that contains
   `Access Denied` or `You don't have permission` gives 403.
3. **Blob locator.** The locator takes the first script text, in document
   order, that contains `pdpData`. It cuts that text from its first `{` to the
   end and decodes the suffix. No such script, no `{`, or a decode failure
   gives 500.
4. **Field mapper.** The effective record is the truthy `pdpData` value, or
   else the whole decoded value. Each output field is an `or`-chain of `.get`
   lookups with Python truthiness and a default at the end.

Files and modules:

- `wrappers.dfy` (`Wrappers`): `Option` and `Result`. Both work with `:-`, so
  an error ends a computation the way a raised exception ends the request.
- `json.dfy` (`Json`): the decoded value `JsonValue`
  (`Null | Bool | Num | Str | Arr | Obj`), Python truthiness, `dict.get`,
  and `.get` on an arbitrary value (only a dict has one). Also the `or`
  operator and `FirstTruthy`, which is the reference reading of an `or`-chain.
- `text.dfy` (`Text`): the substring test `sub in s` and `s.index(c)`.
- `fetcher.dfy` (`Fetcher`): the domain gate and the classification of the
  fetch outcome.
- `locator.dfy` (`BlobLocator`): the script search. `LocateScript` is the loop
  that stops at the first match, proved equal to the reference function
  `FirstMarked`. Also the cut at the first `{` and the decode.
- `mapper.dfy` (`FieldMapper`): the effective record and the field chains.
  `PickPrimaryImage` builds the image step by step, as the source does, and
  is proved equal to the reference descent `ImageOf`. Also the final `str`
  and `int` coercions.
- `scraper.dfy` (`Scraper`): `Pipeline` is the reference definition of the
  whole request. `FetchMyntraProduct` is the step-by-step version, proved
  equal to it. The lemmas state the stage-by-stage outcomes and the worked
  example.

Code that the scraper calls but that is not modelled is passed in as given
functions (`Scraper.Collaborators`):

- the HTML parser, as the list of stripped script texts of a body;
- `json.loads`, as a partial decoder (`None` where it raises);
- `int` applied to a string, as a partial parser.

The fetch itself is an input (`Fetcher.FetchOutcome`): either a transport
failure, or a status code with the body text.

Python semantics kept in the model:

- Calling `.get` on anything but a dict raises `AttributeError`. Indexing a
  dict with `0`, or indexing a number, raises `KeyError` or `TypeError`. The
  handler does not catch these, so the server reports them as 500. Each of
  them is an `Err(500)` in the model.
- Whether such a lookup runs at all depends on the short-circuit of `or`.
  For example, a non-dict `price` only fails when the top-level `mrp` is
  falsy. The chains keep that evaluation order.
- `data.get("product", {})` falls back to `{}` only when the key is absent.
  A present `null` or non-dict `product` fails once `name` is falsy.
- `images[0]` on a non-empty string yields a one-character string, whose
  `.get` then fails.
- `title` and `primary_image` must be strings for the response model. Any
  other truthy value is a validation error (500).
- `int(x)` maps a boolean to 0 or 1, passes integers through, parses
  strings, and raises on `None`, lists and dicts.

Where the code's behaviour is easy to misread, the model follows the code:

- A 403 upstream response is reported as 403 by the status pass-through,
  before the body's block phrases are looked at (`Scraper.Upstream403Example`).
- `in_stock` is the negated truthiness of any `outOfStock` value, not only a
  boolean. A present `null` gives `in_stock = true`.
- Nothing makes prices non-negative. The model passes through whatever
  integer the chain yields.
- Structural mismatches are not converted by the handler. They surface as
  unhandled exceptions, which carry the same 500 status.

Every definition here is a pure function of its inputs. Running the
pipeline twice on the same page and the same collaborators therefore gives
the same record.

## Model

| member | source | states |
|---|---|---|
| `Json.Lookup` | main.py:150-151 | `v.get(key, default)` fails with 500 exactly when `v` is not a dict; a present key yields its value and an absent key yields the default |
| `Json.Or` | main.py:103 | Python `a or b` is `a` when `a` is truthy and `b` otherwise; the result is truthy iff either operand is |
| `Json.FirstTruthy` | main.py:108-112 | an `or`-chain's value is the default when every candidate is falsy; otherwise it is a truthy candidate with every earlier candidate falsy |
| `Text.Contains` | main.py:48 | `sub in s` holds iff `sub` occurs at some position of `s` |
| `Text.IndexOf` | main.py:94 | `s.index(c)` is the position of the first `c`, with no `c` before it; it fails exactly when `c` is not in `s` |
| `Fetcher.Classify` | main.py:55-75 | the page text comes through iff the status is 200 and the body has neither block phrase; a transport failure gives 502, a status other than 200 gives that status, a blocked 200 gives 403 |
| `BlobLocator.FirstMarked` | main.py:79-84 | the located text is absent iff no script contains `pdpData`; when present it is the first script, in document order, that contains it |
| `BlobLocator.LocateScript` | main.py:79-84 | the scan that breaks at the first match returns the same text as `FirstMarked` |
| `BlobLocator.DecodeBlob` | main.py:86-100 | no located script, or no `{` in it, gives 500; otherwise the decoder is given the suffix from the first `{`, and a rejection gives 500 |
| `FieldMapper.EffectiveRecord` | main.py:103 | the effective record is `raw["pdpData"]` when that is truthy, else `raw`; it fails (500) iff `raw` is not a dict or the chosen value is not one |
| `FieldMapper.Title` | main.py:108-112 | the title is always truthy; it fails exactly when `name` is falsy and `product` is present but not a dict |
| `FieldMapper.TitleChain` | main.py:108-112 | a computed title is the first truthy of `name` and `product.productName`, else "Unknown Product" |
| `FieldMapper.Subscript0` | main.py:122 | `images[0]` is the first item of a non-empty list or the first character of a non-empty string; it never fails on those |
| `FieldMapper.ImageSource` | main.py:123-127 | fails iff the image is not a dict; otherwise gives the first truthy of `secureSrc` and `imageURL`, else `src` |
| `FieldMapper.ImageOf` | main.py:115-130 | the primary image is truthy or exactly `""`; any failure is 500 |
| `FieldMapper.PickPrimaryImage` | main.py:115-130 | building the image from `None` by conditional reassignment gives the same outcome as the descent `ImageOf` |
| `FieldMapper.MissingImageIsEmpty` | main.py:115-130 | no media, no albums list, no images in the first album, or no truthy source field gives `""` and no error |
| `FieldMapper.FirstImageSource` | main.py:119-130 | when the descent reaches a dict `media.albums[0].images[0]`, the result is its first truthy source field, else `""` |
| `FieldMapper.OriginalPrice` | main.py:133-140 | fails exactly when `mrp` is falsy and `price` is a truthy non-dict; otherwise the value is truthy or 0 |
| `FieldMapper.OriginalPriceChain` | main.py:133-140 | whenever the chain does not fail (including a non-dict `price` behind a truthy `mrp`), the original price is the first truthy of `mrp`, `price.mrp` and `price.marked`, else 0 |
| `FieldMapper.DiscountedPrice` | main.py:142-147 | fails exactly when `discountedPrice` is falsy and `price` is a truthy non-dict; otherwise the value is truthy or the original price |
| `FieldMapper.DiscountedPriceChain` | main.py:142-147 | whenever the chain does not fail, the discounted price is the first truthy of `discountedPrice`, `price.discountedPrice` and `price.effective`, else the original price |
| `FieldMapper.InStock` | main.py:150-151 | fails iff `flags or {}` is not a dict; otherwise in stock iff `flags.outOfStock` is falsy or absent |
| `FieldMapper.AsString` | main.py:154-156 | a `str` field accepts exactly a string value, unchanged |
| `FieldMapper.ToInt` | main.py:157-158 | `int(v)` passes integers through, maps booleans to 0/1, gives the parsed value of a string (500 when the parser rejects it), and fails (500) on `None`, lists and dicts |
| `FieldMapper.Finish` | main.py:133-160 | a built record carries the given title and image strings, `int(x or 0)` of the two price chains, and the stock chain; every failure is 500 |
| `FieldMapper.MapFields` | main.py:103-160 | every mapper failure is 500; a produced record always has a non-empty title |
| `FieldMapper.RecordFields` | main.py:103-160 | in a produced record: the title is the chain's pick; the image is `""` when the descent stops and the first truthy source of the first image when it reaches one; each price is `int(x or 0)` of its first-truthy chain; `in_stock` is the negated `outOfStock`; the discounted price equals the original when every discount field is falsy |
| `FieldMapper.EmptyRecordDefaults` | main.py:103-160 | `{}` maps to ("Unknown Product", "", 0, 0, true) |
| `Scraper.Pipeline` | main.py:45-160 | a record is produced only for an allowed host and an unblocked 200 response, and its title is non-empty; every error is 400, 403, 500, 502 or the upstream's own status |
| `Scraper.FetchMyntraProduct` | main.py:45-160 | the step-by-step handler, with the loop-based script search and the stepwise image, returns exactly `Pipeline`'s result |
| `Scraper.DomainCheckedFirst` | main.py:47-52 | for a host without `myntra.com` the result is 400, whatever the fetch and the page would have given |
| `Scraper.UpstreamFailures` | main.py:55-75 | for an allowed host: transport failure gives 502, a status other than 200 gives that status, and a 200 body with either block phrase gives 403 |
| `Scraper.NoMarkedScript` | main.py:79-90 | a page none of whose scripts contains `pdpData` gives 500 |
| `Scraper.DecoderSeesBraceSuffix` | main.py:93-100 | once the located script is known, the decoder sees exactly the suffix from its first `{`; a rejection gives 500, an accepted value goes to the mapper |
| `Scraper.NoBraceInScript` | main.py:93-100 | a located script without `{` gives 500 |
| `Scraper.ShoeFields` | main.py:103-160 | the worked object maps to ("Shoe", "", 2000, 1500, false) |
| `Scraper.ShoeExample` | main.py:45-160 | the page whose script is `var pdpData={...}` yields ("Shoe", "", 2000, 1500, false) end to end |
| `Scraper.Upstream403Example` | main.py:63-67 | an upstream 403 whose body says "Access Denied" is reported as 403 |

## Left out

- The network call (`requests.get`), the `HEADERS` constant and the 10-second timeout are not modelled. They are I/O; the fetch outcome is an input.
- HTML parsing with BeautifulSoup/lxml and `get_text(strip=True)` are not modelled. They are a foreign library; the script texts are given by `Collaborators.scriptTexts`.
- The internals of `json.loads` are not modelled. They are a foreign library; `Collaborators.loads` is an arbitrary partial decoder. So tolerance of trailing text after the object is the decoder's business.
- `urlparse` and the `HttpUrl` validation of the request body are not modelled. They are library code; the host (netloc) is given as a string.
- The FastAPI app, the endpoint and response serialisation are not modelled. They are framework glue.
- Error messages (`detail` text) are not modelled; errors carry the status code only.
- Floating-point JSON numbers and `int` of a float are not modelled. JSON numbers are integers here.
- The text of `int(str)` parsing is not modelled. It is the given partial function `Collaborators.parseInt`.
- Pydantic v1 coercion of numbers to `str` is not modelled. The `str` fields follow pydantic v2 and accept only strings.
- Non-negative prices are not stated. The code does not enforce them.
