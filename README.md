# Flickr REST service: request building and response values

A Dafny model of the request-building layer of an iOS Flickr photo browser.
The service `FlickrRESTService` offers two operations. `getPhotos` calls the
Flickr method `flickr.photos.search`. `getPhotoSizes` calls
`flickr.photos.getSizes`. Each operation assembles a list of query items:
first the shared items `format=json`, `nojsoncallback=1` and
`api_key=<configured key>`, then the method's own items. It then asks its
transport for one GET of the root path `""` with that list and returns
whatever the transport publishes. The request and response values, and the
closed `Label` enumeration of size names, are modelled alongside.

Modules:

- `Wrappers` (`wrappers.dfy`): `Option`.
- `Transport` (`transport.dfy`): `QueryItem`, the transport `Error`, the
  single-shot `Result`, and the shape `Get<T>` of the transport's
  `get(path:parameters:)`. `Values(items, name)` lists the values carried
  under a name, in order; the tests' `parameters.contains(item)` is
  membership in that list (`ValuesContains`).
- `Text` (`text.dfy`): `Join` is `joined(separator:)` and `IntToDecimal` is
  `String(Int)`. `Split` and `DecimalToInt` are reference inverses. They are
  not part of the source; they exist so the lemmas can state what the
  conversions preserve.
- `Protocols` (`protocols.dfy`): the request and response values, `Label`
  with its raw values, and the decoding of a size entry's label.
- `FlickrRESTService` (`flickr_rest_service.dfy`): `Configuration`,
  `MakeParameters`, the query of each method, and the service with
  `GetPhotos` and `GetPhotoSizes`.

The transport is an uninterpreted parameter. The Swift transport has one
generic `get<T>`. Dafny has no generic function values, so `RESTTransport`
holds that `get` at the two response types the service uses. Any Dafny
function of the right shape is a transport, so every lemma about the
service holds for every transport.

Where the source files disagree with each other, the model follows the
code that uses the value:

- `FlickrPhotosRequest` is declared with `tags` only
  (FlickrWebService/Protocols.swift:26-33). But the service reads
  `request.page` (FlickrWebService/FlickrRESTService.swift:46), and the
  tests build `FlickrPhotosRequest(page: 2)`. The model therefore gives the
  request a `page: int` field. No shown file gives `page` a default, so the
  model has none: `page` is always a constructor argument. `tags` keeps its
  declared default `[]`.
- `Sizes.size` is declared as a single `Size`
  (FlickrWebService/Protocols.swift:87). The tests expect an array
  (FlickrWebServiceTests/FlickrRESTServiceTests.swift:198). The model uses
  `seq<Size>`.
- An unrecognised size label could be expected to decode as an absent
  label. The code does not do that. `label` is declared
  `Label?` over a `String`-backed `Decodable` enum. Swift's synthesised
  decoding maps a missing or null key to `nil`, but a present string that
  is not a raw value throws. That fails the whole response. `DecodeSize`
  and `UnknownLabelFailsDecode` model the code.
- The `FlickrWebService` protocol declares `FlickrError` as its failure
  type (FlickrWebService/Protocols.swift:108,115). The service's operations return a plain `Error`
  (FlickrWebService/FlickrRESTService.swift:31,53) and map nothing. The
  model passes the transport's error through unchanged.

## Model

| member | source | states |
|---|---|---|
| `FlickrRESTService.MakeParameters` | FlickrWebService/FlickrRESTService.swift:70-86 | The full query has the per-call items' length plus 3. It starts with `format=json`, `nojsoncallback=1` and `api_key=key`, in that order. Its tail from index 3 is the per-call list, unchanged. For every name, its values are the shared items' values followed by the per-call items' values. |
| `FlickrRESTService.PhotosParametersAre` | FlickrWebService/FlickrRESTService.swift:31-50 | The search query is exactly `format=json`, `nojsoncallback=1`, `api_key=key`, `method=flickr.photos.search`, `tags=<joined tags>`, `page=<decimal page>`, in that order. |
| `FlickrRESTService.PhotosParametersValues` | FlickrWebService/FlickrRESTService.swift:31-50 | For any request, the search query has six items. Each of its six names appears exactly once: `method` with `flickr.photos.search`, `format` with `json`, `api_key` with the configured key, `tags` with the joined tags, and `page` with the decimal page. |
| `FlickrRESTService.PhotoSizesParametersValues` | FlickrWebService/FlickrRESTService.swift:53-68 | The sizes query is exactly `[format=json, nojsoncallback=1, api_key=key, method=flickr.photos.getSizes, photo_id=id]`. `format`, `api_key`, `method` and `photo_id` each appear once. |
| `FlickrRESTService.ApiKeyIsConfigured` | FlickrWebService/FlickrRESTService.swift:80-83 | In both queries, the only `api_key` value is `configuration.key`, whatever the request holds. |
| `FlickrRESTService.TagsRecoverable` | FlickrWebService/FlickrRESTService.swift:40-43 | The tags travel as a single item. If there is at least one tag and no tag contains a comma, splitting that item's value at commas gives back the request's tags in order. |
| `FlickrRESTService.PageRecoverable` | FlickrWebService/FlickrRESTService.swift:44-47 | The page travels as a single item. Reading its value as decimal gives back the request's page. |
| `FlickrRESTService.TagsOfTheTests` | FlickrWebServiceTests/FlickrRESTServiceTests.swift:69-143 | `["kittens"]` is sent as `tags=kittens`. `["kittens","puppies"]` is sent as `tags=kittens,puppies`. |
| `FlickrRESTService.NoTagsSendsEmptyTags` | FlickrWebService/FlickrRESTService.swift:40-43 | A request built without tags still sends exactly one `tags` item, with the empty value; it is not omitted. |
| `FlickrRESTService.GetPhotosUsesRootPath` | FlickrWebService/FlickrRESTService.swift:32-33 | Two transports that agree on the path `""` give `getPhotos` the same result. Only the root path is requested. |
| `FlickrRESTService.GetPhotoSizesUsesRootPath` | FlickrWebService/FlickrRESTService.swift:54-55 | Two transports that agree on the path `""` give `getPhotoSizes` the same result. |
| `FlickrRESTService.GetPhotosAsksTransport` | FlickrWebService/FlickrRESTService.swift:31-51 | For any transport, including one whose answer depends on the query, `getPhotos` returns unchanged what the transport answers for the root path and the search query. What that query holds is stated by `PhotosParametersValues`. |
| `FlickrRESTService.GetPhotoSizesAsksTransport` | FlickrWebService/FlickrRESTService.swift:53-69 | For any transport, `getPhotoSizes` returns unchanged what the transport answers for the root path and the sizes query. What that query holds is stated by `PhotoSizesParametersValues`. |
| `FlickrRESTService.GetPhotosReturnsTransportResult` | FlickrWebService/FlickrRESTService.swift:31-51 | A transport that answers every root-path query with the same `x`, success or failure, makes `getPhotos` answer `x`. |
| `FlickrRESTService.GetPhotoSizesReturnsTransportResult` | FlickrWebService/FlickrRESTService.swift:53-69 | A transport that answers every root-path query with the same `x`, success or failure, makes `getPhotoSizes` answer `x`. |
| `FlickrRESTService.GetPhotosFailsWhenTransportFails` | FlickrWebServiceTests/FlickrRESTServiceTests.swift:145-156 | A transport that always fails makes `getPhotos` fail. There is never a default-valued success. |
| `FlickrRESTService.GetPhotoSizesFailsWhenTransportFails` | FlickrWebServiceTests/FlickrRESTServiceTests.swift:223-237 | A transport that always fails makes `getPhotoSizes` fail. |
| `FlickrRESTService.GetPhotosOnPageTwo` | FlickrWebServiceTests/FlickrRESTServiceTests.swift:20-67 | The transport succeeds only if the query contains `method=flickr.photos.search`, the key, `page=2` and `format=json`. With it, `getPhotos` on page 2 succeeds with the transport's response. |
| `FlickrRESTService.GetPhotoSizesOfPhotoThree` | FlickrWebServiceTests/FlickrRESTServiceTests.swift:160-221 | The transport succeeds only if the query contains `method=flickr.photos.getSizes`, the key, `format=json` and `photo_id=3`. With it, `getPhotoSizes` of photo 3 succeeds with the transport's response. |
| `FlickrRESTService.SizesOfPhotoThreeDecode` | FlickrWebServiceTests/FlickrRESTServiceTests.swift:167-214 | Entries labelled `"Large"` and `"Large Square"` decode to `Large` and `LargeSquare`. Width, height, source and url are kept, and so is the order. |
| `Text.SplitJoin` | FlickrWebService/FlickrRESTService.swift:42 | Joining a non-empty list with a one-character separator that no part contains, then splitting at that separator, gives the list back. |
| `Text.NatToDecimal` | FlickrWebService/FlickrRESTService.swift:46 | The text of a natural number is a non-empty string of decimal digits. It starts with `0` only for zero. |
| `Text.IntDecimalRoundTrip` | FlickrWebService/FlickrRESTService.swift:46 | Reading back the decimal text of any integer, negative ones included, gives that integer. |
| `Text.IntToDecimalInjective` | FlickrWebService/FlickrRESTService.swift:46 | Distinct pages give distinct `page` values. |
| `Protocols.PhotosRequestDefaultTags` | FlickrWebService/Protocols.swift:32 | A request built without tags has `tags == []` and keeps its page. |
| `Protocols.LabelFromRaw` | FlickrWebService/Protocols.swift:77-80 | Only `"Large Square"` and `"Large"` parse. Any string that parses gives the case whose raw value it is. |
| `Protocols.LabelRawValues` | FlickrWebService/Protocols.swift:77-80 | `LargeSquare` has raw value `"Large Square"` and `Large` has raw value `"Large"`. |
| `Protocols.LabelRawInjective` | FlickrWebService/Protocols.swift:77-80 | The two cases have distinct raw values. |
| `Protocols.LabelRoundTrip` | FlickrWebService/Protocols.swift:77-80 | Parsing a case's raw value gives that case back. |
| `Protocols.DecodeSize` | FlickrWebService/Protocols.swift:76-86 | A size entry decodes exactly when its label is absent or a known raw value. On success, width, height, source and url are kept. The label is absent exactly when it was absent. A present label is the case whose raw value was read. |
| `Protocols.DecodeSizes` | FlickrWebService/Protocols.swift:74-90 | The `size` array decodes exactly when every entry's label decodes. On success, the result has one size per entry, in order, each being that entry decoded. |
| `Protocols.UnknownLabelFailsDecode` | FlickrWebService/Protocols.swift:77-81 | A label string that is not a raw value, such as `"Medium"`, fails the decode. An absent label decodes to a size without a label. |

## Left out

- The JSON transport (`JSONTransport`) is not part of this model. It performs network I/O through `URLSession` and Combine, and builds URLs with `URLComponents`. The service's convenience initialiser that installs it with the Flickr base URL is left out with it.
- The mock transport (`MockTransport`) is not part of this model. Its behaviour, a handler whose error becomes the published failure, is covered by the transport being an arbitrary function to `Result`.
- Asynchrony is not modelled. The Combine publishers are single-shot, so a call is modelled as one `Result` value.
- JSON text parsing is not modelled. This covers `JSONDecoder`, which malformed bodies fail, and the URL-syntax check that `URL(string:)` applies to `source` and `url`. The model starts from the fields already read from the body, and `source` and `url` are kept as text.
- The `FlickrWebService` protocol's `FlickrError` failure type (FlickrWebService/Protocols.swift:108,115) is not modelled as a mapping. The service never produces one, so `FlickrError` appears only as a value type.
- The transport `Error` has two kinds, network and decoding. The Swift `Error` is open-ended. The service never inspects it, so nothing depends on which kinds exist.
- `IntToDecimal` works on unbounded integers. Swift's `Int` is 64 bits wide, but every 64-bit value is also covered, so nothing is lost.
- `GetPhotosUsesRootPath`: it states that only the root path matters to the result. It does not state that the transport is called exactly once, because a pure model of a call has no count of calls.
