/**
 * The Flickr service over a REST transport: it assembles the query items
 * of each Flickr method and hands them, with the root path, to the
 * transport, whose result it returns as is.
 */
module FlickrRESTService {

  import opened Wrappers
  import opened Transport
  import opened Text
  import opened Protocols

  datatype Configuration = Configuration(key: string)

  /**
   * The transport the service was built with. Its generic `get` is used at
   * two response types, so it is represented by those two uses.
   */
  datatype RESTTransport = RESTTransport(
    getPhotos: Get<FlickrPhotosResponse>,
    getPhotoSizes: Get<FlickrPhotoSizesResponse>)

  const PhotosSearchMethod := "flickr.photos.search"
  const PhotoSizesMethod := "flickr.photos.getSizes"

  /** The items every request carries, placed before the method's own. */
  function CommonParameters(configuration: Configuration): seq<QueryItem> {
    [ QueryItem("format", "json"),
      QueryItem("nojsoncallback", "1"),
      QueryItem("api_key", configuration.key) ]
  }

  /**
   * The full query of a request: the common items, then the method's own
   * items, unchanged and in order.
   */
  function MakeParameters(configuration: Configuration, parameters: seq<QueryItem>): (items: seq<QueryItem>)
    ensures |items| == |parameters| + 3
    ensures items[0] == QueryItem("format", "json")
    ensures items[1] == QueryItem("nojsoncallback", "1")
    ensures items[2] == QueryItem("api_key", configuration.key)
    ensures items[3..] == parameters
    ensures forall name :: Values(items, name) == Values(CommonParameters(configuration), name) + Values(parameters, name)
  {
    ValuesAppendAll(CommonParameters(configuration), parameters);
    CommonParameters(configuration) + parameters
  }

  /** The query of a `flickr.photos.search` request. */
  function PhotosParameters(configuration: Configuration, request: FlickrPhotosRequest): seq<QueryItem> {
    MakeParameters(configuration, [
      QueryItem("method", PhotosSearchMethod),
      QueryItem("tags", Join(request.tags, ",")),
      QueryItem("page", IntToDecimal(request.page))
    ])
  }

  /** The query of a `flickr.photos.getSizes` request. */
  function PhotoSizesParameters(configuration: Configuration, request: FlickrPhotoSizesRequest): seq<QueryItem> {
    MakeParameters(configuration, [
      QueryItem("method", PhotoSizesMethod),
      QueryItem("photo_id", request.id)
    ])
  }

  datatype FlickrRESTService = FlickrRESTService(configuration: Configuration, transport: RESTTransport) {

    /** `getPhotos(request:)`: one GET of the root path with the search query. */
    function GetPhotos(request: FlickrPhotosRequest): Result<FlickrPhotosResponse> {
      transport.getPhotos("", PhotosParameters(configuration, request))
    }

    /** `getPhotoSizes(request:)`: one GET of the root path with the sizes query. */
    function GetPhotoSizes(request: FlickrPhotoSizesRequest): Result<FlickrPhotoSizesResponse> {
      transport.getPhotoSizes("", PhotoSizesParameters(configuration, request))
    }
  }

  // ---------------------------------------------------------------------
  // The query of each method
  // ---------------------------------------------------------------------

  /** A search query written out: the common items, the method, the joined tags, the decimal page. */
  lemma PhotosParametersAre(configuration: Configuration, request: FlickrPhotosRequest)
    ensures PhotosParameters(configuration, request) ==
      [ QueryItem("format", "json"), QueryItem("nojsoncallback", "1"),
        QueryItem("api_key", configuration.key),
        QueryItem("method", PhotosSearchMethod),
        QueryItem("tags", Join(request.tags, ",")),
        QueryItem("page", IntToDecimal(request.page)) ]
  {
  }

  /** A search query's items named `name`, one item at a time. */
  lemma PhotosParametersValuesOf(configuration: Configuration, request: FlickrPhotosRequest, name: string)
    ensures Values(PhotosParameters(configuration, request), name)
         == (if name == "format" then ["json"] else [])
          + (if name == "nojsoncallback" then ["1"] else [])
          + (if name == "api_key" then [configuration.key] else [])
          + (if name == "method" then [PhotosSearchMethod] else [])
          + (if name == "tags" then [Join(request.tags, ",")] else [])
          + (if name == "page" then [IntToDecimal(request.page)] else [])
  {
    var common := CommonParameters(configuration);
    var own := [
      QueryItem("method", PhotosSearchMethod),
      QueryItem("tags", Join(request.tags, ",")),
      QueryItem("page", IntToDecimal(request.page))];
    ValuesOfThree(common[0], common[1], common[2], name);
    ValuesOfThree(own[0], own[1], own[2], name);
    ValuesOfOne(common[0], name);
    ValuesOfOne(common[1], name);
    ValuesOfOne(common[2], name);
    ValuesOfOne(own[0], name);
    ValuesOfOne(own[1], name);
    ValuesOfOne(own[2], name);
  }

  /**
   * Each name a search query uses is carried once, with the method name,
   * the configured key, the joined tags and the decimal page, whatever the
   * request holds.
   */
  lemma PhotosParametersValues(configuration: Configuration, request: FlickrPhotosRequest)
    ensures var items := PhotosParameters(configuration, request);
      && |items| == 6
      && Values(items, "format") == ["json"]
      && Values(items, "nojsoncallback") == ["1"]
      && Values(items, "api_key") == [configuration.key]
      && Values(items, "method") == [PhotosSearchMethod]
      && Values(items, "tags") == [Join(request.tags, ",")]
      && Values(items, "page") == [IntToDecimal(request.page)]
  {
    PhotosParametersValuesOf(configuration, request, "format");
    PhotosParametersValuesOf(configuration, request, "nojsoncallback");
    PhotosParametersValuesOf(configuration, request, "api_key");
    PhotosParametersValuesOf(configuration, request, "method");
    PhotosParametersValuesOf(configuration, request, "tags");
    PhotosParametersValuesOf(configuration, request, "page");
  }

  /** A sizes query's items named `name`, one item at a time. */
  lemma PhotoSizesParametersValuesOf(configuration: Configuration, request: FlickrPhotoSizesRequest, name: string)
    ensures Values(PhotoSizesParameters(configuration, request), name)
         == (if name == "format" then ["json"] else [])
          + (if name == "nojsoncallback" then ["1"] else [])
          + (if name == "api_key" then [configuration.key] else [])
          + (if name == "method" then [PhotoSizesMethod] else [])
          + (if name == "photo_id" then [request.id] else [])
  {
    var common := CommonParameters(configuration);
    var own := [QueryItem("method", PhotoSizesMethod), QueryItem("photo_id", request.id)];
    ValuesOfThree(common[0], common[1], common[2], name);
    assert own == [own[0]] + [own[1]];
    ValuesAppend([own[0]], [own[1]], name);
    ValuesOfOne(common[0], name);
    ValuesOfOne(common[1], name);
    ValuesOfOne(common[2], name);
    ValuesOfOne(own[0], name);
    ValuesOfOne(own[1], name);
  }

  /**
   * A sizes query is exactly the common items followed by the method name
   * and the photo id, and each of its names is carried once.
   */
  lemma PhotoSizesParametersValues(configuration: Configuration, request: FlickrPhotoSizesRequest)
    ensures var items := PhotoSizesParameters(configuration, request);
      && items == [ QueryItem("format", "json"), QueryItem("nojsoncallback", "1"),
                    QueryItem("api_key", configuration.key),
                    QueryItem("method", PhotoSizesMethod), QueryItem("photo_id", request.id) ]
      && Values(items, "format") == ["json"]
      && Values(items, "api_key") == [configuration.key]
      && Values(items, "method") == [PhotoSizesMethod]
      && Values(items, "photo_id") == [request.id]
  {
    PhotoSizesParametersValuesOf(configuration, request, "format");
    PhotoSizesParametersValuesOf(configuration, request, "api_key");
    PhotoSizesParametersValuesOf(configuration, request, "method");
    PhotoSizesParametersValuesOf(configuration, request, "photo_id");
  }

  /** The key sent is the configured key: two requests of any kind carry the same one. */
  lemma ApiKeyIsConfigured(configuration: Configuration, photos: FlickrPhotosRequest, sizes: FlickrPhotoSizesRequest)
    ensures Values(PhotosParameters(configuration, photos), "api_key") == [configuration.key]
    ensures Values(PhotoSizesParameters(configuration, sizes), "api_key") == [configuration.key]
  {
    PhotosParametersValues(configuration, photos);
    PhotoSizesParametersValues(configuration, sizes);
  }

  /**
   * The tags travel as one item whose value splits back into the request's
   * tags, provided there is at least one tag and none contains a comma.
   */
  lemma TagsRecoverable(configuration: Configuration, request: FlickrPhotosRequest)
    requires |request.tags| >= 1
    requires forall i :: 0 <= i < |request.tags| ==> ',' !in request.tags[i]
    ensures exists v :: Values(PhotosParameters(configuration, request), "tags") == [v] && Split(v, ',') == request.tags
  {
    PhotosParametersValues(configuration, request);
    SplitJoin(request.tags, ',');
    assert [','] == ",";
  }

  /** The page travels as one item whose value reads back as the request's page. */
  lemma PageRecoverable(configuration: Configuration, request: FlickrPhotosRequest)
    ensures exists v :: Values(PhotosParameters(configuration, request), "page") == [v] && DecimalToInt(v) == Some(request.page)
  {
    PhotosParametersValues(configuration, request);
    IntDecimalRoundTrip(request.page);
  }

  // ---------------------------------------------------------------------
  // Delegation to the transport
  // ---------------------------------------------------------------------

  /** Only what the transport does for the root path matters to getPhotos. */
  lemma GetPhotosUsesRootPath(configuration: Configuration, t: RESTTransport, u: RESTTransport, request: FlickrPhotosRequest)
    requires forall ps :: t.getPhotos("", ps) == u.getPhotos("", ps)
    ensures FlickrRESTService(configuration, t).GetPhotos(request) == FlickrRESTService(configuration, u).GetPhotos(request)
  {
  }

  /** Only what the transport does for the root path matters to getPhotoSizes. */
  lemma GetPhotoSizesUsesRootPath(configuration: Configuration, t: RESTTransport, u: RESTTransport, request: FlickrPhotoSizesRequest)
    requires forall ps :: t.getPhotoSizes("", ps) == u.getPhotoSizes("", ps)
    ensures FlickrRESTService(configuration, t).GetPhotoSizes(request) == FlickrRESTService(configuration, u).GetPhotoSizes(request)
  {
  }

  /**
   * getPhotos answers what the transport answers for the root path and the
   * search query, whatever the transport makes of that query.
   */
  lemma GetPhotosAsksTransport(service: FlickrRESTService, request: FlickrPhotosRequest)
    ensures service.GetPhotos(request) == service.transport.getPhotos("", PhotosParameters(service.configuration, request))
  {
  }

  /**
   * getPhotoSizes answers what the transport answers for the root path and
   * the sizes query, whatever the transport makes of that query.
   */
  lemma GetPhotoSizesAsksTransport(service: FlickrRESTService, request: FlickrPhotoSizesRequest)
    ensures service.GetPhotoSizes(request) == service.transport.getPhotoSizes("", PhotoSizesParameters(service.configuration, request))
  {
  }

  /** A transport that answers every query with `x` makes getPhotos answer `x`, success or failure. */
  lemma GetPhotosReturnsTransportResult(service: FlickrRESTService, request: FlickrPhotosRequest, x: Result<FlickrPhotosResponse>)
    requires forall ps :: service.transport.getPhotos("", ps) == x
    ensures service.GetPhotos(request) == x
  {
  }

  /** A transport that answers every query with `x` makes getPhotoSizes answer `x`, success or failure. */
  lemma GetPhotoSizesReturnsTransportResult(service: FlickrRESTService, request: FlickrPhotoSizesRequest, x: Result<FlickrPhotoSizesResponse>)
    requires forall ps :: service.transport.getPhotoSizes("", ps) == x
    ensures service.GetPhotoSizes(request) == x
  {
  }

  /** A failing transport makes getPhotos fail; there is no fallback success. */
  lemma GetPhotosFailsWhenTransportFails(service: FlickrRESTService, request: FlickrPhotosRequest)
    requires forall path, ps :: service.transport.getPhotos(path, ps).Failure?
    ensures service.GetPhotos(request).Failure?
  {
  }

  /** A failing transport makes getPhotoSizes fail; there is no fallback success. */
  lemma GetPhotoSizesFailsWhenTransportFails(service: FlickrRESTService, request: FlickrPhotoSizesRequest)
    requires forall path, ps :: service.transport.getPhotoSizes(path, ps).Failure?
    ensures service.GetPhotoSizes(request).Failure?
  {
  }

  // ---------------------------------------------------------------------
  // The service's test scenarios, with a transport that checks the query
  // ---------------------------------------------------------------------

  /**
   * A transport that succeeds with `expected` only when the query carries
   * the search method, the key, page 2 and the json format: getPhotos on
   * page 2 succeeds with `expected`.
   */
  lemma GetPhotosOnPageTwo(expected: FlickrPhotosResponse)
    ensures var t := RESTTransport(
        (path, ps) =>
          if QueryItem("method", "flickr.photos.search") in ps && QueryItem("api_key", "**********") in ps
             && QueryItem("page", "2") in ps && QueryItem("format", "json") in ps
          then Success(expected) else Failure(NetworkError(-999)),
        (path, ps) => Failure(NetworkError(-999)));
      FlickrRESTService(Configuration("**********"), t).GetPhotos(FlickrPhotosRequest(2)) == Success(expected)
  {
    var items := PhotosParameters(Configuration("**********"), FlickrPhotosRequest(2));
    PhotosParametersValues(Configuration("**********"), FlickrPhotosRequest(2));
    assert IntToDecimal(2) == "2";
    ValuesContains(items, "method", "flickr.photos.search");
    ValuesContains(items, "api_key", "**********");
    ValuesContains(items, "page", "2");
    ValuesContains(items, "format", "json");
  }

  /** One tag is sent verbatim; two tags are sent joined by a comma. */
  lemma TagsOfTheTests(configuration: Configuration, page: int)
    ensures QueryItem("tags", "kittens") in PhotosParameters(configuration, FlickrPhotosRequest(page, ["kittens"]))
    ensures QueryItem("tags", "kittens,puppies") in PhotosParameters(configuration, FlickrPhotosRequest(page, ["kittens", "puppies"]))
  {
    var one := FlickrPhotosRequest(page, ["kittens"]);
    var two := FlickrPhotosRequest(page, ["kittens", "puppies"]);
    PhotosParametersValues(configuration, one);
    PhotosParametersValues(configuration, two);
    assert Join(["kittens", "puppies"], ",") == "kittens,puppies";
    ValuesContains(PhotosParameters(configuration, one), "tags", "kittens");
    ValuesContains(PhotosParameters(configuration, two), "tags", "kittens,puppies");
  }

  /** A request without tags still sends a `tags` item, with the empty value. */
  lemma NoTagsSendsEmptyTags(configuration: Configuration, page: int)
    ensures Values(PhotosParameters(configuration, FlickrPhotosRequest(page)), "tags") == [""]
    ensures QueryItem("tags", "") in PhotosParameters(configuration, FlickrPhotosRequest(page))
  {
    PhotosParametersValues(configuration, FlickrPhotosRequest(page));
    JoinEmptyIsJoinOfEmptyPart(",");
    ValuesContains(PhotosParameters(configuration, FlickrPhotosRequest(page)), "tags", "");
  }

  /**
   * Entries labelled "Large" and "Large Square" decode to `Large` and
   * `LargeSquare`, with their dimensions and URLs kept.
   */
  lemma SizesOfPhotoThreeDecode()
    ensures DecodeSizes([
        SizeFields(Some("Large"), 27, 72, "https://live.staticflickr.com/l", "https://www.flickr.com/l"),
        SizeFields(Some("Large Square"), 95, 59, "https://live.staticflickr.com/q", "https://www.flickr.com/q")])
      == Success([
        Size(Some(Large), 27, 72, "https://live.staticflickr.com/l", "https://www.flickr.com/l"),
        Size(Some(LargeSquare), 95, 59, "https://live.staticflickr.com/q", "https://www.flickr.com/q")])
  {
    var fs := [
        SizeFields(Some("Large"), 27, 72, "https://live.staticflickr.com/l", "https://www.flickr.com/l"),
        SizeFields(Some("Large Square"), 95, 59, "https://live.staticflickr.com/q", "https://www.flickr.com/q")];
    var large := Size(Some(Large), 27, 72, "https://live.staticflickr.com/l", "https://www.flickr.com/l");
    var square := Size(Some(LargeSquare), 95, 59, "https://live.staticflickr.com/q", "https://www.flickr.com/q");
    assert LabelFromRaw("Large") == Some(Large);
    assert LabelFromRaw("Large Square") == Some(LargeSquare);
    assert DecodeSize(fs[0]) == Success(large);
    assert DecodeSize(fs[1]) == Success(square);
    var tail := fs[1..];
    assert tail[0] == fs[1] && tail[1..] == [];
    assert DecodeSizes(tail[1..]) == Success([]);
    assert [square] + [] == [square];
    assert DecodeSizes(tail) == Success([square]);
    assert [large] + [square] == [large, square];
  }

  /**
   * A transport that succeeds with `expected` only when the query carries
   * the sizes method, the key, the json format and photo id 3: getPhotoSizes
   * of photo 3 succeeds with `expected`.
   */
  lemma GetPhotoSizesOfPhotoThree(expected: FlickrPhotoSizesResponse)
    ensures var t := RESTTransport(
        (path, ps) => Failure(NetworkError(-999)),
        (path, ps) =>
          if QueryItem("method", "flickr.photos.getSizes") in ps && QueryItem("api_key", "**********") in ps
             && QueryItem("format", "json") in ps && QueryItem("photo_id", "3") in ps
          then Success(expected) else Failure(NetworkError(-999)));
      FlickrRESTService(Configuration("**********"), t).GetPhotoSizes(FlickrPhotoSizesRequest("3")) == Success(expected)
  {
    var items := PhotoSizesParameters(Configuration("**********"), FlickrPhotoSizesRequest("3"));
    PhotoSizesParametersValues(Configuration("**********"), FlickrPhotoSizesRequest("3"));
    ValuesContains(items, "method", "flickr.photos.getSizes");
    ValuesContains(items, "api_key", "**********");
    ValuesContains(items, "format", "json");
    ValuesContains(items, "photo_id", "3");
  }

}
