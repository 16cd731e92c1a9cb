/**
 * The request and response values of the Flickr web service, and the
 * decoding of a photo size's label into the closed `Label` enumeration.
 */
module Protocols {

  import opened Wrappers
  import opened Transport

  /** The caller-facing error shape. No operation of the service produces one. */
  datatype FlickrError = FlickrError(code: int, message: string)

  /**
   * Criteria for `flickr.photos.search`: the page to fetch and the tags a
   * photo must carry one of. `tags` defaults to the empty list; `page` has
   * no default here.
   */
  datatype FlickrPhotosRequest = FlickrPhotosRequest(page: int, tags: seq<string> := [])

  /** A request built without tags asks for no tags. */
  lemma PhotosRequestDefaultTags(page: int)
    ensures FlickrPhotosRequest(page).tags == []
    ensures FlickrPhotosRequest(page).page == page
  {
  }

  /** The photo whose sizes `flickr.photos.getSizes` returns. */
  datatype FlickrPhotoSizesRequest = FlickrPhotoSizesRequest(id: string)

  datatype Photo = Photo(id: string)

  datatype Photos = Photos(page: int, pages: int, perpage: int, photo: seq<Photo>)

  /** The envelope of a `flickr.photos.search` response. */
  datatype FlickrPhotosResponse = FlickrPhotosResponse(photos: Photos)

  /** The size names the service recognises. */
  datatype Label = LargeSquare | Large {

    /** The raw value the enumeration declares for each case. */
    function ToRaw(): string
    {
      match this
      case LargeSquare => "Large Square"
      case Large => "Large"
    }
  }

  /** `Label(rawValue:)`: the case whose raw value is `raw`, if there is one. */
  function LabelFromRaw(raw: string): (l: Option<Label>)
    ensures l.Some? <==> raw == "Large Square" || raw == "Large"
    ensures l.Some? ==> l.value.ToRaw() == raw
  {
    if raw == "Large Square" then Some(LargeSquare)
    else if raw == "Large" then Some(Large)
    else None
  }

  /** Each case's raw value is the string the enumeration declares for it. */
  lemma LabelRawValues()
    ensures LargeSquare.ToRaw() == "Large Square"
    ensures Large.ToRaw() == "Large"
  {
  }

  /** No two cases share a raw value. */
  lemma LabelRawInjective(a: Label, b: Label)
    requires a.ToRaw() == b.ToRaw()
    ensures a == b
  {
  }

  /** Parsing a case's raw value gives that case back. */
  lemma LabelRoundTrip(l: Label)
    ensures LabelFromRaw(l.ToRaw()) == Some(l)
  {
  }

  /** One available size of a photo; `source` and `url` are URLs, kept as text. */
  datatype Size = Size(sizeLabel: Option<Label>, width: int, height: int, source: string, url: string)

  datatype Sizes = Sizes(size: seq<Size>)

  /** The envelope of a `flickr.photos.getSizes` response. */
  datatype FlickrPhotoSizesResponse = FlickrPhotoSizesResponse(sizes: Sizes)

  /**
   * A size entry as read from the response body, before its label is
   * converted: the label is None when the key is missing or null.
   */
  datatype SizeFields = SizeFields(sizeLabel: Option<string>, width: int, height: int, source: string, url: string)

  /** A label decodes when it is absent or is the raw value of a case. */
  predicate LabelDecodes(raw: Option<string>) {
    raw.None? || LabelFromRaw(raw.value).Some?
  }

  /**
   * Decoding one size entry. An absent label decodes to no label; a present
   * label must be a raw value of `Label`, otherwise the entry, and with it
   * the whole response, fails to decode.
   */
  function DecodeSize(f: SizeFields): (r: Result<Size>)
    ensures r.Success? <==> LabelDecodes(f.sizeLabel)
    ensures r.Success? ==>
      && r.body.width == f.width && r.body.height == f.height
      && r.body.source == f.source && r.body.url == f.url
      && (r.body.sizeLabel.None? <==> f.sizeLabel.None?)
      && (r.body.sizeLabel.Some? ==> r.body.sizeLabel.value.ToRaw() == f.sizeLabel.value)
  {
    match f.sizeLabel
    case None => Success(Size(None, f.width, f.height, f.source, f.url))
    case Some(raw) =>
      match LabelFromRaw(raw)
      case Some(l) => Success(Size(Some(l), f.width, f.height, f.source, f.url))
      case None => Failure(DecodingError("Cannot initialize Label from invalid String value " + raw))
  }

  /**
   * Decoding the `size` array: all entries or a failure, the entries kept
   * in order.
   */
  function DecodeSizes(fs: seq<SizeFields>): (r: Result<seq<Size>>)
    ensures r.Success? <==> forall i :: 0 <= i < |fs| ==> LabelDecodes(fs[i].sizeLabel)
    ensures r.Success? ==> |r.body| == |fs|
    ensures r.Success? ==> forall i :: 0 <= i < |fs| ==> DecodeSize(fs[i]) == Success(r.body[i])
  {
    if fs == [] then Success([])
    else
      match DecodeSize(fs[0])
      case Failure(e) => Failure(e)
      case Success(s) =>
        match DecodeSizes(fs[1..])
        case Failure(e) => Failure(e)
        case Success(rest) => Success([s] + rest)
  }

  /**
   * A label that is not a raw value of `Label` makes the entry fail to
   * decode; it does not decode to an absent label.
   */
  lemma UnknownLabelFailsDecode(width: int, height: int, source: string, url: string)
    ensures DecodeSize(SizeFields(Some("Medium"), width, height, source, url)).Failure?
    ensures DecodeSize(SizeFields(None, width, height, source, url)) == Success(Size(None, width, height, source, url))
  {
    assert "Medium" != "Large" && "Medium" != "Large Square";
  }

}
