/**
 * Image input of src/image.js: recognising PNG, JPEG and TIFF data by their
 * leading bytes, telling URLs from file paths, validating a buffer before it is
 * sent and choosing the JSON form the service receives.
 *
 * Reading files, downloading, URL parsing and base64 encoding are not part of
 * this model: a `Location` records the text a URL would be parsed from (or the
 * path a file URL would be built from), and the JSON form records the bytes
 * whose base64 text it would carry.
 */
module Images {
  import opened Wrappers

  type Byte = b: int | 0 <= b < 0x100
  type Bytes = seq<Byte>

  /** The PNG signature (section 5.2 of the PNG specification, ISO/IEC 15948). */
  const PngSignature: Bytes := [0x89, 0x50, 0x4E, 0x47, 0x0D, 0x0A, 0x1A, 0x0A]
  /** The JPEG SOI marker FF D8 and the first byte of the next marker (ITU-T T.81, Annex B). */
  const JpegSignature: Bytes := [0xFF, 0xD8, 0xFF]
  /** The TIFF 6.0 image file header (section 2), little-endian `II*\0` and big-endian `MM\0*`. */
  const TiffLittleEndian: Bytes := [0x49, 0x49, 0x2A, 0x00]
  const TiffBigEndian: Bytes := [0x4D, 0x4D, 0x00, 0x2A]

  /** The exclusive upper bound on a buffer's length that `validate` accepts (20 KiB). */
  const MaxBufferLength: nat := 20 * 1024

  function Min(a: nat, b: nat): nat {
    if a <= b then a else b
  }

  /**
   * `check(buffer, bytes, offset)`: the slice of `buffer` from `offset` (both
   * ends clamped to the buffer's length, as `Buffer#slice` does) compares equal to `bytes`.
   */
  function Check(buffer: Bytes, bytes: Bytes, offset: nat := 0): (r: bool)
    ensures r <==> bytes == [] || (offset + |bytes| <= |buffer| && buffer[offset..offset + |bytes|] == bytes)
  {
    var start := Min(offset, |buffer|);
    var end := Min(offset + |bytes|, |buffer|);
    buffer[start..end] == bytes
  }

  function IsPng(buffer: Bytes): (r: bool)
    ensures r <==> PngSignature <= buffer
  {
    Check(buffer, PngSignature)
  }

  function IsJpeg(buffer: Bytes): (r: bool)
    ensures r <==> JpegSignature <= buffer
  {
    Check(buffer, JpegSignature)
  }

  function IsTiff(buffer: Bytes): (r: bool)
    ensures r <==> TiffLittleEndian <= buffer || TiffBigEndian <= buffer
  {
    Check(buffer, TiffLittleEndian) || Check(buffer, TiffBigEndian)
  }

  /** The signatures exclude one another, so a buffer is recognised as at most one format. */
  lemma FormatsAreExclusive(buffer: Bytes)
    ensures !(IsPng(buffer) && IsJpeg(buffer))
    ensures !(IsPng(buffer) && IsTiff(buffer))
    ensures !(IsJpeg(buffer) && IsTiff(buffer))
  {
    if IsPng(buffer) {
      assert buffer[0] == PngSignature[0] == 0x89;
    } else if IsJpeg(buffer) {
      assert buffer[0] == JpegSignature[0] == 0xFF;
    }
  }

  predicate IsAsciiLetter(c: char) {
    'a' <= c <= 'z' || 'A' <= c <= 'Z'
  }

  /** The number of ASCII letters `s` starts with. */
  function LeadingLetters(s: string): (n: nat)
    ensures n <= |s|
    ensures forall i :: 0 <= i < n ==> IsAsciiLetter(s[i])
    ensures n < |s| ==> !IsAsciiLetter(s[n])
  {
    if s != [] && IsAsciiLetter(s[0]) then 1 + LeadingLetters(s[1..]) else 0
  }

  /** `s` is `k` letters (k at least one) followed by `://`. */
  ghost predicate SchemeEndsAt(s: string, k: nat) {
    && 0 < k
    && k + 3 <= |s|
    && s[k..k + 3] == "://"
    && forall i :: 0 <= i < k ==> IsAsciiLetter(s[i])
  }

  /** `PROTO.test(s)` for `PROTO = /^[a-z]+:\/\//i`. */
  function HasScheme(s: string): (r: bool)
    ensures r <==> exists k :: SchemeEndsAt(s, k)
  {
    var n := LeadingLetters(s);
    if 0 < n && n + 3 <= |s| && s[n..n + 3] == "://" then
      assert SchemeEndsAt(s, n);
      true
    else
      assert forall k: nat | SchemeEndsAt(s, k) :: k == n by {
        forall k: nat | SchemeEndsAt(s, k) ensures k == n {
          assert s[k] == ':' && !IsAsciiLetter(s[k]);
          assert n < |s| ==> !IsAsciiLetter(s[n]);
        }
      }
      false
  }

  /** Where a URL-backed image points: a URL parsed from text, or the file URL of a path. */
  datatype Location = ParsedUrl(text: string) | FileUrl(path: string)

  /** What the constructor can be given: a buffer, a URL object, or a string. */
  datatype Input = BufferInput(bytes: Bytes) | UrlInput(url: Location) | TextInput(text: string)

  /** The JSON form an image is sent in: `{base64}` of its bytes or `{imageUrl}`. */
  datatype Json = Base64Json(bytes: Bytes) | ImageUrlJson(imageUrl: Option<Location>)

  datatype ImageError = MissingBuffer | TooLarge | UnsupportedMagicNumber {
    function Message(): string {
      match this
      case MissingBuffer => "Cannot read properties of undefined (reading 'length')"
      case TooLarge => "image buffer exceeds 20 mb"
      case UnsupportedMagicNumber => "image buffer has unsupported magic number"
    }
  }

  /** What `validate` accepts: a buffer under 20 KiB that starts with one of the signatures. */
  predicate Acceptable(buffer: Option<Bytes>) {
    && buffer.Some?
    && |buffer.value| < MaxBufferLength
    && (PngSignature <= buffer.value || JpegSignature <= buffer.value
        || TiffLittleEndian <= buffer.value || TiffBigEndian <= buffer.value)
  }

  /** The buffer and URL fields the constructor fills in for an input. */
  function Classify(input: Input): (Option<Bytes>, Option<Location>) {
    match input
    case BufferInput(bytes) => (Some(bytes), None)
    case UrlInput(url) => (None, Some(url))
    case TextInput(text) => (None, Some(if HasScheme(text) then ParsedUrl(text) else FileUrl(text)))
  }

  /** The JSON form for the given fields. */
  function Serialize(buffer: Option<Bytes>, url: Option<Location>): (r: Json)
    ensures r.Base64Json? <==> buffer.Some?
    ensures buffer.Some? ==> r.bytes == buffer.value
    ensures buffer.None? ==> r.imageUrl == url
  {
    if buffer.Some? then Base64Json(buffer.value) else ImageUrlJson(url)
  }

  /**
   * A freshly built image is sent as base64 exactly when it was built from a
   * buffer; a string with a scheme is sent as that URL and any other string as
   * the file URL of that path.
   */
  lemma SerializeInput(input: Input)
    ensures var j := Serialize(Classify(input).0, Classify(input).1);
      && (input.BufferInput? <==> j.Base64Json?)
      && (input.BufferInput? ==> j.bytes == input.bytes)
      && (input.UrlInput? ==> j == ImageUrlJson(Some(input.url)))
      && (input.TextInput? && HasScheme(input.text) ==> j == ImageUrlJson(Some(ParsedUrl(input.text))))
      && (input.TextInput? && !HasScheme(input.text) ==> j == ImageUrlJson(Some(FileUrl(input.text))))
  {
  }

  /** What `Image.open` is given: an existing image or an input to build one from. */
  datatype Source = ExistingImage(image: Image) | NewInput(input: Input)

  /** The image `Image.open` works on, and whether it still has to load its bytes. */
  datatype Opening = Ready(image: Image) | MustLoad(image: Image)

  class Image {
    var buffer: Option<Bytes>
    var url: Option<Location>

    /** `new Image(input)`: a buffer is kept as the buffer, a URL or scheme string as the URL, anything else as a path. */
    constructor (input: Input)
      ensures (buffer, url) == Classify(input)
    {
      buffer, url := None, None;
      new;
      match input
      case BufferInput(bytes) => SetBuffer(bytes);
      case UrlInput(u) => url := Some(u);
      case TextInput(text) =>
        if HasScheme(text) {
          SetUrl(text);
        } else {
          SetPath(text);
        }
    }

    /** The `buffer` setter (`Buffer.from` copies; sequences are values, so the copy is implicit). */
    method SetBuffer(bytes: Bytes)
      modifies this`buffer
      ensures buffer == Some(bytes)
    {
      buffer := Some(bytes);
    }

    /** The `path` setter: the URL becomes the file URL of the path. */
    method SetPath(path: string)
      modifies this`url
      ensures url == Some(FileUrl(path))
    {
      url := Some(FileUrl(path));
    }

    /** The `url` setter. */
    method SetUrl(text: string)
      modifies this`url
      ensures url == Some(ParsedUrl(text))
    {
      url := Some(ParsedUrl(text));
    }

    /** The static `Image.open(input)` up to the point where bytes would be read or downloaded. */
    static method Open(source: Source) returns (r: Opening)
      ensures source.ExistingImage? ==> r.image == source.image
      ensures source.NewInput? ==> fresh(r.image) && (r.image.buffer, r.image.url) == Classify(source.input)
      ensures r.Ready? <==> r.image.buffer.Some?
    {
      var image: Image;
      match source {
        case ExistingImage(i) => image := i;
        case NewInput(input) => image := new Image(input);
      }
      if image.buffer.None? {
        r := MustLoad(image);
      } else {
        r := Ready(image);
      }
    }

    /** `validate()`: the image itself when acceptable, otherwise the first check that fails. */
    function Validate(): (r: Result<Image, ImageError>)
      reads this
      ensures r.Success? <==> Acceptable(buffer)
      ensures r.Success? ==> r.value == this
      ensures buffer.None? ==> r == Failure(MissingBuffer)
      ensures buffer.Some? && |buffer.value| >= MaxBufferLength ==> r == Failure(TooLarge)
      ensures buffer.Some? && |buffer.value| < MaxBufferLength && !Acceptable(buffer) ==> r == Failure(UnsupportedMagicNumber)
    {
      match buffer
      case None => Failure(MissingBuffer)
      case Some(b) =>
        if !(|b| < MaxBufferLength) then Failure(TooLarge)
        else if !(IsJpeg(b) || IsPng(b) || IsTiff(b)) then Failure(UnsupportedMagicNumber)
        else Success(this)
    }

    /** `toJSON()`: `{base64}` when the image has a buffer, `{imageUrl}` otherwise. */
    function ToJson(): (r: Json)
      reads this
      ensures r.Base64Json? <==> buffer.Some?
      ensures buffer.Some? ==> r.bytes == buffer.value
      ensures buffer.None? ==> r.imageUrl == url
    {
      Serialize(buffer, url)
    }
  }
}
