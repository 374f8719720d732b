/** `vidu_mcp/util.py`: turning the image references a tool receives into what
    the upstream API accepts. Remote URLs and data URIs pass through; a local
    path becomes a base64 JPEG data URI of the file's bytes. The file system is
    a map from path to contents. */
module ImageInput {
  import opened Wrappers
  import opened Strings
  import opened JsonValues
  import opened Errors
  import Base64

  /** The files visible to the process: `os.path.exists` is membership and
      `open(path, "rb").read()` is the stored contents. */
  type FileSystem = map<string, seq<Base64.byte>>

  const HttpPrefix: string := "http://"
  const HttpsPrefix: string := "https://"
  const DataPrefix: string := "data:"
  /** What a local file is turned into, before its base64 text. */
  const JpegDataUriPrefix: string := "data:image/jpeg;base64,"

  /** The case-sensitive `startswith(("http://", "https://", "data:"))` test. */
  predicate IsPassThrough(s: string) {
    StartsWith(s, HttpPrefix) || StartsWith(s, HttpsPrefix) || StartsWith(s, DataPrefix)
  }

  /** `del_input_image`: a string that already names a remote URL or a data URI
      is returned as it is; any other string is a local path that must exist and
      is replaced by the data URI of its bytes; anything that is not a string is
      refused. Every refusal is a `ViduRequestError`. */
  function NormalizeImage(fs: FileSystem, image: Json): (r: Result<string, Failure>)
    ensures r.Success? ==> IsPassThrough(r.value)
    ensures image.String? && IsPassThrough(image.s) ==> r == Success(image.s)
    ensures !image.String? ==>
      r == Failure(RequestFailure("image must be a string, got <class '" + TypeName(image) + "'>"))
    ensures image.String? && !IsPassThrough(image.s) && image.s !in fs ==>
      r == Failure(RequestFailure("image does not exist: " + image.s))
  {
    match image
    case String(s) =>
      if IsPassThrough(s) then Success(s)
      else if s !in fs then Failure(RequestFailure("image does not exist: " + s))
      else
        var encoded := Base64.Encode(fs[s]);
        assert (JpegDataUriPrefix + encoded)[..|DataPrefix|] == DataPrefix;
        Success(JpegDataUriPrefix + encoded)
    case _ =>
      Failure(RequestFailure("image must be a string, got <class '" + TypeName(image) + "'>"))
  }

  /** A local file becomes a JPEG data URI whose base64 part decodes to exactly
      the file's bytes and has four characters per started group of three bytes. */
  lemma NormalizeLocalFile(fs: FileSystem, path: string)
    requires !IsPassThrough(path) && path in fs
    ensures var r := NormalizeImage(fs, String(path));
      && r.Success?
      && StartsWith(r.value, JpegDataUriPrefix)
      && Base64.Decode(r.value[|JpegDataUriPrefix|..]) == Some(fs[path])
      && |r.value| == |JpegDataUriPrefix| + 4 * ((|fs[path]| + 2) / 3)
  {
    var encoded := Base64.Encode(fs[path]);
    Base64.DecodeEncode(fs[path]);
    assert (JpegDataUriPrefix + encoded)[..|JpegDataUriPrefix|] == JpegDataUriPrefix;
    assert (JpegDataUriPrefix + encoded)[|JpegDataUriPrefix|..] == encoded;
  }

  /** Normalising is idempotent: a normalised reference normalises to itself. */
  lemma NormalizeIdempotent(fs: FileSystem, image: Json)
    requires NormalizeImage(fs, image).Success?
    ensures NormalizeImage(fs, String(NormalizeImage(fs, image).value)) == NormalizeImage(fs, image)
  {
  }

  /** The only file consulted is the one the reference names: two file systems
      that agree on that path give the same outcome, and a non-string or an
      already remote reference consults no file at all. */
  lemma NormalizeReadsOnlyItsPath(fs1: FileSystem, fs2: FileSystem, image: Json)
    requires image.String? && !IsPassThrough(image.s) ==>
      (image.s in fs1 <==> image.s in fs2) && (image.s in fs1 ==> fs1[image.s] == fs2[image.s])
    ensures NormalizeImage(fs1, image) == NormalizeImage(fs2, image)
  {
  }

  /** The prefix test is case-sensitive: a missing path whose first character is
      not a lower-case `h` or `d` (such as `HTTP://...` or `Data:...`) is a
      missing local file, not a remote reference. */
  lemma PrefixTestIsCaseSensitive(fs: FileSystem, s: string)
    requires |s| > 0 && s[0] != 'h' && s[0] != 'd' && s !in fs
    ensures NormalizeImage(fs, String(s)) == Failure(RequestFailure("image does not exist: " + s))
  {
    assert !StartsWith(s, HttpPrefix) && !StartsWith(s, HttpsPrefix) && !StartsWith(s, DataPrefix) by {
      assert HttpPrefix[0] == 'h' && HttpsPrefix[0] == 'h' && DataPrefix[0] == 'd';
    }
  }

  /** `del_input_images`: every element normalised in order, stopping at the
      first element that fails, whose error is the result. */
  function NormalizeImages(fs: FileSystem, images: seq<Json>): Result<seq<string>, Failure>
    decreases |images|
  {
    if |images| == 0 then Success([])
    else
      match NormalizeImage(fs, images[0])
      case Failure(e) => Failure(e)
      case Success(first) =>
        match NormalizeImages(fs, images[1..])
        case Failure(e) => Failure(e)
        case Success(rest) => Success([first] + rest)
  }

  /** The list succeeds exactly when every element does, and then it is the
      elements' normalisations, in the same order. */
  lemma {:induction false} NormalizeImagesSuccess(fs: FileSystem, images: seq<Json>)
    ensures NormalizeImages(fs, images).Success?
        <==> forall i :: 0 <= i < |images| ==> NormalizeImage(fs, images[i]).Success?
    ensures NormalizeImages(fs, images).Success? ==>
      && |NormalizeImages(fs, images).value| == |images|
      && forall i :: 0 <= i < |images| ==>
           NormalizeImage(fs, images[i]) == Success(NormalizeImages(fs, images).value[i])
    decreases |images|
  {
    if |images| > 0 {
      NormalizeImagesSuccess(fs, images[1..]);
      assert forall i :: 1 <= i < |images| ==> images[i] == images[1..][i - 1];
    }
  }

  /** A failing list fails with the error of its first failing element. */
  lemma {:induction false} NormalizeImagesFirstFailure(fs: FileSystem, images: seq<Json>, j: nat)
    requires j < |images|
    requires forall i :: 0 <= i < j ==> NormalizeImage(fs, images[i]).Success?
    requires NormalizeImage(fs, images[j]).Failure?
    ensures NormalizeImages(fs, images) == Failure(NormalizeImage(fs, images[j]).error)
    decreases j
  {
    if j > 0 {
      assert NormalizeImage(fs, images[0]).Success?;
      assert forall i :: 0 <= i < j - 1 ==> images[1..][i] == images[i + 1];
      NormalizeImagesFirstFailure(fs, images[1..], j - 1);
    }
  }

  /** Fail-fast: once a list fails, whatever follows it is never looked at. */
  lemma {:induction false} NormalizeImagesFailFast(fs: FileSystem, images: seq<Json>, later: seq<Json>)
    requires NormalizeImages(fs, images).Failure?
    ensures NormalizeImages(fs, images + later) == NormalizeImages(fs, images)
    decreases |images|
  {
    var all := images + later;
    assert all[0] == images[0];
    match NormalizeImage(fs, images[0])
    case Failure(_) =>
    case Success(_) =>
      assert all[1..] == images[1..] + later;
      NormalizeImagesFailFast(fs, images[1..], later);
  }
}
