/**
 * The naming rules of the image uploader: the content type an image is sent
 * with, chosen from its final extension in lower case, and the public address
 * reported for an uploaded file. Walking the image folder and the transfer
 * itself are not part of this model.
 */
module Uploader {
  import opened Wrappers
  import opened PyText

  const Png := "image/png"
  const Jpeg := "image/jpeg"
  const OctetStream := "application/octet-stream"

  /** The content type for a file name, chosen by its final extension in lower case. */
  function ContentType(filename: string): (t: string)
    ensures t == Png || t == Jpeg || t == OctetStream
  {
    var ext := Lower(Extension(filename));
    if ext == ".png" then Png
    else if ext == ".jpg" || ext == ".jpeg" then Jpeg
    else OctetStream
  }

  /** An environment value as an f-string prints it: an unset variable prints as "None". */
  function Shown(v: Option<string>): string
  {
    if v.None? then "None" else v.value
  }

  /** The host part of the reported address, with the '/' that ends it. */
  function Host(bucket: Option<string>, region: Option<string>): string
  {
    Shown(bucket) + ".s3." + Shown(region) + ".amazonaws.com/"
  }

  /** The public address reported for an uploaded file. */
  function ObjectUrl(bucket: Option<string>, region: Option<string>, filename: string): (u: string)
    ensures StartsWith(u, "https://") && EndsWith(u, filename)
  {
    Affixes("https://", Host(bucket, region), filename);
    "https://" + Host(bucket, region) + filename
  }

  // ---------------------------------------------------------------------------
  // Properties

  /** Upper and lower case in the file name do not change its content type. */
  lemma ContentTypeIgnoresCase(filename: string)
    ensures ContentType(Lower(filename)) == ContentType(filename)
  {
    SplitExtLower(filename);
    LowerIdempotent(Extension(filename));
  }

  /** Each content type is chosen on exactly its extensions, compared in lower case; everything else is sent as bytes. */
  lemma ContentTypeCases(filename: string)
    ensures var ext := Lower(Extension(filename));
      (ContentType(filename) == Png <==> ext == ".png")
      && (ContentType(filename) == Jpeg <==> ext == ".jpg" || ext == ".jpeg")
      && (ContentType(filename) == OctetStream <==> ext != ".png" && ext != ".jpg" && ext != ".jpeg")
  {
  }

  /** Only the final extension decides: two names ending in the same extension get the same type, whatever precedes it. */
  lemma ContentTypeByFinalExtension(root1: string, root2: string, ext: string)
    requires '/' !in root1 && exists k :: 0 <= k < |root1| && root1[k] != '.'
    requires '/' !in root2 && exists k :: 0 <= k < |root2| && root2[k] != '.'
    requires '.' !in ext && '/' !in ext
    ensures ContentType(root1 + "." + ext) == ContentType(root2 + "." + ext)
    ensures Extension(root1 + "." + ext) == "." + ext
  {
    SplitExtOfAppended(root1, ext);
    SplitExtOfAppended(root2, ext);
  }

  /** Upper-case extensions count: "X.PNG" is a PNG image. */
  lemma UpperCaseExtension()
    ensures ContentType("X.PNG") == Png
  {
    var ext := Extension("X.PNG");
    assert "X"[0] != '.';
    SplitExtOfAppended("X", "PNG");
    assert "X" + "." + "PNG" == "X.PNG";
    assert ext == ".PNG";
    assert Lower(ext) == ".png";
  }

  /** Only the final extension counts: "a.png.jpg" is a JPEG image. */
  lemma DoubleExtension()
    ensures ContentType("a.png.jpg") == Jpeg
  {
    var ext := Extension("a.png.jpg");
    assert "a.png"[0] != '.';
    SplitExtOfAppended("a.png", "jpg");
    assert "a.png" + "." + "jpg" == "a.png.jpg";
    assert ext == ".jpg";
    assert Lower(ext) == ".jpg";
  }

  /** The hidden file ".png" has no extension, so it is sent as bytes. */
  lemma HiddenFileHasNoExtension()
    ensures ContentType(".png") == OctetStream
  {
    var p := ".png";
    RFindAbsent(p, '/');
    RFindIsLast(p, '.', 0);
    assert !HasNonDot(p, 0, 0);
    assert Extension(p) == [];
    assert Lower([]) == [];
  }

  /** The reported address is an https address whose last path component is the file name. */
  lemma ObjectUrlShape(bucket: Option<string>, region: Option<string>, filename: string)
    requires '/' !in filename
    ensures var u := ObjectUrl(bucket, region, filename);
      StartsWith(u, "https://") && EndsWith(u, filename) && Basename(u) == filename
  {
    var h := Host(bucket, region);
    Affixes("https://", h, filename);
    assert h[|h| - 1] == '/';
    assert "https://" + h == ("https://" + h[..|h| - 1]) + "/";
    BasenameOfJoined("https://" + h[..|h| - 1], filename);
  }

  /** An unset bucket prints as "None" in the address. */
  lemma UnsetSettingsShowNone(region: Option<string>, filename: string)
    ensures StartsWith(ObjectUrl(None, region, filename), "https://None.s3.")
  {
    var u := ObjectUrl(None, region, filename);
    var h := Host(None, region);
    assert h[..8] == "None.s3.";
    assert u[..16] == "https://" + h[..8];
  }
}
