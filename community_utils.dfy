/** `upload_image` of the community app: the stored file's name and
    date-partitioned path, and the URL handed back, chosen by configuration.
    The random uuid, today's date, the settings and what the storage
    back ends answer are parameters; the stores themselves are not modelled,
    only the request made to them. */
module CommunityUtils {
  import opened Common
  import opened Text

  type Byte = b: int | 0 <= b < 256

  /** An uploaded file: its (base) name, its bytes and its content type. */
  datatype UploadedFile = UploadedFile(name: string, content: seq<Byte>, contentType: string)

  /** The date part of `datetime.now()`. */
  datatype Date = Date(year: nat, month: nat, day: nat)

  /** The settings `upload_image` reads. `customDomain` is `None` when
      `AWS_S3_CUSTOM_DOMAIN` is not defined at all. */
  datatype Settings = Settings(
    debug: bool, mediaUrl: string, bucket: string, region: string, defaultAcl: string,
    customDomain: Option<string>)

  /** How the S3 branch goes: the upload succeeds, `boto3.client(...)`
      raises before any upload is attempted, or `upload_fileobj` raises. */
  datatype S3Answer = Uploaded | ClientFailed(reason: string) | UploadFailed(reason: string)

  /** What the storage back ends answer: the name the local storage saves a
      path under, and how the S3 branch goes. */
  datatype Storage = Storage(savedName: string -> string, s3: S3Answer)

  /** The request made to a store. */
  datatype StoreRequest =
    | LocalSave(path: string, content: seq<Byte>)
    | S3Put(content: seq<Byte>, bucket: string, key: string, contentType: string, acl: string)

  /** The store request made, if any, and the URL returned or the message raised. */
  datatype UploadOutcome = UploadOutcome(request: Option<StoreRequest>, result: Result<string, string>)

  const DefaultDirectory: string := "posts"
  const UploadFailurePrefix: string := "S3 이미지 업로드 실패: "

  /** `not image_file`: no file, or a file whose name is empty. */
  predicate IsFalsy(image: Option<UploadedFile>)
  {
    image.None? || image.value.name == ""
  }

  /** `name.split(".")[-1] if "." in name else ""`: the text after the last
      dot, or nothing when the name has no dot. */
  function Extension(name: string): (ext: string)
    ensures '.' !in ext
    ensures '.' !in name ==> ext == ""
    ensures '.' in name ==>
      |ext| < |name| && name[|name| - |ext| - 1] == '.' && name[|name| - |ext|..] == ext
  {
    if '.' in name then
      SplitLastIsSuffix(name, '.');
      LastPart(Split(name, '.'))
    else ""
  }

  /** `f"{hex}.{ext}"`: the uuid hex, a dot and the extension; a dot-free
      hex is the text before the first dot. */
  function SafeFilename(hex: string, ext: string): (name: string)
    ensures |name| == |hex| + 1 + |ext|
    ensures name[..|hex|] == hex && name[|hex|] == '.' && name[|hex| + 1..] == ext
    ensures '.' !in hex ==> Split(name, '.')[0] == hex
  {
    var name := hex + "." + ext;
    assert name[..|hex|] == hex;
    if '.' in hex then name
    else
      IndexOfAfterPrefix(hex, '.', ext);
      name
  }

  /** The safe name always has a dot, ends in one when there is no extension,
      and gives back exactly the extension it was built from. */
  lemma SafeFilenameKeepsExtension(hex: string, ext: string)
    requires '.' !in hex && '.' !in ext
    ensures '.' in SafeFilename(hex, ext)
    ensures ext == "" ==> SafeFilename(hex, ext)[|SafeFilename(hex, ext)| - 1] == '.'
    ensures Extension(SafeFilename(hex, ext)) == ext
  {
    var name := SafeFilename(hex, ext);
    assert name[|hex|] == '.';
    var e := Extension(name);
    assert name[|name| - |ext|..] == ext;
  }

  /** `f"{directory}/{now.year}/{now.month}/{now.day}/{safe_filename}"`:
      the path begins with the directory and a slash and ends with a slash
      and the file name. */
  function RelativePath(directory: string, today: Date, safeFilename: string): (path: string)
    ensures |directory| + |safeFilename| + 2 <= |path|
    ensures path[..|directory|] == directory && path[|directory|] == '/'
    ensures path[|path| - |safeFilename|..] == safeFilename && path[|path| - |safeFilename| - 1] == '/'
  {
    directory + "/" + NatToString(today.year) + "/" + NatToString(today.month) + "/"
      + NatToString(today.day) + "/" + safeFilename
  }

  /** The relative path splits back into the directory, the three date
      numbers written without padding, and the file name. */
  lemma RelativePathComponents(directory: string, today: Date, safeFilename: string)
    requires '/' !in directory && '/' !in safeFilename
    ensures var parts := Split(RelativePath(directory, today, safeFilename), '/');
      |parts| == 5 && parts[0] == directory && parts[4] == safeFilename
      && AllDigits(parts[1]) && ParseNat(parts[1]) == today.year
      && AllDigits(parts[2]) && ParseNat(parts[2]) == today.month
      && AllDigits(parts[3]) && ParseNat(parts[3]) == today.day
    ensures 1 <= today.month <= 9 ==> |NatToString(today.month)| == 1
    ensures 1 <= today.day <= 9 ==> |NatToString(today.day)| == 1
  {
    var y, m, d := NatToString(today.year), NatToString(today.month), NatToString(today.day);
    var parts := [directory, y, m, d, safeFilename];
    DigitsHaveNoSlash(y);
    DigitsHaveNoSlash(m);
    DigitsHaveNoSlash(d);
    RelativePathIsJoin(directory, y, m, d, safeFilename);
    SplitJoin(parts, '/');
    ParseNatToString(today.year);
    ParseNatToString(today.month);
    ParseNatToString(today.day);
  }

  lemma RelativePathIsJoin(directory: string, y: string, m: string, d: string, safeFilename: string)
    ensures Join([directory, y, m, d, safeFilename], '/') == directory + "/" + y + "/" + m + "/" + d + "/" + safeFilename
  {
    var parts := [directory, y, m, d, safeFilename];
    assert parts[4..] == [safeFilename];
    assert parts[3..][1..] == parts[4..] && parts[2..][1..] == parts[3..] && parts[1..][1..] == parts[2..];
    assert Join(parts[3..], '/') == d + "/" + safeFilename;
    assert Join(parts[2..], '/') == m + "/" + d + "/" + safeFilename;
    assert Join(parts[1..], '/') == y + "/" + m + "/" + d + "/" + safeFilename;
  }

  lemma DigitsHaveNoSlash(s: string)
    requires AllDigits(s)
    ensures '/' !in s
  {
    assert forall i :: 0 <= i < |s| ==> s[i] != '/';
  }

  /** `hasattr(settings, "AWS_S3_CUSTOM_DOMAIN") and settings.AWS_S3_CUSTOM_DOMAIN`. */
  predicate HasCustomDomain(settings: Settings)
  {
    settings.customDomain.Some? && settings.customDomain.value != ""
  }

  /** The scheme and host part of the public URL of an uploaded object: it
      is always an `https://` address ending in a slash. */
  function UrlPrefix(settings: Settings): (prefix: string)
    ensures |prefix| > 8 && prefix[..8] == "https://" && prefix[|prefix| - 1] == '/'
  {
    if HasCustomDomain(settings) then "https://" + settings.customDomain.value + "/"
    else "https://" + settings.bucket + ".s3." + settings.region + ".amazonaws.com/"
  }

  /** The public URL of the object stored under `relativePath`: on the custom
      domain when one is configured, else on the bucket's regional S3 host;
      the object key can always be read back from it. */
  function PublicUrl(settings: Settings, relativePath: string): (url: string)
    ensures HasCustomDomain(settings) ==>
      url == "https://" + settings.customDomain.value + "/" + relativePath
    ensures !HasCustomDomain(settings) ==>
      url == "https://" + settings.bucket + ".s3." + settings.region + ".amazonaws.com/" + relativePath
    ensures |UrlPrefix(settings)| <= |url| && url[|UrlPrefix(settings)|..] == relativePath
  {
    UrlPrefix(settings) + relativePath
  }

  /** `upload_image(image_file, directory)` with `hex` for `uuid.uuid4().hex`
      and `today` for the date of `datetime.now()`. */
  function UploadImage(
    image: Option<UploadedFile>, directory: string, hex: string, today: Date,
    settings: Settings, storage: Storage): (out: UploadOutcome)
    ensures IsFalsy(image) ==> out == UploadOutcome(None, Ok(""))
    ensures !IsFalsy(image) ==>
      var path := RelativePath(directory, today, SafeFilename(hex, Extension(image.value.name)));
      && (settings.debug ==>
            out.request == Some(LocalSave(path, image.value.content))
            && out.result == Ok(settings.mediaUrl + storage.savedName(path)))
      && (!settings.debug && storage.s3.ClientFailed? ==>
            out == UploadOutcome(None, Err(UploadFailurePrefix + storage.s3.reason)))
      && (!settings.debug && !storage.s3.ClientFailed? ==>
            out.request == Some(S3Put(image.value.content, settings.bucket, path, image.value.contentType, settings.defaultAcl)))
      && (!settings.debug && storage.s3.Uploaded? ==> out.result == Ok(PublicUrl(settings, path)))
      && (!settings.debug && storage.s3.UploadFailed? ==>
            out.result == Err(UploadFailurePrefix + storage.s3.reason))
  {
    if IsFalsy(image) then UploadOutcome(None, Ok(""))
    else
      var file := image.value;
      var ext := Extension(file.name);
      var safeFilename := SafeFilename(hex, ext);
      var path := RelativePath(directory, today, safeFilename);
      if settings.debug then
        UploadOutcome(Some(LocalSave(path, file.content)), Ok(settings.mediaUrl + storage.savedName(path)))
      else
        var request := S3Put(file.content, settings.bucket, path, file.contentType, settings.defaultAcl);
        match storage.s3
        case ClientFailed(reason) => UploadOutcome(None, Err(UploadFailurePrefix + reason))
        case UploadFailed(reason) => UploadOutcome(Some(request), Err(UploadFailurePrefix + reason))
        case Uploaded => UploadOutcome(Some(request), Ok(PublicUrl(settings, path)))
  }

  /** For a file with a dot-free, slash-free uuid hex and a slash-free name,
      the object key under which a non-debug upload stores the file is read
      back from the returned URL, and it splits into the directory, the date
      and a safe name that keeps the original extension. */
  lemma UploadedUrlNamesTheFile(
    image: UploadedFile, directory: string, hex: string, today: Date,
    settings: Settings, storage: Storage)
    requires image.name != "" && !settings.debug && storage.s3.Uploaded?
    requires '.' !in hex && '/' !in hex && '/' !in image.name && '/' !in directory
    ensures var out := UploadImage(Some(image), directory, hex, today, settings, storage);
      out.result.Ok? && out.request.Some? && out.request.value.S3Put?
      && var key := out.request.value.key;
      && out.result.value[|UrlPrefix(settings)|..] == key
      && var parts := Split(key, '/');
      && |parts| == 5 && parts[0] == directory
      && AllDigits(parts[1]) && ParseNat(parts[1]) == today.year
      && AllDigits(parts[2]) && ParseNat(parts[2]) == today.month
      && AllDigits(parts[3]) && ParseNat(parts[3]) == today.day
      && Extension(parts[4]) == Extension(image.name)
  {
    var ext := Extension(image.name);
    var safe := SafeFilename(hex, ext);
    ExtensionHasNoSlash(image.name);
    assert '/' !in safe;
    RelativePathComponents(directory, today, safe);
    SafeFilenameKeepsExtension(hex, ext);
  }

  /** Called with the default `directory="posts"`, a successful non-debug
      upload stores the file under a key whose first component is `posts`. */
  lemma DefaultDirectoryUpload(image: UploadedFile, hex: string, today: Date, settings: Settings, storage: Storage)
    requires image.name != "" && !settings.debug && storage.s3.Uploaded?
    requires '.' !in hex && '/' !in hex && '/' !in image.name
    ensures var out := UploadImage(Some(image), DefaultDirectory, hex, today, settings, storage);
      out.request.Some? && out.request.value.S3Put?
      && Split(out.request.value.key, '/')[0] == "posts"
  {
    UploadedUrlNamesTheFile(image, DefaultDirectory, hex, today, settings, storage);
  }

  /** The extension is part of the name, so a slash-free name gives a slash-free extension. */
  lemma ExtensionHasNoSlash(name: string)
    requires '/' !in name
    ensures '/' !in Extension(name)
  {
    var e := Extension(name);
    assert forall i :: 0 <= i < |e| ==> e[i] == name[|name| - |e| + i];
  }

  /** A falsy image stores nothing and yields the empty URL, whatever the configuration. */
  lemma FalsyImageStoresNothing(directory: string, hex: string, today: Date, settings: Settings, storage: Storage)
    ensures UploadImage(None, directory, hex, today, settings, storage) == UploadOutcome(None, Ok(""))
    ensures forall f: UploadedFile :: f.name == "" ==>
      UploadImage(Some(f), directory, hex, today, settings, storage) == UploadOutcome(None, Ok(""))
  {
  }
}
