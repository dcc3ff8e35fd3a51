/**
  The attachment uploads of the post code: `uploadPostImage` sends an image to
  the Imgur service when a client id is configured and otherwise falls back to
  a local file upload; `uploadPostFile` checks the size limit and writes the
  file under a fresh name.

  The services behind them (the Imgur client, base64 decoding, `path.extname`,
  the file system and the configured upload URL) are parameters, and the UUID
  of the new file name is an argument.
 */
module PostUploads {
  import opened Wrappers
  import opened JsValues

  /** The site settings the uploads consult (`meta.config`). */
  datatype UploadConfig = UploadConfig(
    imgurClientID: Value,
    allowFileUploads: Value,
    maximumFileSize: Value)   // in kibibytes, parsed with parseInt

  /** A file sent by the composer: its original name and its base64 payload. */
  datatype Upload = Upload(name: string, data: string)

  /** What a successful upload reports back. */
  datatype Uploaded = Uploaded(url: string, name: string)

  datatype Services = Services(
    imgur: (Value, string) -> Result<string, string>,   // imgur.upload(clientID, data, 'base64'): the link, or err.message
    decodedLength: string -> nat,                       // new Buffer(data, 'base64').length
    extname: string -> string,                          // path.extname
    writeFile: (string, string) -> Option<string>,      // fs.writeFile of the decoded data under the upload directory: err.message
    uploadUrl: string)                                  // nconf.get('upload_url')

  /** The name a local upload is stored under. */
  function StoredName(s: Services, uuid: string, file: Upload): string
  {
    "upload-" + uuid + s.extname(file.name)
  }

  /** `buffer.length > parseInt(maximumFileSize, 10) * 1024`: false when the maximum is not a number. */
  predicate TooBig(size: nat, maximum: Value)
  {
    var m := ParseInt(maximum);
    m.Some? && size > m.value * 1024
  }

  /** The outcome of writing an accepted file. */
  function Store(s: Services, uuid: string, file: Upload): (r: Result<Uploaded, string>)
    ensures r.Ok? <==> s.writeFile("upload-" + uuid + s.extname(file.name), file.data).None?
    ensures r.Ok? ==> r.value == Uploaded(s.uploadUrl + "upload-" + uuid + s.extname(file.name), file.name)
    ensures r.Err? ==> s.writeFile("upload-" + uuid + s.extname(file.name), file.data) == Some(r.error)
  {
    match s.writeFile(StoredName(s, uuid, file), file.data)
    case Some(message) => Err(message)
    case None => Ok(Uploaded(s.uploadUrl + StoredName(s, uuid, file), file.name))
  }

  /** `uploadPostFile(file)` */
  function UploadPostFile(c: UploadConfig, s: Services, uuid: string, file: Option<Upload>): (r: Result<Uploaded, string>)
    ensures !Truthy(c.allowFileUploads) ==> r == Err("File uploads are not allowed")
    ensures Truthy(c.allowFileUploads) && file.None? ==> r == Err("invalid file")
    ensures Truthy(c.allowFileUploads) && file.Some? && TooBig(s.decodedLength(file.value.data), c.maximumFileSize) ==>
              r == Err("File too big")
    ensures r.Ok? ==>
              && Truthy(c.allowFileUploads) && file.Some?
              && !TooBig(s.decodedLength(file.value.data), c.maximumFileSize)
              && s.writeFile(StoredName(s, uuid, file.value), file.value.data) == None
              && r.value == Uploaded(s.uploadUrl + "upload-" + uuid + s.extname(file.value.name), file.value.name)
    ensures Truthy(c.allowFileUploads) && file.Some? && !TooBig(s.decodedLength(file.value.data), c.maximumFileSize) ==>
              (r.Ok? <==> s.writeFile(StoredName(s, uuid, file.value), file.value.data).None?)
              && (r.Err? ==> Some(r.error) == s.writeFile(StoredName(s, uuid, file.value), file.value.data))
  {
    if !Truthy(c.allowFileUploads) then Err("File uploads are not allowed")
    else if file.None? then Err("invalid file")
    else if TooBig(s.decodedLength(file.value.data), c.maximumFileSize) then Err("File too big")
    else Store(s, uuid, file.value)
  }

  /** `uploadPostImage(image)`: Imgur when a client id is set, else a local upload when those are allowed. */
  function UploadPostImage(c: UploadConfig, s: Services, uuid: string, image: Option<Upload>): (r: Result<Uploaded, string>)
    ensures Truthy(c.imgurClientID) && image.None? ==> r == Err("invalid image")
    ensures Truthy(c.imgurClientID) && image.Some? ==>
              var sent := s.imgur(c.imgurClientID, image.value.data);
              && (r.Ok? <==> sent.Ok?)
              && (r.Ok? ==> r.value == Uploaded(sent.value, image.value.name))
              && (r.Err? ==> r.error == sent.error)
    ensures !Truthy(c.imgurClientID) && Truthy(c.allowFileUploads) ==> r == UploadPostFile(c, s, uuid, image)
    ensures !Truthy(c.imgurClientID) && !Truthy(c.allowFileUploads) ==> r == Err("Uploads are disabled!")
  {
    if Truthy(c.imgurClientID) then
      if image.None? then Err("invalid image")
      else match s.imgur(c.imgurClientID, image.value.data)
        case Err(message) => Err(message)
        case Ok(link) => Ok(Uploaded(link, image.value.name))
    else if Truthy(c.allowFileUploads) then UploadPostFile(c, s, uuid, image)
    else Err("Uploads are disabled!")
  }

  /** With a numeric maximum of `n` KiB, a file is refused as too big exactly when it is larger than `n * 1024` bytes: the limit itself is allowed. */
  lemma SizeLimitOfNumeral(c: UploadConfig, s: Services, uuid: string, file: Upload, n: nat)
    requires Truthy(c.allowFileUploads) && c.maximumFileSize == Str(DecimalString(n))
    ensures s.decodedLength(file.data) > n * 1024 ==> UploadPostFile(c, s, uuid, Some(file)) == Err("File too big")
    ensures s.decodedLength(file.data) <= n * 1024 ==> UploadPostFile(c, s, uuid, Some(file)) == Store(s, uuid, file)
  {
    ParseIntDecimal(n);
  }

  /**
    A maximum written with surrounding text, such as `" 10"` or `"10kb"`, limits
    like its leading number: white space before the digits and anything after
    them that is not a digit are ignored.
   */
  lemma SizeLimitOfSetting(c: UploadConfig, s: Services, uuid: string, file: Upload, ws: string, n: nat, unit: string)
    requires Truthy(c.allowFileUploads)
    requires forall i :: 0 <= i < |ws| ==> IsWhiteSpace(ws[i])
    requires unit == [] || !IsDigit(unit[0])
    requires c.maximumFileSize == Str(ws + (NaturalString(n) + unit))
    ensures s.decodedLength(file.data) > n * 1024 ==> UploadPostFile(c, s, uuid, Some(file)) == Err("File too big")
    ensures s.decodedLength(file.data) <= n * 1024 ==> UploadPostFile(c, s, uuid, Some(file)) == Store(s, uuid, file)
  {
    ParseIntSkipsWhiteSpace(ws, NaturalString(n) + unit);
    ParseIntOfSignedDigits(NaturalString(n), unit);
    NaturalStringValue(n);
  }

  /** A maximum that is not a number (unset, empty, a word) sets no limit: every file goes to the disk. */
  lemma NoLimitWithoutNumber(c: UploadConfig, s: Services, uuid: string, file: Upload)
    requires Truthy(c.allowFileUploads)
    requires c.maximumFileSize == Undefined || c.maximumFileSize == Str("")
             || (c.maximumFileSize.Str? && |c.maximumFileSize.s| > 0 && 'a' <= c.maximumFileSize.s[0] <= 'z')
    ensures UploadPostFile(c, s, uuid, Some(file)) == Store(s, uuid, file)
  {
    ParseIntOfAbsent();
    if c.maximumFileSize.Str? && c.maximumFileSize.s != "" {
      ParseIntOfWord(c.maximumFileSize.s);
    }
  }

  /** With an Imgur client id, an image upload never touches the disk. */
  lemma ImgurBypassesDisk(c: UploadConfig, s: Services, t: Services, uuid: string, image: Option<Upload>)
    requires Truthy(c.imgurClientID) && s.imgur == t.imgur
    ensures UploadPostImage(c, s, uuid, image) == UploadPostImage(c, t, uuid, image)
  {
  }
}
