/**
 * Transport dispatch and the parameters of one upload (`uploadS3`, `uploadFtp`,
 * `uploadSftp`). The transfers themselves are outside the model: an upload is
 * the request that would be handed to the object-store client or to the
 * FTP/SFTP client, and whether that call raises is an input.
 */
module Transport {

  import opened Wrappers
  import opened Php
  import opened Configuration

  datatype Protocol = S3Protocol | FtpProtocol | SftpProtocol

  /** The switch on the update method: `ftp` and `ftps` share the FTP client; other methods upload nothing. */
  function Dispatch(kind: string): (p: Option<Protocol>)
    ensures p == Some(S3Protocol) <==> kind == "s3"
    ensures p == Some(FtpProtocol) <==> kind == "ftp" || kind == "ftps"
    ensures p == Some(SftpProtocol) <==> kind == "sftp"
    ensures p.None? <==> kind !in {"s3", "ftp", "ftps", "sftp"}
  {
    match kind
    case "s3" => Some(S3Protocol)
    case "ftp" => Some(FtpProtocol)
    case "ftps" => Some(FtpProtocol)
    case "sftp" => Some(SftpProtocol)
    case _ => None
  }

  /** The backend record always suits the client it is dispatched to. */
  lemma DispatchMatchesBackend(st: Store)
    ensures Dispatch(UpdateMethod(st)) == Some(S3Protocol) ==> ResolveBackend(st).S3Backend?
    ensures Dispatch(UpdateMethod(st)) == Some(FtpProtocol) ==> ResolveBackend(st).FtpBackend? && ResolveBackend(st).ftp.port == Number(st, FtpPortKey, 21)
    ensures Dispatch(UpdateMethod(st)) == Some(SftpProtocol) ==> ResolveBackend(st).FtpBackend? && ResolveBackend(st).ftp.port == Number(st, FtpPortKey, 22)
  {
  }

  /** The remote name: the one given unless PHP deems it empty, else the base name of the local file. */
  function DestinationName(sourcePath: string, destName: Option<string>): (name: string)
    ensures !EmptyOrNull(destName) ==> name == destName.value
    ensures EmptyOrNull(destName) ==> name == BaseName(sourcePath)
  {
    if EmptyOrNull(destName) then BaseName(sourcePath) else destName.value
  }

  /** A file stored as `dir/name` with no explicit remote name is uploaded as `name`. */
  lemma DefaultNameIsFileName(dir: string, name: string, destName: Option<string>)
    requires name != "" && '/' !in name
    requires EmptyOrNull(destName)
    ensures DestinationName(dir + "/" + name, destName) == name
  {
    BaseNameOfJoin(dir, name);
  }

  datatype Acl = PublicRead | PrivateAccess

  /** The object-store client options and the put-object operation built for one upload. */
  datatype S3Put = S3Put(
    accessKey: string,
    secretKey: string,
    scheme: string,
    signature: string,
    region: string,
    certificateAuthority: Option<string>,
    bucket: string,
    key: string,
    sourceFile: string,
    acl: Acl,
    storageClass: string,
    cacheControl: string)

  /**
   * `uploadS3` up to the put: TLS selects the scheme, a CA bundle is passed only
   * when one is defined and TLS is on, the key is `directory/name`, and a CDN
   * host name makes the object public.
   */
  function S3Request(cfg: S3Config, sourcePath: string, destName: Option<string>, caBundle: Option<string>): (p: S3Put)
    ensures p.accessKey == cfg.access && p.secretKey == cfg.secret && p.bucket == cfg.bucket
    ensures p.signature == cfg.signature && p.region == cfg.region
    ensures p.scheme == "https" <==> cfg.usessl
    ensures p.scheme == "http" <==> !cfg.usessl
    ensures p.certificateAuthority.Some? <==> caBundle.Some? && cfg.usessl
    ensures p.certificateAuthority.Some? ==> p.certificateAuthority == caBundle
    ensures p.key == cfg.directory + "/" + DestinationName(sourcePath, destName)
    ensures p.sourceFile == sourcePath
    ensures p.acl == PublicRead <==> !Empty(cfg.cdnhostname)
    ensures p.storageClass == "STANDARD" && p.cacheControl == "max-age=600"
  {
    S3Put(
      accessKey := cfg.access,
      secretKey := cfg.secret,
      scheme := if cfg.usessl then "https" else "http",
      signature := cfg.signature,
      region := cfg.region,
      certificateAuthority := if caBundle.Some? && cfg.usessl then caBundle else None,
      bucket := cfg.bucket,
      key := cfg.directory + "/" + DestinationName(sourcePath, destName),
      sourceFile := sourcePath,
      acl := if !Empty(cfg.cdnhostname) then PublicRead else PrivateAccess,
      storageClass := "STANDARD",
      cacheControl := "max-age=600")
  }

  /** What one upload hands to a client. */
  datatype UploadRequest =
    | S3Upload(put: S3Put)
    | FtpUpload(config: FtpConfig, source: string, name: string)
    | SftpUpload(config: FtpConfig, source: string, name: string)

  /** The local file an upload reads. */
  function Source(req: UploadRequest): string {
    match req
    case S3Upload(put) => put.sourceFile
    case FtpUpload(_, source, _) => source
    case SftpUpload(_, source, _) => source
  }

  /**
   * How an upload ends. The object-store path catches the client's exception and
   * returns false; the FTP and SFTP paths let it propagate.
   */
  datatype UploadOutcome = Uploaded | Rejected | Raised

  function Outcome(req: UploadRequest, raises: bool): (o: UploadOutcome)
    ensures o == Uploaded <==> !raises
    ensures o == Raised <==> raises && !req.S3Upload?
    ensures o == Rejected <==> raises && req.S3Upload?
  {
    if !raises then Uploaded else if req.S3Upload? then Rejected else Raised
  }

  /**
   * The transport dispatch for one scratch file, as the deployment step calls it
   * (no explicit remote name): nothing for an unknown method, else one request
   * that reads that file.
   */
  function UploadFor(st: Store, path: string, caBundle: Option<string>): (r: Option<UploadRequest>)
    ensures r.None? <==> Dispatch(UpdateMethod(st)).None?
    ensures r.Some? ==> Source(r.value) == path
    ensures r.Some? ==> (r.value.S3Upload? <==> UpdateMethod(st) == "s3")
    ensures r.Some? ==> (r.value.SftpUpload? <==> UpdateMethod(st) == "sftp")
    ensures r.Some? && r.value.S3Upload? ==> r.value.put == S3Request(ResolveBackend(st).s3, path, None, caBundle)
    ensures r.Some? && !r.value.S3Upload? ==> r.value.config == ResolveBackend(st).ftp && r.value.name == BaseName(path)
  {
    var backend := ResolveBackend(st);
    match Dispatch(UpdateMethod(st))
    case None => None
    case Some(S3Protocol) => Some(S3Upload(S3Request(backend.s3, path, None, caBundle)))
    case Some(FtpProtocol) => Some(FtpUpload(backend.ftp, path, DestinationName(path, None)))
    case Some(SftpProtocol) => Some(SftpUpload(backend.ftp, path, DestinationName(path, None)))
  }
}
