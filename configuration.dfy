/**
 * The configuration the deployment step reads, and the backend record it builds
 * from it (`deployUpdates`, the first half).
 *
 * The configuration singleton of the release maker is a key/value store read by
 * dotted keys, each with a default. Here it is a plain value: one map per kind of
 * value, and a key is looked up in the map of its default's kind.
 */
module Configuration {

  datatype Store = Store(
    texts: map<string, string>,
    numbers: map<string, int>,
    flags: map<string, bool>,
    lists: map<string, seq<string>>)

  /** A store in which no key is set: every lookup yields its default. */
  const EmptyStore := Store(map[], map[], map[], map[])

  function Text(st: Store, key: string, default: string): string {
    if key in st.texts then st.texts[key] else default
  }

  function Number(st: Store, key: string, default: int): int {
    if key in st.numbers then st.numbers[key] else default
  }

  function Flag(st: Store, key: string, default: bool): bool {
    if key in st.flags then st.flags[key] else default
  }

  function List(st: Store, key: string, default: seq<string>): seq<string> {
    if key in st.lists then st.lists[key] else default
  }

  // ---------------------------------------------------------------------------
  // Keys

  const MethodKey := "common.update.method"
  const S3AccessKey := "common.update.s3.access"
  const S3SecretKey := "common.update.s3.secret"
  const S3BucketKey := "common.update.s3.bucket"
  const S3SslKey := "common.update.s3.usessl"
  const S3SignatureKey := "common.update.s3.signature"
  const S3RegionKey := "common.update.s3.region"
  const S3DirectoryKey := "common.update.s3.directory"
  const S3CdnKey := "common.update.s3.cdnhostname"
  const FtpHostKey := "common.update.ftp.hostname"
  const FtpPortKey := "common.update.ftp.port"
  const FtpUserKey := "common.update.ftp.username"
  const FtpPasswordKey := "common.update.ftp.password"
  const FtpPassiveKey := "common.update.ftp.passive"
  const FtpDirectoryKey := "common.update.ftp.directory"
  const FtpPubKeyKey := "common.update.ftp.pubkeyfile"
  const FtpPrivKeyKey := "common.update.ftp.privkeyfile"
  const FtpPrivKeyPassKey := "common.update.ftp.privkeyfile_pass"

  /** The text-valued keys of each backend record. */
  const S3TextKeys := {S3AccessKey, S3SecretKey, S3BucketKey, S3SignatureKey, S3RegionKey, S3DirectoryKey, S3CdnKey}
  const FtpTextKeys := {FtpHostKey, FtpUserKey, FtpPasswordKey, FtpDirectoryKey, FtpPubKeyKey, FtpPrivKeyKey, FtpPrivKeyPassKey}

  // ---------------------------------------------------------------------------
  // Backend records

  /** Object-store settings. */
  datatype S3Config = S3Config(
    access: string,
    secret: string,
    bucket: string,
    usessl: bool,
    signature: string,
    region: string,
    directory: string,
    cdnhostname: string)

  /** File-transfer settings; `kind` is the update method itself (`ftp`, `ftps`, `sftp`, ...). */
  datatype FtpConfig = FtpConfig(
    kind: string,
    hostname: string,
    port: int,
    username: string,
    password: string,
    passive: bool,
    directory: string,
    pubkeyfile: string,
    privkeyfile: string,
    privkeyfilePass: string)

  datatype Backend = S3Backend(s3: S3Config) | FtpBackend(ftp: FtpConfig)

  /** The configured update method; `sftp` when none is set. */
  function UpdateMethod(st: Store): (m: string)
    ensures MethodKey in st.texts ==> m == st.texts[MethodKey]
    ensures MethodKey !in st.texts ==> m == "sftp"
  {
    Text(st, MethodKey, "sftp")
  }

  /** The port used when none is configured: 22 for `sftp`, 21 for anything else. */
  function DefaultPort(kind: string): (port: int)
    ensures port == 22 <==> kind == "sftp"
    ensures port == 21 <==> kind != "sftp"
  {
    if kind == "sftp" then 22 else 21
  }

  /**
   * Builds the backend record: the object-store one exactly when the method is
   * `s3`, the file-transfer one (whatever the method) otherwise. A missing key
   * never fails; it yields its default.
   */
  function ResolveBackend(st: Store): (b: Backend)
    ensures b.S3Backend? <==> UpdateMethod(st) == "s3"
    ensures b.FtpBackend? ==> b.ftp.kind == UpdateMethod(st)
    ensures b.FtpBackend? && FtpPortKey !in st.numbers ==> b.ftp.port == DefaultPort(UpdateMethod(st))
    ensures b.FtpBackend? && FtpPassiveKey !in st.flags ==> b.ftp.passive
    ensures b.S3Backend? && S3SslKey !in st.flags ==> b.s3.usessl
    // a configured value always reaches its field
    ensures b.S3Backend? ==>
              && (S3AccessKey in st.texts ==> b.s3.access == st.texts[S3AccessKey])
              && (S3SecretKey in st.texts ==> b.s3.secret == st.texts[S3SecretKey])
              && (S3BucketKey in st.texts ==> b.s3.bucket == st.texts[S3BucketKey])
              && (S3SslKey in st.flags ==> b.s3.usessl == st.flags[S3SslKey])
              && (S3SignatureKey in st.texts ==> b.s3.signature == st.texts[S3SignatureKey])
              && (S3RegionKey in st.texts ==> b.s3.region == st.texts[S3RegionKey])
              && (S3DirectoryKey in st.texts ==> b.s3.directory == st.texts[S3DirectoryKey])
              && (S3CdnKey in st.texts ==> b.s3.cdnhostname == st.texts[S3CdnKey])
    ensures b.FtpBackend? ==>
              && (FtpHostKey in st.texts ==> b.ftp.hostname == st.texts[FtpHostKey])
              && (FtpPortKey in st.numbers ==> b.ftp.port == st.numbers[FtpPortKey])
              && (FtpUserKey in st.texts ==> b.ftp.username == st.texts[FtpUserKey])
              && (FtpPasswordKey in st.texts ==> b.ftp.password == st.texts[FtpPasswordKey])
              && (FtpPassiveKey in st.flags ==> b.ftp.passive == st.flags[FtpPassiveKey])
              && (FtpDirectoryKey in st.texts ==> b.ftp.directory == st.texts[FtpDirectoryKey])
              && (FtpPubKeyKey in st.texts ==> b.ftp.pubkeyfile == st.texts[FtpPubKeyKey])
              && (FtpPrivKeyKey in st.texts ==> b.ftp.privkeyfile == st.texts[FtpPrivKeyKey])
              && (FtpPrivKeyPassKey in st.texts ==> b.ftp.privkeyfilePass == st.texts[FtpPrivKeyPassKey])
    // each key left unset falls back to its own default, whatever else is set
    ensures b.S3Backend? ==>
              && (S3AccessKey !in st.texts ==> b.s3.access == "")
              && (S3SecretKey !in st.texts ==> b.s3.secret == "")
              && (S3BucketKey !in st.texts ==> b.s3.bucket == "")
              && (S3SignatureKey !in st.texts ==> b.s3.signature == "s3")
              && (S3RegionKey !in st.texts ==> b.s3.region == "us-east-1")
              && (S3DirectoryKey !in st.texts ==> b.s3.directory == "")
              && (S3CdnKey !in st.texts ==> b.s3.cdnhostname == "")
    ensures b.FtpBackend? ==>
              && (FtpHostKey !in st.texts ==> b.ftp.hostname == "")
              && (FtpUserKey !in st.texts ==> b.ftp.username == "")
              && (FtpPasswordKey !in st.texts ==> b.ftp.password == "")
              && (FtpDirectoryKey !in st.texts ==> b.ftp.directory == "")
              && (FtpPubKeyKey !in st.texts ==> b.ftp.pubkeyfile == "")
              && (FtpPrivKeyKey !in st.texts ==> b.ftp.privkeyfile == "")
              && (FtpPrivKeyPassKey !in st.texts ==> b.ftp.privkeyfilePass == "")
  {
    var kind := UpdateMethod(st);
    if kind == "s3" then
      S3Backend(S3Config(
        access := Text(st, S3AccessKey, ""),
        secret := Text(st, S3SecretKey, ""),
        bucket := Text(st, S3BucketKey, ""),
        usessl := Flag(st, S3SslKey, true),
        signature := Text(st, S3SignatureKey, "s3"),
        region := Text(st, S3RegionKey, "us-east-1"),
        directory := Text(st, S3DirectoryKey, ""),
        cdnhostname := Text(st, S3CdnKey, "")))
    else
      FtpBackend(FtpConfig(
        kind := kind,
        hostname := Text(st, FtpHostKey, ""),
        port := Number(st, FtpPortKey, DefaultPort(kind)),
        username := Text(st, FtpUserKey, ""),
        password := Text(st, FtpPasswordKey, ""),
        passive := Flag(st, FtpPassiveKey, true),
        directory := Text(st, FtpDirectoryKey, ""),
        pubkeyfile := Text(st, FtpPubKeyKey, ""),
        privkeyfile := Text(st, FtpPrivKeyKey, ""),
        privkeyfilePass := Text(st, FtpPrivKeyPassKey, "")))
  }

  /** With nothing configured, the backend is SFTP on port 22, passive, every text empty. */
  lemma EmptyStoreDefaults()
    ensures ResolveBackend(EmptyStore) == FtpBackend(FtpConfig("sftp", "", 22, "", "", true, "", "", "", ""))
  {
  }

  /** Method `s3` and no object-store key set: TLS on, signature `s3`, region `us-east-1`, the rest empty. */
  lemma S3Defaults(st: Store)
    requires UpdateMethod(st) == "s3"
    requires st.texts.Keys !! S3TextKeys && S3SslKey !in st.flags
    ensures ResolveBackend(st) == S3Backend(S3Config("", "", "", true, "s3", "us-east-1", "", ""))
  {
  }

  /** Any other method and no file-transfer key set: the port follows the method, passive mode is on. */
  lemma FtpDefaults(st: Store)
    requires UpdateMethod(st) != "s3"
    requires st.texts.Keys !! FtpTextKeys && FtpPortKey !in st.numbers && FtpPassiveKey !in st.flags
    ensures ResolveBackend(st) == FtpBackend(FtpConfig(UpdateMethod(st), "", DefaultPort(UpdateMethod(st)), "", "", true, "", "", "", ""))
  {
  }
}
