# Release maker: the update-deployment step

This project models the step of Akeeba Release Maker that publishes update
descriptors (`ArmStepUpdates`). The step runs two channels, `core` and then
`pro`. For a channel with a base name, it takes each configured format (`ini`,
`inibare`, `xml`) in list order and does four things:

1. fetches the descriptor from the release system's rendering endpoint;
2. writes it to a scratch file;
3. hands the file to the transport the update method names (an S3 object
   store, FTP/FTPS or SFTP);
4. deletes the scratch file.

The model has eight modules:

- `Wrappers` holds the `Option` type.
- `Php` covers the PHP semantics the step relies on: `empty()` on strings, the
  text of an interpolated integer (with a parse-back round trip), and
  `basename()`.
- `Configuration` is the configuration store, with lookups that fall back to
  defaults, and the backend record built from it.
- `Formats` holds the format switch, the fetch URL and the scratch path.
- `Transport` covers the dispatch on the update method, the remote name, the
  object-store put request, and how each transport reports an exception.
- `Deployment` holds `deployUpdates` and `execute` as methods. They build a
  trace of abstract actions (`Fetch`, `Write`, `Upload`, `Delete`) and are
  proved equal to a functional specification. The outside world (the
  endpoint's answers, whether a transfer raises, the CA bundle) is an input.
- `TraceProperties` proves what the trace guarantees, and `Scenario` works one
  channel through to the end.

Two behaviours of the step that are easy to miss:

- The `xml` format writes and uploads `<basename>.xml`: the format switch
  gives it the extension `.xml`.
- The step does not check for a failed fetch. `file_get_contents` yields
  `false`, which `file_put_contents` writes as an empty file, and that file is
  still uploaded and deleted.

An FTP or SFTP exception is not caught anywhere in the step. It ends the
run: the scratch file stays, and the rest of the formats and the `pro`
channel are skipped. An exception from the S3 `putObject` call only makes
`uploadS3` return false, which the loop ignores.

## Model

| member | source | states |
|---|---|---|
| Php.IntText | releasemaker/step/updates.php:112 | the interpolated stream id is never empty, starts with '-' exactly for negative ids, and is "0" for 0 |
| Php.IntTextRoundTrip | releasemaker/step/updates.php:112 | the stream id text in the URL is canonical decimal (no leading zero, no "-" or "-0") and reads back as the stream id |
| Php.IntTextUnique | releasemaker/step/updates.php:112 | canonical decimal text that reads back as an id is exactly the text PHP prints for it, so the id text is fully determined |
| Php.NatTextRoundTrip | releasemaker/step/updates.php:112 | the decimal digits of a natural number read back as that number |
| Php.IntTextInjective | releasemaker/step/updates.php:112 | two different stream ids never give the same URL text |
| Php.BaseName | releasemaker/step/updates.php:169 | `basename()` never returns a name containing '/' |
| Php.BaseNameOfJoin | releasemaker/step/updates.php:169 | the base name of `dir/name` is `name` for any non-empty name without '/' |
| Php.EmptyCases | releasemaker/step/updates.php:78 | PHP's `empty()` holds for a string exactly when it is "" or "0" (so not for "00", "0.0", " " or "false"); for an optional name it also holds when the name is missing |
| Configuration.UpdateMethod | releasemaker/step/updates.php:41 | the update method is the configured `common.update.method`, else `sftp` |
| Configuration.DefaultPort | releasemaker/step/updates.php:61 | the default port is 22 exactly for `sftp` and 21 for every other method |
| Configuration.ResolveBackend | releasemaker/step/updates.php:41-70 | the S3 record is built exactly when the method is `s3`; otherwise the FTP record carries the method; every configured key reaches its field unchanged; each unset key falls back to its own default, whatever else is set: signature `s3`, region `us-east-1`, port by method, passive and usessl true, every other text "" |
| Configuration.EmptyStoreDefaults | releasemaker/step/updates.php:41-69 | with nothing configured the backend is SFTP on port 22, passive, every text empty |
| Configuration.S3Defaults | releasemaker/step/updates.php:45-54 | under `s3` with no object-store key set: TLS on, signature `s3`, region `us-east-1`, other fields empty |
| Configuration.FtpDefaults | releasemaker/step/updates.php:58-69 | under any other method with no transfer key set: port by method, passive on, other fields empty |
| Formats.FormatTable | releasemaker/step/updates.php:89-108 | the switch has an entry exactly for `ini`, `inibare` and `xml` |
| Formats.FormatTableEntries | releasemaker/step/updates.php:89-108 | the entries are (`.ini`, `ini`, none), (none, `ini`, none) and (`.xml`, `xml`, `&task=stream`) |
| Formats.UpdateUrl | releasemaker/step/updates.php:112 | the URL starts with the configured base URL, and its length is the sum of its parts (base, endpoint query, task twice, format, stream id) |
| Formats.ScratchPath | releasemaker/step/updates.php:110 | the scratch path is the scratch directory, a '/', then the base name followed by the format's extension |
| Formats.ScratchFileName | releasemaker/step/updates.php:110 | the file name of a scratch path, as `basename()` sees it, is the base name plus the extension |
| Formats.UpdateUrlFields | releasemaker/step/updates.php:112 | the URL splits back into base URL, endpoint query, task, `&format=`, format value, `&id=`, the stream id exactly as PHP prints it (canonical, parsing back to the stream) and task again at the end; with `UpdateUrl`'s length, every character is fixed |
| Formats.XmlUrlRepeatsTask | releasemaker/step/updates.php:112 | the `xml` URL carries `&task=stream` right after `view=update` and at the very end, and so differs from the `ini` URL |
| Formats.IniVariantsShareUrl | releasemaker/step/updates.php:91-101 | for any scratch directory and base name, `ini` and `inibare` fetch the same URL but use different scratch files |
| Formats.ScratchPathsDistinct | releasemaker/step/updates.php:110 | two different known formats never share a scratch path within a channel |
| Transport.Dispatch | releasemaker/step/updates.php:117-129 | `s3` selects S3, `ftp` or `ftps` select FTP, `sftp` selects SFTP, and any other method selects nothing |
| Transport.DispatchMatchesBackend | releasemaker/step/updates.php:41-70 | the record built for a method suits the client it is dispatched to, with FTP on port 21 and SFTP on port 22 by default |
| Transport.DestinationName | releasemaker/step/updates.php:167-170 | the remote name is the given name unless PHP deems it empty (null, "" or "0"), else the base name of the local file |
| Transport.DefaultNameIsFileName | releasemaker/step/updates.php:206-209 | without a remote name, a file stored as `dir/name` is uploaded as `name` |
| Transport.S3Request | releasemaker/step/updates.php:135-190 | credentials, signature and region are passed through; the scheme is https exactly when usessl is set; a CA bundle is passed exactly when one is defined and usessl is set; the key is `directory/name`; the ACL is public-read exactly when a CDN host is set; storage class and cache control are fixed |
| Transport.Outcome | releasemaker/step/updates.php:192-201 | a transfer that does not raise succeeds; one that raises is turned into `false` for S3 and propagates for FTP/SFTP |
| Transport.UploadFor | releasemaker/step/updates.php:117-129 | an upload happens exactly when the method names a transport; it reads the scratch file, goes to S3 exactly for `s3`, and an FTP/SFTP upload is named by the file's base name |
| Deployment.ReadChannel | releasemaker/step/updates.php:72-75 | a channel's stream, formats and base name are the configured `<prefix>.update.*` values, else 0, no formats and "" |
| Deployment.ArsApiUrl | releasemaker/step/updates.php:75 | the base URL is the configured `common.arsapiurl`, else "" |
| Deployment.Body | releasemaker/step/updates.php:114-115 | the written data is the fetched body, and a failed fetch (PHP `false`) writes an empty file |
| Deployment.Specs | releasemaker/step/updates.php:89-108 | each configured tag is mapped through the format switch, in list order |
| Deployment.Passes | releasemaker/step/updates.php:85-132 | one pass per format, in list order |
| Deployment.PushFormat | releasemaker/step/updates.php:110-131 | one iteration of the format loop equals one pass of the specification |
| Deployment.DeployUpdates | releasemaker/step/updates.php:72-132 | the channel loop yields exactly the specified trace: nothing for an empty base name, else the passes up to the first transfer exception |
| Deployment.Execute | releasemaker/step/updates.php:23-35 | the step runs `core` then, unless it raised, `pro`, matching the specification |
| Deployment.ChainStep | releasemaker/step/updates.php:85-132 | one more iteration appends that pass unless the loop was already cut short |
| Deployment.AbortIsFinal | releasemaker/step/updates.php:85-132 | after an exception the remaining formats change nothing |
| TraceProperties.PassOrder | releasemaker/step/updates.php:114-131 | an iteration is, in this order, the fetch, the write of the fetched data, the upload when a transport is named, and the delete unless the transfer raised |
| TraceProperties.PassEffects | releasemaker/step/updates.php:114-131 | an iteration fetches its URL, writes its scratch file, uploads it when a transport is named, and deletes it unless the transfer raised, which is exactly when the loop is cut short; the actions come in that order |
| TraceProperties.CycleEffects | releasemaker/step/updates.php:110-131 | the same, stated in terms of the format's URL and scratch path, with the body fetched from that URL as the written data |
| TraceProperties.UploadReadsFetchedBody | releasemaker/step/updates.php:114-129 | in a channel's trace every upload comes two actions after a fetch, and replayed on a file system its source file then holds that fetch's body |
| TraceProperties.RunUploadsReadFetchedBody | releasemaker/step/updates.php:23-35 | the same over the whole run of both channels |
| TraceProperties.OneFetchPerFormat | releasemaker/step/updates.php:85-115 | the i-th fetch and write are the i-th format's URL and scratch path; every format is reached unless a transfer raised, and then the last format reached is the one that raised |
| TraceProperties.ScratchFilesDeleted | releasemaker/step/updates.php:110-131 | every scratch file written is deleted, in order; only an exception leaves one, the last one written |
| TraceProperties.UploadsFollowWrites | releasemaker/step/updates.php:114-129 | when the method names a transport, the i-th upload is the request for the i-th scratch file; otherwise nothing is uploaded, yet every format is still fetched, written and deleted and the loop is never cut short |
| TraceProperties.AbortOnlyOnTransferException | releasemaker/step/updates.php:117-131 | the loop ends early only on an FTP/SFTP transfer that raised, and that upload is its last action; a failed S3 put never ends it |
| TraceProperties.NoScratchFileLeft | releasemaker/step/updates.php:110-131 | replayed on a file system, a completed loop removes every scratch file it wrote and changes no other file; a loop cut short leaves its last scratch file |
| TraceProperties.SkippedChannelIsSilent | releasemaker/step/updates.php:77-81 | a channel whose base name is "" or "0" does nothing at all |
| TraceProperties.ChannelFollowsFormats | releasemaker/step/updates.php:72-112 | a channel fetches the URL for its stream and the i-th configured format, and writes that format's scratch file, in list order |
| TraceProperties.ChannelLeavesNoScratchFile | releasemaker/step/updates.php:72-132 | a channel that completes leaves none of its scratch files and no other file changed |
| TraceProperties.CoreBeforePro | releasemaker/step/updates.php:28-32 | the run's trace starts with the `core` trace; an exception in `core` means `pro` does nothing; otherwise the `pro` fetches follow the `core` ones |
| TraceProperties.RunLeavesNoScratchFile | releasemaker/step/updates.php:23-35 | a run that completes leaves none of the scratch files it wrote, and no other file changed |
| Scenario.NoExceptionNoCut | releasemaker/step/updates.php:117-131 | when no transfer raises, the loop reaches every format |
| Scenario.IniThenXml | releasemaker/step/updates.php:85-132 | base name `foo`, formats `ini` then `xml`, method `sftp`: writes `/tmp/foo.ini` then `/tmp/foo.xml`, uploads them as `foo.ini` and `foo.xml`, and leaves neither behind |

## Left out

- The configuration singleton is a value with four typed maps. A key is read
  from the map of its default's type. PHP's loose typing of configuration
  values (a string port, say) is not modelled.
- `realpath` (the scratch directory and the S3 source file) is not modelled:
  the scratch directory is a parameter, and the source file is the scratch path
  unchanged.
- The HTTP fetch, the file write and `unlink` are trace actions. The fetched
  body is an input function of the URL; `None` stands for a failed fetch.
  Warnings that PHP prints when the fetch, a write or an unlink fails are not
  modelled.
- The AWS SDK (credentials, client factory, `putObject`) is not modelled. The
  model stops at the client options and the put operation; whether the put
  raises is an input.
- Transport.Outcome: an exception while building the S3 credentials or client
  (before the `try` around `putObject`) would propagate and end the run; the
  model treats only the put as able to raise.
- The `ArmFtp` and `ArmSftp` classes are not part of this model. The model
  records only the record, source path and remote name they are called with,
  and whether the call raises, which is an input.
- The `AKEEBA_CACERT_PEM` constant is an optional input.
- The `echo` progress output is not modelled.
- A format tag outside `ini`, `inibare` and `xml` is excluded by the
  precondition `Ready`. The source's switch has no default branch, so such a
  tag would reuse the previous iteration's extension, format and task (or
  undefined variables on the first iteration). This applies only to a channel
  with a non-empty base name, since one with an empty base name never reaches
  the format switch.
- Timeouts and retries do not exist in the source and are not modelled.
- Scenario.IniThenXml: does not state the contents written to the scratch
  files; only their paths, the uploads and the final file system. The
  contents are stated in general by TraceProperties.UploadReadsFetchedBody.
