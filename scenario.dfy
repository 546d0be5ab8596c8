/**
 * A worked channel: base name `foo`, formats `ini` then `xml`, scratch
 * directory `/tmp`, method `sftp`, no transfer raising. Both descriptors are
 * written, uploaded under their file names (the `xml` one as `foo.xml`) and
 * deleted again.
 */
module Scenario {
  import opened Wrappers
  import opened Php
  import opened Configuration
  import opened Formats
  import opened Transport
  import opened Deployment
  import opened TraceProperties

  /** The two scratch paths of the channel. */
  lemma FooPaths(ctx: Context)
    requires ctx.channel.basename == "foo" && ctx.tempPath == "/tmp"
    ensures PathFor(ctx, FormatTable("ini").value) == "/tmp/foo.ini"
    ensures PathFor(ctx, FormatTable("xml").value) == "/tmp/foo.xml"
  {
    FormatTableEntries();
  }

  /** Their base names, which become the remote names. */
  lemma FooNames()
    ensures BaseName("/tmp/foo.ini") == "foo.ini" && BaseName("/tmp/foo.xml") == "foo.xml"
  {
    assert "/tmp/foo.ini" == "/tmp" + "/" + "foo.ini";
    assert "/tmp/foo.xml" == "/tmp" + "/" + "foo.xml";
    BaseNameOfJoin("/tmp", "foo.ini");
    BaseNameOfJoin("/tmp", "foo.xml");
  }

  /** Under `sftp`, the request for a file is the SFTP upload of that file under its base name. */
  lemma SftpRequest(st: Store, path: string, caBundle: Option<string>)
    requires UpdateMethod(st) == "sftp"
    ensures UploadFor(st, path, caBundle) == Some(SftpUpload(ResolveBackend(st).ftp, path, BaseName(path)))
  {
  }

  /** When no transfer raises, the loop reaches every format. */
  lemma NoExceptionNoCut(ctx: Context, specs: seq<FormatSpec>)
    requires forall q :: !ctx.env.raises(q)
    ensures !Cycles(ctx, specs).aborted
  {
    AbortOnlyOnTransferException(ctx, specs);
  }

  /** The format table applied to `ini`, `xml`. */
  function FooSpecs(): seq<FormatSpec> {
    [FormatTable("ini").value, FormatTable("xml").value]
  }

  /** The loop writes `foo.ini`, then `foo.xml`, and removes both. */
  lemma FooWrites(ctx: Context, files: map<string, string>)
    requires ctx.channel.basename == "foo" && ctx.tempPath == "/tmp"
    requires !Cycles(ctx, FooSpecs()).aborted
    ensures var r := Cycles(ctx, FooSpecs());
            && Written(r.trace) == ["/tmp/foo.ini", "/tmp/foo.xml"]
            && Replay(files, r.trace) == files - {"/tmp/foo.ini", "/tmp/foo.xml"}
  {
    var specs := FooSpecs();
    var r := Cycles(ctx, specs);
    OneFetchPerFormat(ctx, specs);
    NoScratchFileLeft(ctx, specs, files);
    FooScratchPaths(ctx);
    FooLeftovers(Written(r.trace), ScratchPaths(ctx, specs), Replay(files, r.trace), files);
  }

  /** Both scratch paths written, and a file system with exactly those removed. */
  lemma FooLeftovers(written: seq<string>, paths: seq<string>, replayed: map<string, string>, files: map<string, string>)
    requires paths == ["/tmp/foo.ini", "/tmp/foo.xml"]
    requires |written| == |paths| && written == paths[..|written|]
    requires replayed == files - ToSet(written)
    ensures written == ["/tmp/foo.ini", "/tmp/foo.xml"]
    ensures replayed == files - {"/tmp/foo.ini", "/tmp/foo.xml"}
  {
    assert written == paths;
    assert ToSet(paths) == {"/tmp/foo.ini", "/tmp/foo.xml"};
  }

  /** The scratch paths of `ini` then `xml`. */
  lemma FooScratchPaths(ctx: Context)
    requires ctx.channel.basename == "foo" && ctx.tempPath == "/tmp"
    ensures ScratchPaths(ctx, FooSpecs()) == ["/tmp/foo.ini", "/tmp/foo.xml"]
  {
    var p := ScratchPaths(ctx, FooSpecs());
    FooPaths(ctx);
    Pair(p, "/tmp/foo.ini", "/tmp/foo.xml");
  }

  /** ... and uploads each under its file name. */
  lemma FooUploads(ctx: Context)
    requires Written(Cycles(ctx, FooSpecs()).trace) == ["/tmp/foo.ini", "/tmp/foo.xml"]
    requires UpdateMethod(ctx.st) == "sftp"
    ensures var ftp := ResolveBackend(ctx.st).ftp;
            Uploads(Cycles(ctx, FooSpecs()).trace) == [SftpUpload(ftp, "/tmp/foo.ini", "foo.ini"), SftpUpload(ftp, "/tmp/foo.xml", "foo.xml")]
  {
    var r := Cycles(ctx, FooSpecs());
    UploadsFollowWrites(ctx, FooSpecs());
    SftpPair(ctx.st, Written(r.trace), Uploads(r.trace), ctx.env.caBundle);
    FooNames();
  }

  /** Under `sftp`, two scratch files give two SFTP uploads, each under its base name. */
  lemma SftpPair(st: Store, w: seq<string>, u: seq<UploadRequest>, caBundle: Option<string>)
    requires UpdateMethod(st) == "sftp"
    requires |w| == 2 && |u| == 2
    requires forall i :: 0 <= i < |u| ==> Some(u[i]) == UploadFor(st, w[i], caBundle)
    ensures u == [SftpUpload(ResolveBackend(st).ftp, w[0], BaseName(w[0])), SftpUpload(ResolveBackend(st).ftp, w[1], BaseName(w[1]))]
  {
    var cfg := ResolveBackend(st).ftp;
    var a, b := SftpUpload(cfg, w[0], BaseName(w[0])), SftpUpload(cfg, w[1], BaseName(w[1]));
    SftpRequest(st, w[0], caBundle);
    SftpRequest(st, w[1], caBundle);
    assert Some(u[0]) == UploadFor(st, w[0], caBundle) == Some(a);
    assert Some(u[1]) == UploadFor(st, w[1], caBundle) == Some(b);
    Pair(u, a, b);
  }

  lemma Pair<T>(u: seq<T>, a: T, b: T)
    requires |u| == 2 && u[0] == a && u[1] == b
    ensures u == [a, b]
  {
  }

  /** The whole channel: both formats reached, both uploaded, no scratch file left. */
  lemma IniThenXml(ctx: Context, files: map<string, string>)
    requires ctx.channel.basename == "foo" && ctx.tempPath == "/tmp"
    requires UpdateMethod(ctx.st) == "sftp"
    requires forall q :: !ctx.env.raises(q)
    ensures var r := Cycles(ctx, Specs(["ini", "xml"]));
            var ftp := ResolveBackend(ctx.st).ftp;
            && !r.aborted
            && Written(r.trace) == ["/tmp/foo.ini", "/tmp/foo.xml"]
            && Uploads(r.trace) == [SftpUpload(ftp, "/tmp/foo.ini", "foo.ini"), SftpUpload(ftp, "/tmp/foo.xml", "foo.xml")]
            && Replay(files, r.trace) == files - {"/tmp/foo.ini", "/tmp/foo.xml"}
  {
    assert Specs(["ini", "xml"]) == FooSpecs();
    NoExceptionNoCut(ctx, FooSpecs());
    FooWrites(ctx, files);
    FooUploads(ctx);
  }
}
