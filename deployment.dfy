/**
 * The update-deployment step itself (`execute` and `deployUpdates`): for each
 * channel, for each of its formats, fetch the descriptor, write it to a scratch
 * file, hand that file to the transport, and delete it.
 *
 * Everything the step does to the outside world is recorded as an action in a
 * trace. What the outside world answers (the body the rendering endpoint
 * returns, whether a transfer raises, whether a CA bundle is defined) is an
 * input, the `Environment`.
 */
module Deployment {

  import opened Wrappers
  import opened Php
  import opened Configuration
  import opened Formats
  import opened Transport

  /** One effect on the outside world. */
  datatype Action =
    | Fetch(url: string)                                     // HTTP GET of the rendering endpoint
    | Write(path: string, data: string)                      // the scratch file is (over)written
    | Upload(request: UploadRequest, outcome: UploadOutcome) // a transport client is called
    | Delete(path: string)                                   // the scratch file is unlinked

  /**
   * The answers of the outside world: the body of a URL (None when the fetch
   * fails), whether a transfer raises, and the CA bundle if one is defined.
   */
  datatype Environment = Environment(
    respond: string -> Option<string>,
    raises: UploadRequest -> bool,
    caBundle: Option<string>)

  /** A channel's settings: stream id, format tags in order, file base name. */
  datatype Channel = Channel(stream: int, tags: seq<string>, basename: string)

  /** The channel's settings: each is the configured value under `<prefix>.update.*`, else 0, no formats, "". */
  function ReadChannel(st: Store, prefix: string): (ch: Channel)
    ensures prefix + ".update.stream" in st.numbers ==> ch.stream == st.numbers[prefix + ".update.stream"]
    ensures prefix + ".update.stream" !in st.numbers ==> ch.stream == 0
    ensures prefix + ".update.formats" in st.lists ==> ch.tags == st.lists[prefix + ".update.formats"]
    ensures prefix + ".update.formats" !in st.lists ==> ch.tags == []
    ensures prefix + ".update.basename" in st.texts ==> ch.basename == st.texts[prefix + ".update.basename"]
    ensures prefix + ".update.basename" !in st.texts ==> ch.basename == ""
  {
    Channel(
      Number(st, prefix + ".update.stream", 0),
      List(st, prefix + ".update.formats", []),
      Text(st, prefix + ".update.basename", ""))
  }

  /** The release system's base URL; "" when none is configured. */
  function ArsApiUrl(st: Store): (url: string)
    ensures "common.arsapiurl" in st.texts ==> url == st.texts["common.arsapiurl"]
    ensures "common.arsapiurl" !in st.texts ==> url == ""
  {
    Text(st, "common.arsapiurl", "")
  }

  /** What a run did, and whether a transfer exception cut it short. */
  datatype Run = Run(trace: seq<Action>, aborted: bool)

  /** Everything one channel's format loop depends on. */
  datatype Context = Context(st: Store, channel: Channel, tempPath: string, env: Environment)

  function FetchUrl(ctx: Context, spec: FormatSpec): string {
    UpdateUrl(ArsApiUrl(ctx.st), spec, ctx.channel.stream)
  }

  function PathFor(ctx: Context, spec: FormatSpec): string {
    ScratchPath(ctx.tempPath, ctx.channel.basename, spec)
  }

  /** What gets written: the body, or the empty string when the fetch returned false. */
  function Body(response: Option<string>): (data: string)
    ensures response.Some? ==> data == response.value
    ensures response.None? ==> data == ""
  {
    response.GetOr("")
  }

  predicate AllKnown(tags: seq<string>) {
    forall i :: 0 <= i < |tags| ==> Known(tags[i])
  }

  /** The format switch applied to each tag of a list, in order. */
  function Specs(tags: seq<string>): (specs: seq<FormatSpec>)
    requires AllKnown(tags)
    ensures |specs| == |tags|
    ensures forall i :: 0 <= i < |tags| ==> FormatTable(tags[i]) == Some(specs[i])
    decreases |tags|
  {
    if tags == [] then [] else Specs(tags[..|tags| - 1]) + [FormatTable(tags[|tags| - 1]).value]
  }

  /**
   * The actions of one pass, given the URL fetched, the scratch path, the data
   * written there, the transfer the method calls for (if any) and whether the
   * transport raises on it.
   */
  function Pass(url: string, path: string, data: string, request: Option<UploadRequest>, raises: UploadRequest -> bool): Run {
    var fetched := [Fetch(url), Write(path, data)];
    match request
    case None => Run(fetched + [Delete(path)], false)
    case Some(req) =>
      var outcome := Outcome(req, raises(req));
      if outcome == Raised then Run(fetched + [Upload(req, outcome)], true)
      else Run(fetched + [Upload(req, outcome)] + [Delete(path)], false)
  }

  /** One pass of the format loop. */
  function Cycle(ctx: Context, spec: FormatSpec): Run {
    var url := FetchUrl(ctx, spec);
    var path := PathFor(ctx, spec);
    Pass(url, path, Body(ctx.env.respond(url)), UploadFor(ctx.st, path, ctx.env.caBundle), ctx.env.raises)
  }

  /** The passes in order, up to and including the first one cut short by a transfer exception. */
  function Chain(passes: seq<Run>): Run
    decreases |passes|
  {
    if passes == [] then Run([], false)
    else
      var done := Chain(passes[..|passes| - 1]);
      var last := passes[|passes| - 1];
      if done.aborted then done else Run(done.trace + last.trace, last.aborted)
  }

  /** One pass per format, in list order. */
  function Passes(ctx: Context, specs: seq<FormatSpec>): (passes: seq<Run>)
    ensures |passes| == |specs|
    ensures forall i :: 0 <= i < |specs| ==> passes[i] == Cycle(ctx, specs[i])
  {
    seq(|specs|, i requires 0 <= i < |specs| => Cycle(ctx, specs[i]))
  }

  /** The format loop over `specs`, stopping at the first transfer exception. */
  function Cycles(ctx: Context, specs: seq<FormatSpec>): Run {
    Chain(Passes(ctx, specs))
  }

  /** The format switch has no default branch: every tag of a channel that publishes must be known. */
  predicate Ready(st: Store, prefix: string) {
    var ch := ReadChannel(st, prefix);
    !Empty(ch.basename) ==> AllKnown(ch.tags)
  }

  function ChannelContext(st: Store, prefix: string, tempPath: string, env: Environment): Context {
    Context(st, ReadChannel(st, prefix), tempPath, env)
  }

  /** `deployUpdates(prefix)`: nothing for an empty base name, else the format loop. */
  function ChannelRun(st: Store, prefix: string, tempPath: string, env: Environment): Run
    requires Ready(st, prefix)
  {
    var ctx := ChannelContext(st, prefix, tempPath, env);
    if Empty(ctx.channel.basename) then Run([], false) else Cycles(ctx, Specs(ctx.channel.tags))
  }

  /** `execute`: the `core` channel, then (unless it raised) the `pro` channel. */
  function RunAll(st: Store, tempPath: string, env: Environment): Run
    requires Ready(st, "core") && Ready(st, "pro")
  {
    var core := ChannelRun(st, "core", tempPath, env);
    if core.aborted then core
    else
      var pro := ChannelRun(st, "pro", tempPath, env);
      Run(core.trace + pro.trace, pro.aborted)
  }

  // ---------------------------------------------------------------------------
  // The step as the source runs it

  /**
   * `deployUpdates`: resolves the backend, reads the channel, and runs the
   * format loop; `aborted` reports a transfer exception, which ends the loop.
   */
  method DeployUpdates(st: Store, prefix: string, tempPath: string, env: Environment)
    returns (trace: seq<Action>, aborted: bool)
    requires Ready(st, prefix)
    ensures Run(trace, aborted) == ChannelRun(st, prefix, tempPath, env)
  {
    var kind := UpdateMethod(st);
    var config := ResolveBackend(st);
    var channel := ReadChannel(st, prefix);
    var url := ArsApiUrl(st);
    ghost var ctx := ChannelContext(st, prefix, tempPath, env);
    trace, aborted := [], false;
    if Empty(channel.basename) {
      return;
    }
    var formats := channel.tags;
    ghost var specs := Specs(formats);
    ghost var passes := Passes(ctx, specs);
    var i := 0;
    while i < |formats| && !aborted
      invariant 0 <= i <= |formats|
      invariant Run(trace, aborted) == Chain(passes[..i])
    {
      var spec := FormatTable(formats[i]).value;
      var step, cut := PushFormat(st, kind, config, url, channel, tempPath, env, spec);
      assert spec == specs[i];
      ChainStep(passes, i);
      trace, aborted := trace + step, cut;
      i := i + 1;
    }
    if aborted {
      AbortIsFinal(passes, i);
    } else {
      assert passes[..i] == passes;
    }
  }

  /**
   * One pass of the loop in `deployUpdates`: fetch the format's descriptor,
   * write it to the scratch file, hand that file to the transport the method
   * names, and delete it unless the transfer raised.
   */
  method PushFormat(st: Store, kind: string, config: Backend, url: string, channel: Channel, tempPath: string,
                    env: Environment, spec: FormatSpec)
    returns (step: seq<Action>, aborted: bool)
    requires kind == UpdateMethod(st) && config == ResolveBackend(st) && url == ArsApiUrl(st)
    ensures Run(step, aborted) == Cycle(Context(st, channel, tempPath, env), spec)
  {
    var tempFilename := ScratchPath(tempPath, channel.basename, spec);
    var updateUrl := UpdateUrl(url, spec, channel.stream);
    var data := Body(env.respond(updateUrl));
    step := [Fetch(updateUrl), Write(tempFilename, data)];
    var request: Option<UploadRequest> := None;
    match Dispatch(kind) {
      case Some(S3Protocol) =>
        request := Some(S3Upload(S3Request(config.s3, tempFilename, None, env.caBundle)));
      case Some(FtpProtocol) =>
        request := Some(FtpUpload(config.ftp, tempFilename, DestinationName(tempFilename, None)));
      case Some(SftpProtocol) =>
        request := Some(SftpUpload(config.ftp, tempFilename, DestinationName(tempFilename, None)));
      case None =>
    }
    assert request == UploadFor(st, tempFilename, env.caBundle);
    aborted := false;
    if request.Some? {
      var outcome := Outcome(request.value, env.raises(request.value));
      step := step + [Upload(request.value, outcome)];
      aborted := outcome == Raised;
    }
    if !aborted {
      step := step + [Delete(tempFilename)];
    }
  }

  /** `execute`: pushes the `core` updates, then the `pro` ones; an exception from `core` ends the run. */
  method Execute(st: Store, tempPath: string, env: Environment) returns (trace: seq<Action>, aborted: bool)
    requires Ready(st, "core") && Ready(st, "pro")
    ensures Run(trace, aborted) == RunAll(st, tempPath, env)
  {
    trace, aborted := DeployUpdates(st, "core", tempPath, env);
    if !aborted {
      var proTrace, proAborted := DeployUpdates(st, "pro", tempPath, env);
      trace, aborted := trace + proTrace, proAborted;
    }
  }

  /** Extending the passes by one runs that pass after the others, unless they were cut short. */
  lemma ChainStep(passes: seq<Run>, i: nat)
    requires i < |passes|
    ensures var done := Chain(passes[..i]);
            Chain(passes[..i + 1]) == if done.aborted then done else Run(done.trace + passes[i].trace, passes[i].aborted)
  {
    assert passes[..i + 1][..i] == passes[..i];
  }

  /** Once the loop has been cut short, the later passes change nothing. */
  lemma {:induction false} AbortIsFinal(passes: seq<Run>, i: nat)
    requires i <= |passes|
    requires Chain(passes[..i]).aborted
    ensures Chain(passes) == Chain(passes[..i])
    decreases |passes| - i
  {
    if i < |passes| {
      var next := passes[..i + 1];
      assert next[..i] == passes[..i];
      assert Chain(next) == Chain(passes[..i]);
      AbortIsFinal(passes, i + 1);
    } else {
      assert passes[..i] == passes;
    }
  }
}
