/**
 * What the deployment step's trace guarantees: one fetch and one scratch file
 * per format, in list order; each scratch file uploaded (when the method names
 * a transport) and then deleted; an early end only on a transfer exception;
 * and, replayed on a file system, no scratch file left behind by a run that
 * completes.
 */
module TraceProperties {

  import opened Wrappers
  import opened Php
  import opened Configuration
  import opened Formats
  import opened Transport
  import opened Deployment

  // ---------------------------------------------------------------------------
  // Views of a trace

  /** What a view picks out of each action, collected over a trace in order. */
  function Collect<T>(t: seq<Action>, pick: Action -> seq<T>): seq<T>
    decreases |t|
  {
    if t == [] then [] else Collect(t[..|t| - 1], pick) + pick(t[|t| - 1])
  }

  function FetchOf(a: Action): seq<string> {
    if a.Fetch? then [a.url] else []
  }

  function WriteOf(a: Action): seq<string> {
    if a.Write? then [a.path] else []
  }

  function DeleteOf(a: Action): seq<string> {
    if a.Delete? then [a.path] else []
  }

  function UploadOf(a: Action): seq<UploadRequest> {
    if a.Upload? then [a.request] else []
  }

  /** The URLs fetched, in order. */
  function Fetches(t: seq<Action>): seq<string> {
    Collect(t, FetchOf)
  }

  /** The scratch files written, in order. */
  function Written(t: seq<Action>): seq<string> {
    Collect(t, WriteOf)
  }

  /** The scratch files deleted, in order. */
  function Deleted(t: seq<Action>): seq<string> {
    Collect(t, DeleteOf)
  }

  /** The upload requests made, in order. */
  function Uploads(t: seq<Action>): seq<UploadRequest> {
    Collect(t, UploadOf)
  }

  /** The local files, as a map from path to contents, after one action. */
  function Apply(files: map<string, string>, a: Action): map<string, string> {
    match a
    case Write(path, data) => files[path := data]
    case Delete(path) => files - {path}
    case _ => files
  }

  /** The local files after a whole trace. */
  function Replay(files: map<string, string>, t: seq<Action>): map<string, string>
    decreases |t|
  {
    if t == [] then files else Apply(Replay(files, t[..|t| - 1]), t[|t| - 1])
  }

  function ToSet(s: seq<string>): set<string> {
    set x | x in s
  }

  lemma {:induction false} CollectSplit<T>(a: seq<Action>, b: seq<Action>, pick: Action -> seq<T>)
    ensures Collect(a + b, pick) == Collect(a, pick) + Collect(b, pick)
    decreases |b|
  {
    if b == [] {
      assert a + b == a;
    } else {
      assert (a + b)[..|a + b| - 1] == a + b[..|b| - 1];
      CollectSplit(a, b[..|b| - 1], pick);
    }
  }

  lemma {:induction false} ReplaySplit(files: map<string, string>, a: seq<Action>, b: seq<Action>)
    ensures Replay(files, a + b) == Replay(Replay(files, a), b)
    decreases |b|
  {
    if b == [] {
      assert a + b == a;
    } else {
      assert (a + b)[..|a + b| - 1] == a + b[..|b| - 1];
      ReplaySplit(files, a, b[..|b| - 1]);
    }
  }

  /** Every view of a trace splits along a concatenation, and replaying it is replaying its halves. */
  lemma Distribute(a: seq<Action>, b: seq<Action>, files: map<string, string>)
    ensures Fetches(a + b) == Fetches(a) + Fetches(b)
    ensures Written(a + b) == Written(a) + Written(b)
    ensures Deleted(a + b) == Deleted(a) + Deleted(b)
    ensures Uploads(a + b) == Uploads(a) + Uploads(b)
    ensures Replay(files, a + b) == Replay(Replay(files, a), b)
  {
    CollectSplit(a, b, FetchOf);
    CollectSplit(a, b, WriteOf);
    CollectSplit(a, b, DeleteOf);
    CollectSplit(a, b, UploadOf);
    ReplaySplit(files, a, b);
  }

  lemma CollectOne<T>(a: Action, pick: Action -> seq<T>)
    ensures Collect([a], pick) == pick(a)
  {
    assert [a][..|[a]| - 1] == [];
    assert Collect([a], pick) == Collect([], pick) + pick(a);
  }

  lemma One(a: Action, files: map<string, string>)
    ensures Fetches([a]) == (if a.Fetch? then [a.url] else [])
    ensures Written([a]) == (if a.Write? then [a.path] else [])
    ensures Deleted([a]) == (if a.Delete? then [a.path] else [])
    ensures Uploads([a]) == (if a.Upload? then [a.request] else [])
    ensures Replay(files, [a]) == Apply(files, a)
  {
    CollectOne(a, FetchOf);
    CollectOne(a, WriteOf);
    CollectOne(a, DeleteOf);
    CollectOne(a, UploadOf);
    assert [a][..0] == [];
  }

  // ---------------------------------------------------------------------------
  // One pass of the format loop

  /** The upload list a single pass contributes. */
  function UploadList(r: Option<UploadRequest>): seq<UploadRequest> {
    if r.Some? then [r.value] else []
  }

  /** The views of a pass's first two actions: the fetch and the write of its body. */
  lemma HeadViews(url: string, path: string, data: string, files: map<string, string>)
    ensures var head := [Fetch(url), Write(path, data)];
            && Fetches(head) == [url] && Written(head) == [path]
            && Deleted(head) == [] && Uploads(head) == []
            && Replay(files, head) == files[path := data]
  {
    var fetch, write := Fetch(url), Write(path, data);
    One(fetch, files);
    One(write, files);
    assert [fetch, write] == [fetch] + [write];
    Distribute([fetch], [write], files);
  }

  /** The views of a trace extended by one action. */
  lemma Extend(t: seq<Action>, a: Action, files: map<string, string>)
    ensures Fetches(t + [a]) == Fetches(t) + (if a.Fetch? then [a.url] else [])
    ensures Written(t + [a]) == Written(t) + (if a.Write? then [a.path] else [])
    ensures Deleted(t + [a]) == Deleted(t) + (if a.Delete? then [a.path] else [])
    ensures Uploads(t + [a]) == Uploads(t) + (if a.Upload? then [a.request] else [])
    ensures Replay(files, t + [a]) == Apply(Replay(files, t), a)
  {
    One(a, Replay(files, t));
    Distribute(t, [a], files);
  }

  /**
   * The order inside a pass: the fetch, then the write of its data, then the
   * upload (when there is a transfer to make), then the delete (unless the
   * transfer raised); nothing else.
   */
  lemma PassOrder(url: string, path: string, data: string, request: Option<UploadRequest>, raises: UploadRequest -> bool)
    ensures var p := Pass(url, path, data, request, raises);
            && |p.trace| == 2 + |UploadList(request)| + (if p.aborted then 0 else 1)
            && p.trace[0] == Fetch(url) && p.trace[1] == Write(path, data)
            && (request.Some? ==> p.trace[2] == Upload(request.value, Outcome(request.value, raises(request.value))))
            && (!p.aborted ==> Last(p.trace) == Delete(path))
  {
  }

  /**
   * A pass fetches its URL, writes the data to its scratch path, uploads that
   * path when there is a transfer to make, and deletes it unless the transfer
   * raised, which is exactly when the pass is cut short.
   */
  lemma PassEffects(url: string, path: string, data: string, request: Option<UploadRequest>, raises: UploadRequest -> bool, files: map<string, string>)
    ensures var p := Pass(url, path, data, request, raises);
            && Fetches(p.trace) == [url]
            && Written(p.trace) == [path]
            && Deleted(p.trace) == (if p.aborted then [] else [path])
            && Uploads(p.trace) == UploadList(request)
            && Replay(files, p.trace) == (if p.aborted then files[path := data] else files - {path})
            && (p.aborted <==> request.Some? && Outcome(request.value, raises(request.value)) == Raised)
            && (p.aborted ==> p.trace != [] && Last(p.trace) == Upload(request.value, Raised))
            && |p.trace| == 2 + |UploadList(request)| + (if p.aborted then 0 else 1)
            && p.trace[0] == Fetch(url) && p.trace[1] == Write(path, data)
            && (request.Some? ==> p.trace[2] == Upload(request.value, Outcome(request.value, raises(request.value))))
            && (!p.aborted ==> Last(p.trace) == Delete(path))
  {
    PassOrder(url, path, data, request, raises);
    var p := Pass(url, path, data, request, raises);
    var head := [Fetch(url), Write(path, data)];
    HeadViews(url, path, data, files);
    if request.None? {
      assert p.trace == head + [Delete(path)];
      Extend(head, Delete(path), files);
    } else {
      var outcome := Outcome(request.value, raises(request.value));
      var up := Upload(request.value, outcome);
      Extend(head, up, files);
      if outcome == Raised {
        assert p.trace == head + [up];
      } else {
        assert p.trace == head + [up] + [Delete(path)];
        Extend(head + [up], Delete(path), files);
      }
    }
  }

  /** One pass of the format loop, in the terms of its format and channel. */
  lemma CycleEffects(ctx: Context, spec: FormatSpec, files: map<string, string>)
    ensures var c := Cycle(ctx, spec);
            var url := FetchUrl(ctx, spec);
            var path := PathFor(ctx, spec);
            var request := UploadFor(ctx.st, path, ctx.env.caBundle);
            && Fetches(c.trace) == [url]
            && Written(c.trace) == [path]
            && Deleted(c.trace) == (if c.aborted then [] else [path])
            && Uploads(c.trace) == UploadList(request)
            && Replay(files, c.trace) == (if c.aborted then files[path := Body(ctx.env.respond(url))] else files - {path})
            && (c.aborted <==> request.Some? && Outcome(request.value, ctx.env.raises(request.value)) == Raised)
            && (c.aborted ==> c.trace != [] && Last(c.trace) == Upload(request.value, Raised))
            && |c.trace| == 2 + |UploadList(request)| + (if c.aborted then 0 else 1)
            && c.trace[0] == Fetch(url) && c.trace[1] == Write(path, Body(ctx.env.respond(url)))
            && (request.Some? ==> c.trace[2] == Upload(request.value, Outcome(request.value, ctx.env.raises(request.value))))
            && (!c.aborted ==> Last(c.trace) == Delete(path))
  {
    var url := FetchUrl(ctx, spec);
    var path := PathFor(ctx, spec);
    PassEffects(url, path, Body(ctx.env.respond(url)), UploadFor(ctx.st, path, ctx.env.caBundle), ctx.env.raises, files);
  }

  // ---------------------------------------------------------------------------
  // A chain of passes

  function Last<T>(t: seq<T>): T
    requires t != []
  {
    t[|t| - 1]
  }

  /** The traces of some passes, one after the other. */
  function Joined(runs: seq<Run>): seq<Action>
    decreases |runs|
  {
    if runs == [] then [] else Joined(runs[..|runs| - 1]) + runs[|runs| - 1].trace
  }

  /** A chain that is not cut short runs every pass, and none of them was cut short. */
  lemma {:induction false} ChainComplete(runs: seq<Run>)
    requires !Chain(runs).aborted
    ensures Reach(runs) == |runs| && Chain(runs).trace == Joined(runs)
    ensures forall i :: 0 <= i < |runs| ==> !runs[i].aborted
    decreases |runs|
  {
    if runs != [] {
      var init := runs[..|runs| - 1];
      ChainComplete(init);
      assert forall i :: 0 <= i < |init| ==> init[i] == runs[i];
    }
  }

  /** The first `n` passes run the first `n - 1`, then the `n`-th. */
  lemma JoinedPrefix(runs: seq<Run>, n: nat)
    requires 1 <= n <= |runs|
    ensures Joined(runs[..n]) == Joined(runs[..n - 1]) + runs[n - 1].trace
  {
    assert runs[..n][..n - 1] == runs[..n - 1];
  }

  /** How many passes a chain runs: all of them, or up to and including the first one cut short. */
  function Reach(runs: seq<Run>): (n: nat)
    ensures n <= |runs|
    ensures Chain(runs).aborted ==> n >= 1
    decreases |runs|
  {
    if runs == [] then 0
    else if Chain(runs[..|runs| - 1]).aborted then Reach(runs[..|runs| - 1])
    else |runs|
  }

  /**
   * A chain runs the passes it reaches one after the other; it is cut short
   * exactly when the last pass it reaches was, and otherwise reaches them all.
   */
  lemma {:induction false} ChainIsJoined(runs: seq<Run>)
    ensures var n := Reach(runs);
            var r := Chain(runs);
            && r.trace == Joined(runs[..n])
            && r.aborted == (n >= 1 && runs[n - 1].aborted)
            && (!r.aborted ==> n == |runs|)
            && (forall i :: 0 <= i < n - 1 ==> !runs[i].aborted)
    decreases |runs|
  {
    if runs != [] {
      var m := |runs| - 1;
      var init := runs[..m];
      ChainIsJoined(init);
      if Chain(init).aborted {
        var n := Reach(init);
        assert Reach(runs) == n && Chain(runs) == Chain(init);
        assert runs[..n] == init[..n];
        assert forall i :: 0 <= i < n ==> init[i] == runs[i];
      } else {
        assert Reach(init) == m && Reach(runs) == |runs|;
        assert Chain(runs) == Run(Chain(init).trace + runs[m].trace, runs[m].aborted);
        assert forall i :: 0 <= i < m ==> init[i] == runs[i];
        assert init[..m] == init;
        assert runs[..|runs|] == runs;
      }
    }
  }

  /** A view to which each of some passes contributes one element lists those elements, in order. */
  lemma {:induction false} JoinedSingletons<T>(runs: seq<Run>, pick: Action -> seq<T>, xs: seq<T>)
    requires |xs| == |runs|
    requires forall i :: 0 <= i < |runs| ==> Collect(runs[i].trace, pick) == [xs[i]]
    ensures Collect(Joined(runs), pick) == xs
    decreases |runs|
  {
    if runs != [] {
      var m := |runs| - 1;
      JoinedSingletons(runs[..m], pick, xs[..m]);
      CollectSplit(Joined(runs[..m]), runs[m].trace, pick);
      assert xs == xs[..m] + [xs[m]];
    }
  }

  /** A view to which none of some passes contributes stays empty. */
  lemma {:induction false} JoinedEmpty<T>(runs: seq<Run>, pick: Action -> seq<T>)
    requires forall i :: 0 <= i < |runs| ==> Collect(runs[i].trace, pick) == []
    ensures Collect(Joined(runs), pick) == []
    decreases |runs|
  {
    if runs != [] {
      var m := |runs| - 1;
      JoinedEmpty(runs[..m], pick);
      CollectSplit(Joined(runs[..m]), runs[m].trace, pick);
    }
  }

  /**
   * Replayed on a file system, passes that each remove their own scratch file
   * remove all of them and touch nothing else.
   */
  lemma {:induction false} JoinedReplay(runs: seq<Run>, paths: seq<string>, files: map<string, string>)
    requires |paths| == |runs|
    requires forall i, m :: 0 <= i < |runs| ==> Replay(m, runs[i].trace) == m - {paths[i]}
    ensures Replay(files, Joined(runs)) == files - ToSet(paths)
    decreases |runs|
  {
    if runs == [] {
      assert ToSet(paths) == {};
      assert files - {} == files;
    } else {
      var m := |runs| - 1;
      var init := paths[..m];
      JoinedReplay(runs[..m], init, files);
      ReplaySplit(files, Joined(runs[..m]), runs[m].trace);
      assert ToSet(paths) == ToSet(init) + {paths[m]} by {
        assert paths == init + [paths[m]];
      }
      assert (files - ToSet(init)) - {paths[m]} == files - (ToSet(init) + {paths[m]});
    }
  }

  /** A view to which every pass contributes one element: the chain shows those of the passes it reaches. */
  lemma ChainSingletons<T>(runs: seq<Run>, pick: Action -> seq<T>, xs: seq<T>)
    requires |xs| == |runs|
    requires forall i :: 0 <= i < |runs| ==> Collect(runs[i].trace, pick) == [xs[i]]
    ensures Collect(Chain(runs).trace, pick) == xs[..Reach(runs)]
  {
    ChainIsJoined(runs);
    var n := Reach(runs);
    JoinedSingletons(runs[..n], pick, xs[..n]);
  }

  /**
   * When every pass fetches one URL and writes one file, a chain fetches and
   * writes those of the passes it reaches, and a cut chain ends in a pass that
   * was cut.
   */
  lemma ChainFetchWrite(runs: seq<Run>, urls: seq<string>, paths: seq<string>)
    requires |urls| == |runs| && |paths| == |runs|
    requires forall i :: 0 <= i < |runs| ==> Fetches(runs[i].trace) == [urls[i]] && Written(runs[i].trace) == [paths[i]]
    ensures var r := Chain(runs);
            var n := |Written(r.trace)|;
            && n <= |runs|
            && Fetches(r.trace) == urls[..n]
            && Written(r.trace) == paths[..n]
            && (!r.aborted ==> n == |runs|)
            && (r.aborted ==> n >= 1 && runs[n - 1].aborted)
  {
    ChainIsJoined(runs);
    ChainSingletons(runs, FetchOf, urls);
    ChainSingletons(runs, WriteOf, paths);
  }

  /**
   * When every pass writes one file and uploads at most one request, all or
   * none of them, a chain uploads the requests of the passes it reaches.
   */
  lemma ChainUploads(runs: seq<Run>, paths: seq<string>, reqs: seq<Option<UploadRequest>>, none: bool)
    requires |paths| == |runs| && |reqs| == |runs|
    requires forall i :: 0 <= i < |runs| ==>
               && Written(runs[i].trace) == [paths[i]]
               && Uploads(runs[i].trace) == UploadList(reqs[i])
               && reqs[i].None? == none
    ensures var w := Written(Chain(runs).trace);
            var u := Uploads(Chain(runs).trace);
            && |w| <= |runs|
            && |u| == (if none then 0 else |w|)
            && (forall i :: 0 <= i < |u| ==> Some(u[i]) == reqs[i] && w[i] == paths[i])
  {
    ChainSingletons(runs, WriteOf, paths);
    if none {
      ChainEmpty(runs, UploadOf);
    } else {
      var xs := seq(|runs|, i requires 0 <= i < |runs| => reqs[i].value);
      ChainSingletons(runs, UploadOf, xs);
    }
  }

  /** A view to which no pass contributes stays empty. */
  lemma ChainEmpty<T>(runs: seq<Run>, pick: Action -> seq<T>)
    requires forall i :: 0 <= i < |runs| ==> Collect(runs[i].trace, pick) == []
    ensures Collect(Chain(runs).trace, pick) == []
  {
    ChainIsJoined(runs);
    JoinedEmpty(runs[..Reach(runs)], pick);
  }

  /** Each pass deletes its scratch file unless it was cut short: so does the chain, but for the last pass it reaches. */
  lemma ChainDeleted(runs: seq<Run>, paths: seq<string>)
    requires |paths| == |runs|
    requires forall i :: 0 <= i < |runs| ==> Deleted(runs[i].trace) == if runs[i].aborted then [] else [paths[i]]
    ensures var n := Reach(runs);
            Deleted(Chain(runs).trace) == if Chain(runs).aborted then paths[..n - 1] else paths[..n]
  {
    if Chain(runs).aborted {
      ChainDeletedCut(runs, paths);
    } else {
      ChainDeletedAll(runs, paths);
    }
  }

  lemma ChainDeletedAll(runs: seq<Run>, paths: seq<string>)
    requires |paths| == |runs|
    requires forall i :: 0 <= i < |runs| ==> Deleted(runs[i].trace) == if runs[i].aborted then [] else [paths[i]]
    requires !Chain(runs).aborted
    ensures Deleted(Chain(runs).trace) == paths && Reach(runs) == |runs|
  {
    ChainComplete(runs);
    JoinedSingletons(runs, DeleteOf, paths);
  }

  lemma ChainDeletedCut(runs: seq<Run>, paths: seq<string>)
    requires |paths| == |runs|
    requires forall i :: 0 <= i < |runs| ==> Deleted(runs[i].trace) == if runs[i].aborted then [] else [paths[i]]
    requires Chain(runs).aborted
    ensures Deleted(Chain(runs).trace) == paths[..Reach(runs) - 1]
  {
    ChainIsJoined(runs);
    var n := Reach(runs);
    var init := runs[..n - 1];
    forall i | 0 <= i < n - 1 ensures Collect(init[i].trace, DeleteOf) == [paths[..n - 1][i]] {
      assert init[i] == runs[i] && !runs[i].aborted;
    }
    JoinedSingletons(init, DeleteOf, paths[..n - 1]);
    JoinedPrefix(runs, n);
    CollectSplit(Joined(init), runs[n - 1].trace, DeleteOf);
  }

  /** A chain cut short ends with the last action of the pass that cut it short. */
  lemma ChainLast(runs: seq<Run>)
    requires forall i :: 0 <= i < |runs| ==> runs[i].trace != []
    ensures var n := Reach(runs);
            var r := Chain(runs);
            r.aborted ==> n >= 1 && runs[n - 1].aborted && r.trace != [] && Last(r.trace) == Last(runs[n - 1].trace)
  {
    ChainIsJoined(runs);
    var n := Reach(runs);
    if Chain(runs).aborted {
      JoinedPrefix(runs, n);
    }
  }

  /**
   * Replayed on a file system, a chain of passes that each remove their own
   * scratch file removes all of them and touches nothing else, unless it is
   * cut short, when the last pass's file stays.
   */
  lemma ChainReplay(runs: seq<Run>, paths: seq<string>, files: map<string, string>)
    requires |paths| == |runs|
    requires forall i, m :: 0 <= i < |runs| && !runs[i].aborted ==> Replay(m, runs[i].trace) == m - {paths[i]}
    requires forall i, m :: 0 <= i < |runs| && runs[i].aborted ==> paths[i] in Replay(m, runs[i].trace)
    ensures var n := Reach(runs);
            var r := Chain(runs);
            && (!r.aborted ==> Replay(files, r.trace) == files - ToSet(paths))
            && (r.aborted ==> paths[n - 1] in Replay(files, r.trace))
  {
    ChainIsJoined(runs);
    var n := Reach(runs);
    if Chain(runs).aborted {
      JoinedPrefix(runs, n);
      ReplaySplit(files, Joined(runs[..n - 1]), runs[n - 1].trace);
    } else {
      assert runs[..n] == runs;
      JoinedReplay(runs, paths, files);
    }
  }

  /** Deletions follow writes, pass by pass, but for the scratch file of a pass cut short. */
  lemma ChainDeletesWrites(runs: seq<Run>, paths: seq<string>)
    requires |paths| == |runs|
    requires forall i :: 0 <= i < |runs| ==> Written(runs[i].trace) == [paths[i]]
    requires forall i :: 0 <= i < |runs| ==> Deleted(runs[i].trace) == if runs[i].aborted then [] else [paths[i]]
    ensures var r := Chain(runs);
            var w := Written(r.trace);
            && (!r.aborted ==> Deleted(r.trace) == w)
            && (r.aborted ==> |w| >= 1 && Deleted(r.trace) == w[..|w| - 1])
  {
    ChainSingletons(runs, WriteOf, paths);
    ChainDeleted(runs, paths);
    var n := Reach(runs);
    if Chain(runs).aborted {
      assert paths[..n][..n - 1] == paths[..n - 1];
    }
  }

  /** The replay of a chain, in the terms of the files it wrote. */
  lemma ChainReplayWritten(runs: seq<Run>, paths: seq<string>, files: map<string, string>)
    requires |paths| == |runs|
    requires forall i :: 0 <= i < |runs| ==> Written(runs[i].trace) == [paths[i]]
    requires forall i, m :: 0 <= i < |runs| && !runs[i].aborted ==> Replay(m, runs[i].trace) == m - {paths[i]}
    requires forall i, m :: 0 <= i < |runs| && runs[i].aborted ==> paths[i] in Replay(m, runs[i].trace)
    ensures var r := Chain(runs);
            var w := Written(r.trace);
            && (!r.aborted ==> Replay(files, r.trace) == files - ToSet(w))
            && (r.aborted ==> w != [] && Last(w) in Replay(files, r.trace))
  {
    ChainIsJoined(runs);
    ChainSingletons(runs, WriteOf, paths);
    ChainReplay(runs, paths, files);
    assert !Chain(runs).aborted ==> paths[..Reach(runs)] == paths;
  }

  // ---------------------------------------------------------------------------
  // What an upload reads

  /**
   * Every upload reads the file written by the action just before it, which
   * holds the body of the URL fetched just before that.
   */
  predicate UploadsReadFetchedBody(t: seq<Action>, respond: string -> Option<string>) {
    forall k :: 0 <= k < |t| && t[k].Upload? ==>
      && 2 <= k
      && t[k - 2].Fetch?
      && t[k - 1] == Write(Source(t[k].request), Body(respond(t[k - 2].url)))
  }

  lemma FreshAppend(a: seq<Action>, b: seq<Action>, respond: string -> Option<string>)
    requires UploadsReadFetchedBody(a, respond) && UploadsReadFetchedBody(b, respond)
    ensures UploadsReadFetchedBody(a + b, respond)
  {
    var t := a + b;
    forall k | 0 <= k < |t| && t[k].Upload?
      ensures 2 <= k && t[k - 2].Fetch? && t[k - 1] == Write(Source(t[k].request), Body(respond(t[k - 2].url)))
    {
      if k < |a| {
        assert t[k] == a[k] && t[k - 1] == a[k - 1] && t[k - 2] == a[k - 2];
      } else {
        var j := k - |a|;
        assert t[k] == b[j];
        assert 2 <= j;
        assert t[k - 1] == b[j - 1] && t[k - 2] == b[j - 2];
      }
    }
  }

  lemma {:induction false} FreshJoined(runs: seq<Run>, respond: string -> Option<string>)
    requires forall i :: 0 <= i < |runs| ==> UploadsReadFetchedBody(runs[i].trace, respond)
    ensures UploadsReadFetchedBody(Joined(runs), respond)
    decreases |runs|
  {
    if runs != [] {
      var m := |runs| - 1;
      FreshJoined(runs[..m], respond);
      FreshAppend(Joined(runs[..m]), runs[m].trace, respond);
    }
  }

  /** Passes whose uploads read what was just fetched make a chain whose uploads do too. */
  lemma FreshChain(runs: seq<Run>, respond: string -> Option<string>)
    requires forall i :: 0 <= i < |runs| ==> UploadsReadFetchedBody(runs[i].trace, respond)
    ensures UploadsReadFetchedBody(Chain(runs).trace, respond)
  {
    ChainIsJoined(runs);
    var n := Reach(runs);
    FreshJoined(runs[..n], respond);
  }

  /** Replayed on a file system, an upload finds its file holding the body fetched just before. */
  lemma FreshReplay(t: seq<Action>, respond: string -> Option<string>, files: map<string, string>)
    requires UploadsReadFetchedBody(t, respond)
    ensures forall k :: 0 <= k < |t| && t[k].Upload? ==>
              && 2 <= k && t[k - 2].Fetch?
              && Source(t[k].request) in Replay(files, t[..k])
              && Replay(files, t[..k])[Source(t[k].request)] == Body(respond(t[k - 2].url))
  {
    forall k | 0 <= k < |t| && t[k].Upload?
      ensures Source(t[k].request) in Replay(files, t[..k])
      ensures Replay(files, t[..k])[Source(t[k].request)] == Body(respond(t[k - 2].url))
    {
      var head := t[..k];
      assert head[..|head| - 1] == t[..k - 1];
      assert head[|head| - 1] == t[k - 1];
    }
  }

  // ---------------------------------------------------------------------------
  // The format loop

  /** The URLs the formats are fetched from, in list order. */
  function FetchUrls(ctx: Context, specs: seq<FormatSpec>): (urls: seq<string>)
    ensures |urls| == |specs|
    ensures forall i :: 0 <= i < |specs| ==> urls[i] == FetchUrl(ctx, specs[i])
  {
    seq(|specs|, i requires 0 <= i < |specs| => FetchUrl(ctx, specs[i]))
  }

  /** The formats' scratch paths, in list order. */
  function ScratchPaths(ctx: Context, specs: seq<FormatSpec>): (paths: seq<string>)
    ensures |paths| == |specs|
    ensures forall i :: 0 <= i < |specs| ==> paths[i] == PathFor(ctx, specs[i])
  {
    seq(|specs|, i requires 0 <= i < |specs| => PathFor(ctx, specs[i]))
  }

  /** What each pass of the loop does, as the chain lemmas need it. */
  lemma PassesEffects(ctx: Context, specs: seq<FormatSpec>)
    ensures var runs := Passes(ctx, specs);
            var urls := FetchUrls(ctx, specs);
            var paths := ScratchPaths(ctx, specs);
            forall i :: 0 <= i < |runs| ==>
              && Fetches(runs[i].trace) == [urls[i]]
              && Written(runs[i].trace) == [paths[i]]
              && Deleted(runs[i].trace) == (if runs[i].aborted then [] else [paths[i]])
              && Uploads(runs[i].trace) == UploadList(UploadFor(ctx.st, paths[i], ctx.env.caBundle))
              && runs[i].trace != []
  {
    var runs := Passes(ctx, specs);
    forall i | 0 <= i < |runs| {
      CycleEffects(ctx, specs[i], map[]);
    }
  }

  /** An FTP or SFTP upload that raised: the only action that ends the loop early. */
  predicate RaisedTransfer(ctx: Context, a: Action) {
    && a.Upload?
    && a.outcome == Raised
    && ctx.env.raises(a.request)
    && Dispatch(UpdateMethod(ctx.st)) in {Some(FtpProtocol), Some(SftpProtocol)}
  }

  /** A pass is cut short only by an FTP or SFTP transfer that raised, its last action. */
  lemma CycleAbort(ctx: Context, spec: FormatSpec)
    ensures var c := Cycle(ctx, spec);
            c.aborted ==> c.trace != [] && RaisedTransfer(ctx, Last(c.trace))
  {
    CycleEffects(ctx, spec, map[]);
  }

  lemma PassesAbort(ctx: Context, specs: seq<FormatSpec>)
    ensures var runs := Passes(ctx, specs);
            forall i :: 0 <= i < |runs| && runs[i].aborted ==> runs[i].trace != [] && RaisedTransfer(ctx, Last(runs[i].trace))
  {
    var runs := Passes(ctx, specs);
    forall i | 0 <= i < |runs| {
      CycleAbort(ctx, specs[i]);
    }
  }

  /** What each pass of the loop does to the local files. */
  lemma PassesReplay(ctx: Context, specs: seq<FormatSpec>)
    ensures var runs := Passes(ctx, specs);
            var paths := ScratchPaths(ctx, specs);
            && (forall i, m :: 0 <= i < |runs| && !runs[i].aborted ==> Replay(m, runs[i].trace) == m - {paths[i]})
            && (forall i, m :: 0 <= i < |runs| && runs[i].aborted ==> paths[i] in Replay(m, runs[i].trace))
  {
    var runs := Passes(ctx, specs);
    forall i, m | 0 <= i < |runs| {
      CycleEffects(ctx, specs[i], m);
    }
  }

  /**
   * The loop fetches once per format and writes one scratch file per format, in
   * list order: the i-th fetch is the i-th format's URL and the i-th write its
   * scratch path. Every format is reached unless a transfer raised, and then
   * the last format reached is the one whose transfer raised.
   */
  lemma OneFetchPerFormat(ctx: Context, specs: seq<FormatSpec>)
    ensures var r := Cycles(ctx, specs);
            var n := |Written(r.trace)|;
            && n <= |specs|
            && Fetches(r.trace) == FetchUrls(ctx, specs)[..n]
            && Written(r.trace) == ScratchPaths(ctx, specs)[..n]
            && (!r.aborted ==> n == |specs|)
            && (r.aborted ==> n >= 1 && Cycle(ctx, specs[n - 1]).aborted)
  {
    var runs := Passes(ctx, specs);
    PassesEffects(ctx, specs);
    ChainFetchWrite(runs, FetchUrls(ctx, specs), ScratchPaths(ctx, specs));
  }

  /**
   * Every scratch file written is deleted, in the same order; only a transfer
   * exception leaves one undeleted, the last one written.
   */
  lemma ScratchFilesDeleted(ctx: Context, specs: seq<FormatSpec>)
    ensures var r := Cycles(ctx, specs);
            var w := Written(r.trace);
            && (!r.aborted ==> Deleted(r.trace) == w)
            && (r.aborted ==> |w| >= 1 && Deleted(r.trace) == w[..|w| - 1])
  {
    PassesEffects(ctx, specs);
    ChainDeletesWrites(Passes(ctx, specs), ScratchPaths(ctx, specs));
  }

  /** With a method that names no transport, every format is still fetched, written and deleted. */
  lemma NoTransportStillCycles(ctx: Context, specs: seq<FormatSpec>)
    requires Dispatch(UpdateMethod(ctx.st)).None?
    ensures var r := Cycles(ctx, specs);
            && !r.aborted
            && Fetches(r.trace) == FetchUrls(ctx, specs)
            && Written(r.trace) == ScratchPaths(ctx, specs)
            && Deleted(r.trace) == Written(r.trace)
  {
    var r := Cycles(ctx, specs);
    AbortOnlyOnTransferException(ctx, specs);
    assert !r.aborted;
    OneFetchPerFormat(ctx, specs);
    ScratchFilesDeleted(ctx, specs);
    assert FetchUrls(ctx, specs)[..|specs|] == FetchUrls(ctx, specs);
    assert ScratchPaths(ctx, specs)[..|specs|] == ScratchPaths(ctx, specs);
  }

  /**
   * When the method names a transport, the i-th upload is the request for the
   * i-th scratch file, which it reads; otherwise nothing is uploaded, yet
   * every format is still fetched, written and deleted.
   */
  lemma UploadsFollowWrites(ctx: Context, specs: seq<FormatSpec>)
    ensures var r := Cycles(ctx, specs);
            var w := Written(r.trace);
            var u := Uploads(r.trace);
            && |u| == (if Dispatch(UpdateMethod(ctx.st)).None? then 0 else |w|)
            && (forall i :: 0 <= i < |u| ==> Some(u[i]) == UploadFor(ctx.st, w[i], ctx.env.caBundle) && Source(u[i]) == w[i])
            && (Dispatch(UpdateMethod(ctx.st)).None? ==>
                  && !r.aborted
                  && Fetches(r.trace) == FetchUrls(ctx, specs)
                  && w == ScratchPaths(ctx, specs)
                  && Deleted(r.trace) == w)
  {
    if Dispatch(UpdateMethod(ctx.st)).None? {
      NoTransportStillCycles(ctx, specs);
    }
    var runs := Passes(ctx, specs);
    var paths := ScratchPaths(ctx, specs);
    var reqs := seq(|specs|, i requires 0 <= i < |specs| => UploadFor(ctx.st, paths[i], ctx.env.caBundle));
    var none := Dispatch(UpdateMethod(ctx.st)).None?;
    PassesEffects(ctx, specs);
    forall i | 0 <= i < |runs|
      ensures Written(runs[i].trace) == [paths[i]]
      ensures Uploads(runs[i].trace) == UploadList(reqs[i]) && reqs[i].None? == none
    {
      assert reqs[i] == UploadFor(ctx.st, paths[i], ctx.env.caBundle);
    }
    ChainUploads(runs, paths, reqs, none);
    var r := Chain(runs);
    assert r == Cycles(ctx, specs);
    var w := Written(r.trace);
    var u := Uploads(r.trace);
    forall i | 0 <= i < |u|
      ensures Some(u[i]) == UploadFor(ctx.st, w[i], ctx.env.caBundle) && Source(u[i]) == w[i]
    {
      assert Some(u[i]) == reqs[i] && w[i] == paths[i];
    }
  }

  /**
   * The loop ends early only on an FTP or SFTP transfer that raised, and that
   * upload is the last thing it does. An object-store failure never ends it.
   */
  lemma AbortOnlyOnTransferException(ctx: Context, specs: seq<FormatSpec>)
    ensures var r := Cycles(ctx, specs);
            r.aborted ==> r.trace != [] && RaisedTransfer(ctx, Last(r.trace))
  {
    var runs := Passes(ctx, specs);
    PassesEffects(ctx, specs);
    PassesAbort(ctx, specs);
    ChainLast(runs);
  }

  /** Within a pass, the upload reads the scratch file just written with the fetched body. */
  lemma PassFresh(url: string, path: string, request: Option<UploadRequest>, raises: UploadRequest -> bool,
                  respond: string -> Option<string>)
    requires request.Some? ==> Source(request.value) == path
    ensures UploadsReadFetchedBody(Pass(url, path, Body(respond(url)), request, raises).trace, respond)
  {
    var p := Pass(url, path, Body(respond(url)), request, raises);
    PassOrder(url, path, Body(respond(url)), request, raises);
    assert forall k :: 2 < k < |p.trace| ==> p.trace[k] == Delete(path);
    forall k | 0 <= k < |p.trace| && p.trace[k].Upload?
      ensures 2 <= k && p.trace[k - 2].Fetch?
      ensures p.trace[k - 1] == Write(Source(p.trace[k].request), Body(respond(p.trace[k - 2].url)))
    {
      if k < 2 || k > 2 {
        assert false;
      }
    }
  }

  lemma CycleFresh(ctx: Context, spec: FormatSpec)
    ensures UploadsReadFetchedBody(Cycle(ctx, spec).trace, ctx.env.respond)
  {
    var url := FetchUrl(ctx, spec);
    var path := PathFor(ctx, spec);
    PassFresh(url, path, UploadFor(ctx.st, path, ctx.env.caBundle), ctx.env.raises, ctx.env.respond);
  }

  /**
   * Every upload of the loop reads the scratch file written just before it,
   * and on the file system that file then holds the body of the URL fetched
   * just before that: no upload reads a deleted file or another format's data.
   */
  lemma UploadReadsFetchedBody(ctx: Context, specs: seq<FormatSpec>, files: map<string, string>)
    ensures var t := Cycles(ctx, specs).trace;
            forall k :: 0 <= k < |t| && t[k].Upload? ==>
              && 2 <= k && t[k - 2].Fetch?
              && Source(t[k].request) in Replay(files, t[..k])
              && Replay(files, t[..k])[Source(t[k].request)] == Body(ctx.env.respond(t[k - 2].url))
  {
    var runs := Passes(ctx, specs);
    forall i | 0 <= i < |runs| ensures UploadsReadFetchedBody(runs[i].trace, ctx.env.respond) {
      CycleFresh(ctx, specs[i]);
    }
    FreshChain(runs, ctx.env.respond);
    FreshReplay(Cycles(ctx, specs).trace, ctx.env.respond, files);
  }

  /**
   * Replayed on a file system, a loop that completes removes every scratch file
   * it wrote and touches nothing else; one cut short leaves its last scratch
   * file in place.
   */
  lemma NoScratchFileLeft(ctx: Context, specs: seq<FormatSpec>, files: map<string, string>)
    ensures var r := Cycles(ctx, specs);
            var w := Written(r.trace);
            && (!r.aborted ==> Replay(files, r.trace) == files - ToSet(w))
            && (r.aborted ==> w != [] && Last(w) in Replay(files, r.trace))
  {
    PassesEffects(ctx, specs);
    PassesReplay(ctx, specs);
    ChainReplayWritten(Passes(ctx, specs), ScratchPaths(ctx, specs), files);
  }

  // ---------------------------------------------------------------------------
  // Channels and the whole run

  /** A channel whose base name PHP deems empty ("" or "0") does nothing at all. */
  lemma SkippedChannelIsSilent(st: Store, prefix: string, tempPath: string, env: Environment)
    requires Empty(ReadChannel(st, prefix).basename)
    ensures Ready(st, prefix) && ChannelRun(st, prefix, tempPath, env) == Run([], false)
  {
  }

  /**
   * A channel that publishes fetches once per configured format and writes one
   * scratch file per format, in the order of its format list: the i-th fetch is
   * the rendering endpoint's URL for the i-th format and the channel's stream,
   * the i-th write that format's scratch path. All formats are reached unless
   * a transfer raised.
   */
  lemma ChannelFollowsFormats(st: Store, prefix: string, tempPath: string, env: Environment)
    requires Ready(st, prefix)
    ensures var ch := ReadChannel(st, prefix);
            var r := ChannelRun(st, prefix, tempPath, env);
            var f := Fetches(r.trace);
            var w := Written(r.trace);
            && |f| == |w| <= |ch.tags|
            && (!r.aborted && !Empty(ch.basename) ==> |f| == |ch.tags|)
            && (forall i :: 0 <= i < |f| ==>
                  && FormatTable(ch.tags[i]).Some?
                  && f[i] == UpdateUrl(ArsApiUrl(st), FormatTable(ch.tags[i]).value, ch.stream)
                  && w[i] == ScratchPath(tempPath, ch.basename, FormatTable(ch.tags[i]).value))
  {
    var ctx := ChannelContext(st, prefix, tempPath, env);
    if !Empty(ctx.channel.basename) {
      TagsInOrder(ctx, ctx.channel.tags);
    }
  }

  /** The format loop over a tag list, stated per tag. */
  lemma TagsInOrder(ctx: Context, tags: seq<string>)
    requires AllKnown(tags)
    ensures var r := Cycles(ctx, Specs(tags));
            var f := Fetches(r.trace);
            var w := Written(r.trace);
            && |f| == |w| <= |tags|
            && (!r.aborted ==> |f| == |tags|)
            && (forall i :: 0 <= i < |f| ==>
                  && FormatTable(tags[i]).Some?
                  && f[i] == FetchUrl(ctx, FormatTable(tags[i]).value)
                  && w[i] == PathFor(ctx, FormatTable(tags[i]).value))
  {
    var specs := Specs(tags);
    var r := Cycles(ctx, specs);
    OneFetchPerFormat(ctx, specs);
    FetchWritePerTag(ctx, tags, Fetches(r.trace), Written(r.trace), r.aborted);
  }

  /** The fetch and write lists of the format loop, read back per tag. */
  lemma FetchWritePerTag(ctx: Context, tags: seq<string>, f: seq<string>, w: seq<string>, aborted: bool)
    requires AllKnown(tags)
    requires var specs := Specs(tags);
             && |w| <= |specs|
             && f == FetchUrls(ctx, specs)[..|w|]
             && w == ScratchPaths(ctx, specs)[..|w|]
             && (!aborted ==> |w| == |specs|)
    ensures && |f| == |w| <= |tags|
            && (!aborted ==> |f| == |tags|)
            && (forall i :: 0 <= i < |f| ==>
                  && FormatTable(tags[i]).Some?
                  && f[i] == FetchUrl(ctx, FormatTable(tags[i]).value)
                  && w[i] == PathFor(ctx, FormatTable(tags[i]).value))
  {
    var specs := Specs(tags);
    PerTag(tags, specs, f, FetchUrls(ctx, specs), s => FetchUrl(ctx, s));
    PerTag(tags, specs, w, ScratchPaths(ctx, specs), s => PathFor(ctx, s));
  }

  /** A prefix of a per-format list, read back per tag. */
  lemma PerTag<T>(tags: seq<string>, specs: seq<FormatSpec>, xs: seq<T>, full: seq<T>, g: FormatSpec -> T)
    requires |specs| == |tags| && forall i :: 0 <= i < |tags| ==> FormatTable(tags[i]) == Some(specs[i])
    requires |full| == |specs| && forall i :: 0 <= i < |specs| ==> full[i] == g(specs[i])
    requires |xs| <= |full| && xs == full[..|xs|]
    ensures forall i :: 0 <= i < |xs| ==> FormatTable(tags[i]).Some? && xs[i] == g(FormatTable(tags[i]).value)
  {
    forall i | 0 <= i < |xs|
      ensures FormatTable(tags[i]).Some? && xs[i] == g(FormatTable(tags[i]).value)
    {
      assert xs[i] == full[i];
    }
  }

  /** A channel whose run completes leaves none of the scratch files it wrote, and no other file changed. */
  lemma ChannelLeavesNoScratchFile(st: Store, prefix: string, tempPath: string, env: Environment, files: map<string, string>)
    requires Ready(st, prefix)
    ensures var r := ChannelRun(st, prefix, tempPath, env);
            !r.aborted ==> Replay(files, r.trace) == files - ToSet(Written(r.trace))
  {
    var ctx := ChannelContext(st, prefix, tempPath, env);
    if Empty(ctx.channel.basename) {
      assert ToSet([]) == {};
      assert files - {} == files;
    } else {
      NoScratchFileLeft(ctx, Specs(ctx.channel.tags), files);
    }
  }

  /**
   * `core` runs before `pro`: the run's trace starts with the `core` trace; a
   * transfer exception in `core` means `pro` does nothing; otherwise the `pro`
   * fetches follow the `core` ones.
   */
  lemma CoreBeforePro(st: Store, tempPath: string, env: Environment)
    requires Ready(st, "core") && Ready(st, "pro")
    ensures var core := ChannelRun(st, "core", tempPath, env);
            var pro := ChannelRun(st, "pro", tempPath, env);
            var all := RunAll(st, tempPath, env);
            && |core.trace| <= |all.trace| && all.trace[..|core.trace|] == core.trace
            && (core.aborted ==> all == core)
            && (!core.aborted ==> all.aborted == pro.aborted && Fetches(all.trace) == Fetches(core.trace) + Fetches(pro.trace))
  {
    var core := ChannelRun(st, "core", tempPath, env);
    var pro := ChannelRun(st, "pro", tempPath, env);
    Distribute(core.trace, pro.trace, map[]);
  }

  /** A channel's uploads read what it has just fetched. */
  lemma ChannelFresh(st: Store, prefix: string, tempPath: string, env: Environment)
    requires Ready(st, prefix)
    ensures UploadsReadFetchedBody(ChannelRun(st, prefix, tempPath, env).trace, env.respond)
  {
    var ctx := ChannelContext(st, prefix, tempPath, env);
    if !Empty(ctx.channel.basename) {
      var specs := Specs(ctx.channel.tags);
      var runs := Passes(ctx, specs);
      forall i | 0 <= i < |runs| ensures UploadsReadFetchedBody(runs[i].trace, env.respond) {
        CycleFresh(ctx, specs[i]);
      }
      FreshChain(runs, env.respond);
    }
  }

  /**
   * Over the whole run, every upload finds its scratch file holding the body
   * of the URL fetched just before it.
   */
  lemma RunUploadsReadFetchedBody(st: Store, tempPath: string, env: Environment, files: map<string, string>)
    requires Ready(st, "core") && Ready(st, "pro")
    ensures var t := RunAll(st, tempPath, env).trace;
            forall k :: 0 <= k < |t| && t[k].Upload? ==>
              && 2 <= k && t[k - 2].Fetch?
              && Source(t[k].request) in Replay(files, t[..k])
              && Replay(files, t[..k])[Source(t[k].request)] == Body(env.respond(t[k - 2].url))
  {
    var core := ChannelRun(st, "core", tempPath, env);
    var pro := ChannelRun(st, "pro", tempPath, env);
    ChannelFresh(st, "core", tempPath, env);
    ChannelFresh(st, "pro", tempPath, env);
    FreshAppend(core.trace, pro.trace, env.respond);
    FreshReplay(RunAll(st, tempPath, env).trace, env.respond, files);
  }

  /** Two traces that each remove the scratch files they write remove, one after the other, all of them. */
  lemma ReplayBoth(a: seq<Action>, b: seq<Action>, files: map<string, string>)
    requires Replay(files, a) == files - ToSet(Written(a))
    requires Replay(files - ToSet(Written(a)), b) == (files - ToSet(Written(a))) - ToSet(Written(b))
    ensures Replay(files, a + b) == files - ToSet(Written(a + b))
  {
    Distribute(a, b, files);
    var wa, wb := Written(a), Written(b);
    assert ToSet(wa + wb) == ToSet(wa) + ToSet(wb);
    assert (files - ToSet(wa)) - ToSet(wb) == files - (ToSet(wa) + ToSet(wb));
  }

  /** A run that completes leaves none of the scratch files it wrote, and no other file changed. */
  lemma RunLeavesNoScratchFile(st: Store, tempPath: string, env: Environment, files: map<string, string>)
    requires Ready(st, "core") && Ready(st, "pro")
    ensures var all := RunAll(st, tempPath, env);
            !all.aborted ==> Replay(files, all.trace) == files - ToSet(Written(all.trace))
  {
    var core := ChannelRun(st, "core", tempPath, env);
    var pro := ChannelRun(st, "pro", tempPath, env);
    ChannelLeavesNoScratchFile(st, "core", tempPath, env, files);
    ChannelLeavesNoScratchFile(st, "pro", tempPath, env, files - ToSet(Written(core.trace)));
    if !core.aborted && !pro.aborted {
      ReplayBoth(core.trace, pro.trace, files);
    }
  }
}
