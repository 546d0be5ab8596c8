/**
 * The descriptor formats a channel publishes, the URL each is fetched from and
 * the scratch file each is written to (`deployUpdates`, the format switch and
 * the two string constructions that follow it).
 */
module Formats {

  import opened Wrappers
  import opened Php

  /** What a format tag selects: the scratch/remote file extension, the `format=` value, the task suffix. */
  datatype FormatSpec = FormatSpec(extension: string, render: string, task: string)

  predicate Known(tag: string) {
    tag == "ini" || tag == "inibare" || tag == "xml"
  }

  /** The format switch. It has no default branch: any other tag has no entry. */
  function FormatTable(tag: string): (r: Option<FormatSpec>)
    ensures r.Some? <==> Known(tag)
  {
    match tag
    case "ini" => Some(FormatSpec(".ini", "ini", ""))
    case "inibare" => Some(FormatSpec("", "ini", ""))
    case "xml" => Some(FormatSpec(".xml", "xml", "&task=stream"))
    case _ => None
  }

  /** The whole table, entry by entry. */
  lemma FormatTableEntries()
    ensures FormatTable("ini") == Some(FormatSpec(".ini", "ini", ""))
    ensures FormatTable("inibare") == Some(FormatSpec("", "ini", ""))
    ensures FormatTable("xml") == Some(FormatSpec(".xml", "xml", "&task=stream"))
  {
  }

  const EndpointQuery := "/index.php?option=com_ars&view=update"

  /** The rendering endpoint's URL for one format of one stream. */
  function UpdateUrl(baseUrl: string, spec: FormatSpec, stream: int): (u: string)
    ensures |u| == |baseUrl| + |EndpointQuery| + 2 * |spec.task| + |"&format="| + |spec.render| + |"&id="| + |IntText(stream)|
    ensures u[..|baseUrl|] == baseUrl
  {
    baseUrl + EndpointQuery + spec.task + "&format=" + spec.render + "&id=" + IntText(stream) + spec.task
  }

  /** Where the fetched descriptor is written: `<tempPath>/<basename><extension>`. */
  function ScratchPath(tempPath: string, basename: string, spec: FormatSpec): (p: string)
    ensures |p| == |tempPath| + 1 + |basename| + |spec.extension|
    ensures p[..|tempPath|] == tempPath && p[|tempPath|] == '/'
    ensures p[|tempPath| + 1..] == basename + spec.extension
  {
    tempPath + "/" + basename + spec.extension
  }

  /** A scratch file is uploaded under `<basename><extension>` when neither part holds a '/'. */
  lemma ScratchFileName(tempPath: string, basename: string, spec: FormatSpec)
    requires '/' !in basename && '/' !in spec.extension && (basename != "" || spec.extension != "")
    ensures BaseName(ScratchPath(tempPath, basename, spec)) == basename + spec.extension
  {
    var name := basename + spec.extension;
    assert '/' !in name by {
      forall i | 0 <= i < |name| ensures name[i] != '/' {
        if i < |basename| {
          assert name[i] == basename[i];
        } else {
          assert name[i] == spec.extension[i - |basename|];
        }
      }
    }
    assert ScratchPath(tempPath, basename, spec) == tempPath + "/" + name;
    BaseNameOfJoin(tempPath, name);
  }

  /** Where the `id=` value starts in an update URL. */
  function IdStart(baseUrl: string, spec: FormatSpec): nat {
    |baseUrl| + |EndpointQuery| + |spec.task| + |"&format="| + |spec.render| + |"&id="|
  }

  lemma Split(a: string, b: string)
    ensures |a + b| == |a| + |b|
    ensures (a + b)[..|a|] == a && (a + b)[|a|..] == b
  {
  }

  lemma SliceOfSuffix(s: string, i: nat, j: nat)
    requires i <= j <= |s|
    ensures s[i..j] == s[i..][..j - i]
  {
  }

  /** The update URL as a chain of right-nested concatenations, one per part. */
  lemma UrlParts(baseUrl: string, spec: FormatSpec, stream: int)
    ensures UpdateUrl(baseUrl, spec, stream)
         == baseUrl + (EndpointQuery + (spec.task + ("&format=" + (spec.render + ("&id=" + (IntText(stream) + spec.task))))))
  {
    RightNest(baseUrl, EndpointQuery, spec.task, "&format=", spec.render, "&id=", IntText(stream), spec.task);
  }

  lemma RightNest(a: string, b: string, c: string, d: string, e: string, f: string, g: string, h: string)
    ensures a + b + c + d + e + f + g + h == a + (b + (c + (d + (e + (f + (g + h))))))
  {
    assert a + b + c + d + e + f + g + h == a + b + c + d + e + f + (g + h);
    assert a + b + c + d + e + f + (g + h) == a + b + c + d + e + (f + (g + h));
    assert a + b + c + d + e + (f + (g + h)) == a + b + c + d + (e + (f + (g + h)));
    assert a + b + c + d + (e + (f + (g + h))) == a + b + c + (d + (e + (f + (g + h))));
    assert a + b + c + (d + (e + (f + (g + h)))) == a + b + (c + (d + (e + (f + (g + h)))));
  }

  lemma UrlHead(baseUrl: string, spec: FormatSpec, stream: int)
    ensures var u := UpdateUrl(baseUrl, spec, stream);
            var k := |baseUrl| + |EndpointQuery|;
            && k + |spec.task| <= |u|
            && u[..|baseUrl|] == baseUrl
            && u[|baseUrl|..k] == EndpointQuery
            && u[k..k + |spec.task|] == spec.task
  {
    var u := UpdateUrl(baseUrl, spec, stream);
    var r2 := spec.task + ("&format=" + (spec.render + ("&id=" + (IntText(stream) + spec.task))));
    var r1 := EndpointQuery + r2;
    var k := |baseUrl| + |EndpointQuery|;
    UrlParts(baseUrl, spec, stream);
    Split(baseUrl, r1);
    Split(EndpointQuery, r2);
    SliceOfSuffix(u, |baseUrl|, k);
    assert u[k..] == r2;
    SliceOfSuffix(u, k, k + |spec.task|);
  }

  lemma Take(s: string, t: string, i: nat, j: nat)
    requires i <= j <= |s|
    ensures (s + t)[i..j] == s[i..j]
  {
  }

  /** Reading the last six parts back out of a left-nested concatenation. */
  lemma TailParts(x: string, fsep: string, render: string, sep: string, num: string, task: string)
    ensures var p0 := x + fsep;
            var p1 := p0 + render;
            var p2 := p1 + sep;
            var p3 := p2 + num;
            var u := p3 + task;
            && |u| == |p3| + |task| && |p3| == |p2| + |num| && |p2| == |p1| + |sep|
            && u[|x|..|p0|] == fsep
            && u[|p0|..|p1|] == render
            && u[|p1|..|p2|] == sep
            && u[|p2|..|p3|] == num
            && u[|p3|..] == task
  {
    var p0 := x + fsep;
    var p1 := p0 + render;
    var p2 := p1 + sep;
    var p3 := p2 + num;
    Split(x, fsep);
    Split(p0, render);
    Split(p1, sep);
    Split(p2, num);
    Split(p3, task);
    Take(p0, render, |x|, |p0|);
    Take(p1, sep, |x|, |p0|);
    Take(p2, num, |x|, |p0|);
    Take(p3, task, |x|, |p0|);
    Take(p1, sep, |p0|, |p1|);
    Take(p2, num, |p0|, |p1|);
    Take(p3, task, |p0|, |p1|);
    Take(p2, num, |p1|, |p2|);
    Take(p3, task, |p1|, |p2|);
    Take(p3, task, |p2|, |p3|);
  }

  lemma UrlTail(baseUrl: string, spec: FormatSpec, stream: int)
    ensures var u := UpdateUrl(baseUrl, spec, stream);
            var k := |baseUrl| + |EndpointQuery|;
            var f := k + |spec.task| + |"&format="|;
            var id := IdStart(baseUrl, spec);
            && id + |spec.task| < |u|
            && u[k + |spec.task|..f] == "&format="
            && u[f..f + |spec.render|] == spec.render
            && u[f + |spec.render|..id] == "&id="
            && u[id..|u| - |spec.task|] == IntText(stream)
            && u[|u| - |spec.task|..] == spec.task
  {
    TailParts(baseUrl + EndpointQuery + spec.task, "&format=", spec.render, "&id=", IntText(stream), spec.task);
  }

  /**
   * An update URL splits back into its parts: the base URL, the endpoint query,
   * the task suffix right after `view=update`, the `&format=` separator and
   * value, the `&id=` separator, the stream id as PHP prints it (canonical
   * decimal text that reads back as the stream) and the task suffix again at
   * the very end. With the length in `UpdateUrl`'s contract, this fixes every
   * character of the URL.
   */
  lemma UpdateUrlFields(baseUrl: string, spec: FormatSpec, stream: int)
    ensures var u := UpdateUrl(baseUrl, spec, stream);
            var k := |baseUrl| + |EndpointQuery|;
            var f := k + |spec.task| + |"&format="|;
            var id := IdStart(baseUrl, spec);
            && id + |spec.task| < |u|
            && u[..|baseUrl|] == baseUrl
            && u[|baseUrl|..k] == EndpointQuery
            && u[k..k + |spec.task|] == spec.task
            && u[k + |spec.task|..f] == "&format="
            && u[f..f + |spec.render|] == spec.render
            && u[f + |spec.render|..id] == "&id="
            && u[id..|u| - |spec.task|] == IntText(stream)
            && IntSyntax(u[id..|u| - |spec.task|])
            && ParseInt(u[id..|u| - |spec.task|]) == stream
            && u[|u| - |spec.task|..] == spec.task
  {
    UrlHead(baseUrl, spec, stream);
    UrlTail(baseUrl, spec, stream);
    IntTextRoundTrip(stream);
  }

  /** `ini` and `inibare` fetch the very same URL; they differ only in the scratch file name. */
  lemma IniVariantsShareUrl(baseUrl: string, stream: int, tempPath: string, basename: string)
    ensures UpdateUrl(baseUrl, FormatTable("ini").value, stream) == UpdateUrl(baseUrl, FormatTable("inibare").value, stream)
    ensures ScratchPath(tempPath, basename, FormatTable("ini").value) != ScratchPath(tempPath, basename, FormatTable("inibare").value)
  {
    ScratchPathsDistinct(tempPath, basename, "ini", "inibare");
  }

  /** The `xml` URL differs from the `ini` one, and carries `&task=stream` after `view=update` and at the end. */
  lemma XmlUrlRepeatsTask(baseUrl: string, stream: int)
    ensures var u := UpdateUrl(baseUrl, FormatTable("xml").value, stream);
            var k := |baseUrl| + |EndpointQuery|;
            && u != UpdateUrl(baseUrl, FormatTable("ini").value, stream)
            && |u| >= k + 12
            && u[k..k + 12] == "&task=stream"
            && u[|u| - 12..] == "&task=stream"
  {
    var xml := FormatTable("xml").value;
    var ini := FormatTable("ini").value;
    assert xml.task == "&task=stream" && |xml.task| == 12;
    assert ini.task == "" && |xml.render| == |ini.render|;
    assert |UpdateUrl(baseUrl, xml, stream)| != |UpdateUrl(baseUrl, ini, stream)|;
    TaskAtBothEnds(baseUrl, xml, stream);
  }

  /** The task suffix sits right after the endpoint query and again at the very end. */
  lemma TaskAtBothEnds(baseUrl: string, spec: FormatSpec, stream: int)
    ensures var u := UpdateUrl(baseUrl, spec, stream);
            var k := |baseUrl| + |EndpointQuery|;
            && k + |spec.task| <= |u|
            && u[k..k + |spec.task|] == spec.task
            && u[|u| - |spec.task|..] == spec.task
  {
    UrlHead(baseUrl, spec, stream);
    UrlTail(baseUrl, spec, stream);
  }

  /** Two different known tags never share a scratch file within one channel. */
  lemma ScratchPathsDistinct(tempPath: string, basename: string, t1: string, t2: string)
    requires Known(t1) && Known(t2) && t1 != t2
    ensures ScratchPath(tempPath, basename, FormatTable(t1).value) != ScratchPath(tempPath, basename, FormatTable(t2).value)
  {
    var stem := tempPath + "/" + basename;
    var p1 := ScratchPath(tempPath, basename, FormatTable(t1).value);
    var p2 := ScratchPath(tempPath, basename, FormatTable(t2).value);
    if |p1| == |p2| {
      // only `.ini` and `.xml` have the same length
      assert p1[|stem| + 1] != p2[|stem| + 1];
    }
  }
}
