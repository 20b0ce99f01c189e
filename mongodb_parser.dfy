/**
 * The MongoDB banner parser: it reads the prober's result file line by line,
 * finds each line's PortInfo by the line's `ip`, validates the line's
 * `data.mongodb` record and, for the first record that validates completely,
 * fills in the PortInfo's service, version and banner and attaches a MongoDB
 * record to it. The first such record ends the whole parse, for every IP.
 */
module MongodbParser {
  import opened Wrappers

  // ---------------------------------------------------------------------
  // Decoded result lines
  // ---------------------------------------------------------------------

  /** `build_info`: its `version` and its other string-valued fields. */
  datatype BuildInfo = BuildInfo(version: Option<string>, fields: map<string, string>)

  /** `data.mongodb.result`: `is_master` and `build_info`, each possibly missing. */
  datatype MongoResult = MongoResult(isMaster: Option<bool>, buildInfo: Option<BuildInfo>)

  /** `data.mongodb`: `status`, `protocol`, `result` and the scan time, each possibly missing. */
  datatype MongoData = MongoData(
    status: Option<string>,
    protocol: Option<string>,
    result: Option<MongoResult>,
    timestamp: Option<string>)

  /**
   * One line of the result file after `json.loads`: a line that does not
   * decode (a blank line among them), the JSON `null`, or an object with an
   * optional `ip` and an optional `data.mongodb`.
   */
  datatype Line = Malformed | Null | Record(ip: Option<string>, mongodb: Option<MongoData>)

  /** The MongoDB record attached to a PortInfo. */
  datatype MongoRecord = MongoRecord(isMaster: Option<bool>, buildInfo: BuildInfo, banner: string)

  /** The fields of a PortInfo that the parser reads or writes. */
  datatype PortView = PortView(
    service: Option<string>,
    version: Option<string>,
    banner: Option<string>,
    timestamp: Option<string>,
    mongodb: Option<MongoRecord>)

  /** `MongoDB.build_banner`: the banner text built from `is_master` and `build_info`. */
  type BannerBuilder = (Option<bool>, BuildInfo) -> string

  /** `_get_port_timestamp`: the PortInfo's new timestamp, from the record and the old timestamp. */
  type TimestampReader = (MongoData, Option<string>) -> Option<string>

  /** A port's record of what was found on it; the parser updates it in place. */
  class PortInfo {
    var service: Option<string>
    var version: Option<string>
    var banner: Option<string>
    var timestamp: Option<string>
    var mongodb: Option<MongoRecord>

    constructor(v: PortView)
      ensures View() == v
    {
      service := v.service;
      version := v.version;
      banner := v.banner;
      timestamp := v.timestamp;
      mongodb := v.mongodb;
    }

    function View(): PortView
      reads this
    {
      PortView(service, version, banner, timestamp, mongodb)
    }
  }

  // ---------------------------------------------------------------------
  // One record
  // ---------------------------------------------------------------------

  /** A `data.mongodb` that is present, has status "success" and protocol "mongodb". */
  predicate Accepted(m: Option<MongoData>) {
    m.Some? && m.value.status == Some("success") && m.value.protocol == Some("mongodb")
  }

  /** The record an accepted `data.mongodb` attaches: only one with a `result` holding a `build_info` attaches. */
  function Attachment(m: Option<MongoData>, bb: BannerBuilder): (r: Option<MongoRecord>)
    ensures r.Some? <==> Accepted(m) && m.value.result.Some? && m.value.result.value.buildInfo.Some?
    ensures r.Some? ==>
      var res := m.value.result.value;
      && res.buildInfo == Some(r.value.buildInfo)
      && r.value.isMaster == res.isMaster
      && r.value.banner == bb(r.value.isMaster, r.value.buildInfo)
  {
    if Accepted(m) && m.value.result.Some? && m.value.result.value.buildInfo.Some? then
      var res := m.value.result.value;
      Some(MongoRecord(res.isMaster, res.buildInfo.value, bb(res.isMaster, res.buildInfo.value)))
    else
      None
  }

  /** A PortInfo's state after one record, and whether the record was attached. */
  datatype Parsed = Parsed(view: PortView, attached: bool)

  /** What `_parse_mongodb` does to one PortInfo, given the line's `data.mongodb`. */
  function ParseMongodb(m: Option<MongoData>, v: PortView, bb: BannerBuilder, ts: TimestampReader): (p: Parsed)
    ensures p.attached <==> Attachment(m, bb).Some?
    ensures !Accepted(m) ==> p.view == v
    ensures Accepted(m) ==> p.view.service == Some("mongodb") && p.view.timestamp == ts(m.value, v.timestamp)
    ensures p.attached ==>
      && p.view.version == m.value.result.value.buildInfo.value.version
      && p.view.mongodb == Attachment(m, bb)
      && p.view.banner == Some(p.view.mongodb.value.banner)
    ensures !p.attached ==>
      p.view.version == v.version && p.view.banner == v.banner && p.view.mongodb == v.mongodb
  {
    if !Accepted(m) then Parsed(v, false)
    else
      var d := m.value;
      var stamped := v.(service := Some("mongodb"), timestamp := ts(d, v.timestamp));
      if d.result.None? || d.result.value.buildInfo.None? then Parsed(stamped, false)
      else
        var res := d.result.value;
        var bi := res.buildInfo.value;
        var banner := bb(res.isMaster, bi);
        Parsed(stamped.(version := bi.version, banner := Some(banner),
                        mongodb := Some(MongoRecord(res.isMaster, bi, banner))), true)
  }

  /**
   * `_parse_mongodb` on one PortInfo, field by field. A missing `build_info`
   * makes the source raise inside its `try` after the service and timestamp
   * were set; the handler returns false and those two updates stay.
   */
  method ParseMongodbInto(portinfo: PortInfo, m: Option<MongoData>, bb: BannerBuilder, ts: TimestampReader)
    returns (res: bool)
    modifies portinfo
    ensures Parsed(portinfo.View(), res) == ParseMongodb(m, old(portinfo.View()), bb, ts)
  {
    res := false;
    if m.None? {
      return;
    }
    var d := m.value;
    if d.status != Some("success") {
      return;
    }
    if d.protocol != Some("mongodb") {
      return;
    }
    if portinfo.service != d.protocol {
      portinfo.service := d.protocol;
    }
    portinfo.timestamp := ts(d, portinfo.timestamp);
    if d.result.None? {
      return;
    }
    var mres := d.result.value;
    if mres.buildInfo.None? {
      return;
    }
    var bi := mres.buildInfo.value;
    portinfo.version := bi.version;
    var banner := bb(mres.isMaster, bi);
    portinfo.banner := Some(banner);
    res := true;
    portinfo.mongodb := Some(MongoRecord(mres.isMaster, bi, banner));
  }

  // ---------------------------------------------------------------------
  // The line loop
  // ---------------------------------------------------------------------

  /** The PortInfo a line is about: its `ip` must be present and a key of the map. */
  function Target(pinfo: map<string, PortInfo>, line: Line): (t: Option<PortInfo>)
    ensures t.Some? ==> t.value in pinfo.Values
  {
    match line
    case Record(Some(ip), _) =>
      if ip in pinfo then
        assert pinfo[ip] in pinfo.Values;
        Some(pinfo[ip])
      else None
    case _ => None
  }

  /** The states of all PortInfos after one line, and whether the line attached a record. */
  datatype Outcome = Outcome(views: map<PortInfo, PortView>, attached: bool)

  /** One iteration of the loop on a line that was read. */
  function Step(views: map<PortInfo, PortView>, pinfo: map<string, PortInfo>, line: Line,
                bb: BannerBuilder, ts: TimestampReader): (o: Outcome)
    requires pinfo.Values <= views.Keys
    ensures o.views.Keys == views.Keys
    ensures o.attached ==> Target(pinfo, line).Some?
    ensures forall q :: q in views && Target(pinfo, line) != Some(q) ==> o.views[q] == views[q]
  {
    match Target(pinfo, line)
    case None => Outcome(views, false)
    case Some(t) =>
      var p := ParseMongodb(line.mongodb, views[t], bb, ts);
      Outcome(views[t := p.view], p.attached)
  }

  /** The states after a run over some lines, and the index of the line that ended it, if one did. */
  datatype Pass = Pass(views: map<PortInfo, PortView>, stoppedAt: Option<nat>)

  /**
   * The run after one more line, the `n`-th (from 0): a run that has stopped
   * stays as it is; otherwise the line is processed, and the run stops at it
   * if it attached a record.
   */
  function Next(p: Pass, pinfo: map<string, PortInfo>, x: Line, n: nat,
                bb: BannerBuilder, ts: TimestampReader): (r: Pass)
    requires pinfo.Values <= p.views.Keys
    ensures r.views.Keys == p.views.Keys
  {
    if p.stoppedAt.Some? then p
    else
      var o := Step(p.views, pinfo, x, bb, ts);
      Pass(o.views, if o.attached then Some(n) else None)
  }

  /** The loop over `lines`, read in order until a line attaches a record. */
  function ParseLines(views: map<PortInfo, PortView>, pinfo: map<string, PortInfo>, lines: seq<Line>,
                      bb: BannerBuilder, ts: TimestampReader): (r: Pass)
    requires pinfo.Values <= views.Keys
    ensures r.views.Keys == views.Keys
    ensures r.stoppedAt.Some? ==> r.stoppedAt.value < |lines|
    decreases |lines|
  {
    if lines == [] then Pass(views, None)
    else Next(ParseLines(views, pinfo, lines[..|lines| - 1], bb, ts), pinfo, lines[|lines| - 1], |lines| - 1, bb, ts)
  }

  /** Reading one more line: the run goes on from where the shorter file left it. */
  lemma ParseLinesSnoc(views: map<PortInfo, PortView>, pinfo: map<string, PortInfo>, lines: seq<Line>, x: Line,
                       bb: BannerBuilder, ts: TimestampReader)
    requires pinfo.Values <= views.Keys
    ensures ParseLines(views, pinfo, lines + [x], bb, ts)
         == Next(ParseLines(views, pinfo, lines, bb, ts), pinfo, x, |lines|, bb, ts)
  {
    var longer := lines + [x];
    assert longer[..|longer| - 1] == lines;
    assert longer[|longer| - 1] == x;
  }

  /** The states of a set of PortInfos. */
  function ViewsOf(objs: set<PortInfo>): (r: map<PortInfo, PortView>)
    reads objs
    ensures r.Keys == objs
  {
    map o | o in objs :: o.View()
  }

  /**
   * One iteration's work on a line that was read: a line that does not
   * decode, `null`, or a line whose `ip` is missing or unknown is skipped
   * (the source catches the decoding error, or logs and continues);
   * otherwise the line's PortInfo is updated in place.
   */
  method ParseLine(pinfo: map<string, PortInfo>, line: Line, bb: BannerBuilder, ts: TimestampReader)
    returns (res: bool)
    modifies pinfo.Values
    ensures Outcome(ViewsOf(pinfo.Values), res) == Step(old(ViewsOf(pinfo.Values)), pinfo, line, bb, ts)
  {
    ghost var before := ViewsOf(pinfo.Values);
    res := false;
    match Target(pinfo, line) {
      case None =>
      case Some(portinfo) =>
        res := ParseMongodbInto(portinfo, line.mongodb, bb, ts);
        assert ViewsOf(pinfo.Values) == before[portinfo := portinfo.View()];
    }
  }

  /**
   * `parse_banner_mongodb`. `resultFile` is the decoded file, or `None` when
   * it does not exist; the result is the final value of the line counter
   * (0 when there is no file). The counter starts at 1 and grows in the
   * `finally` clause on every iteration, including the one that reads the
   * end of the file and the one that breaks on success.
   */
  method ParseBannerMongodb(pinfo: map<string, PortInfo>, resultFile: Option<seq<Line>>,
                            bb: BannerBuilder, ts: TimestampReader)
    returns (linenum: nat)
    modifies pinfo.Values
    ensures resultFile.None? ==> ViewsOf(pinfo.Values) == old(ViewsOf(pinfo.Values)) && linenum == 0
    ensures resultFile.Some? ==>
      var r := ParseLines(old(ViewsOf(pinfo.Values)), pinfo, resultFile.value, bb, ts);
      && ViewsOf(pinfo.Values) == r.views
      && linenum == (if r.stoppedAt.Some? then r.stoppedAt.value + 2 else |resultFile.value| + 2)
  {
    if resultFile.None? {
      return 0;
    }
    var lines := resultFile.value;
    ghost var start := ViewsOf(pinfo.Values);
    ghost var run := Pass(start, None);
    linenum := 1;
    var i := 0;
    while true
      invariant 0 <= i <= |lines|
      invariant linenum == i + 1
      invariant run == ParseLines(start, pinfo, lines[..i], bb, ts)
      invariant run.stoppedAt == None && ViewsOf(pinfo.Values) == run.views
      decreases |lines| - i
    {
      if i == |lines| {
        // `readline()` returns '' at the end of the file
        linenum := linenum + 1;
        assert lines[..i] == lines;
        break;
      }
      var res := ParseLine(pinfo, lines[i], bb, ts);
      PrefixSnoc(start, pinfo, lines, i, bb, ts);
      run := Next(run, pinfo, lines[i], i, bb, ts);
      i := i + 1;
      linenum := linenum + 1;
      if res {
        LaterLinesIgnored(start, pinfo, lines, i, bb, ts);
        break;
      }
    }
  }

  /** The run over one more line of the file, for the loop above. */
  lemma PrefixSnoc(views: map<PortInfo, PortView>, pinfo: map<string, PortInfo>, lines: seq<Line>, i: nat,
                   bb: BannerBuilder, ts: TimestampReader)
    requires pinfo.Values <= views.Keys && i < |lines|
    ensures ParseLines(views, pinfo, lines[..i + 1], bb, ts)
         == Next(ParseLines(views, pinfo, lines[..i], bb, ts), pinfo, lines[i], i, bb, ts)
  {
    assert lines[..i + 1] == lines[..i] + [lines[i]];
    ParseLinesSnoc(views, pinfo, lines[..i], lines[i], bb, ts);
  }

  // ---------------------------------------------------------------------
  // What the loop promises
  // ---------------------------------------------------------------------

  /** Once a line has attached a record, the lines after it are never read. */
  lemma {:induction false} LaterLinesIgnored(views: map<PortInfo, PortView>, pinfo: map<string, PortInfo>,
                                             lines: seq<Line>, i: nat, bb: BannerBuilder, ts: TimestampReader)
    requires pinfo.Values <= views.Keys && i <= |lines|
    requires ParseLines(views, pinfo, lines[..i], bb, ts).stoppedAt.Some?
    ensures ParseLines(views, pinfo, lines, bb, ts) == ParseLines(views, pinfo, lines[..i], bb, ts)
    decreases |lines|
  {
    if i == |lines| {
      assert lines[..i] == lines;
    } else {
      var shorter := lines[..|lines| - 1];
      assert shorter[..i] == lines[..i];
      LaterLinesIgnored(views, pinfo, shorter, i, bb, ts);
    }
  }

  /**
   * The run stops at line `k` exactly when `k` is the first line that
   * attaches a record, and the states are then those right after line `k`.
   */
  lemma {:induction false} StopsAtFirstAttach(views: map<PortInfo, PortView>, pinfo: map<string, PortInfo>,
                                              lines: seq<Line>, k: nat, bb: BannerBuilder, ts: TimestampReader)
    requires pinfo.Values <= views.Keys
    ensures ParseLines(views, pinfo, lines, bb, ts).stoppedAt == Some(k) <==>
      && k < |lines|
      && ParseLines(views, pinfo, lines[..k], bb, ts).stoppedAt == None
      && Step(ParseLines(views, pinfo, lines[..k], bb, ts).views, pinfo, lines[k], bb, ts).attached
    ensures ParseLines(views, pinfo, lines, bb, ts).stoppedAt == Some(k) ==>
      ParseLines(views, pinfo, lines, bb, ts).views
        == Step(ParseLines(views, pinfo, lines[..k], bb, ts).views, pinfo, lines[k], bb, ts).views
    decreases |lines|
  {
    if lines != [] {
      var n := |lines| - 1;
      var prefix := lines[..n];
      if k < n {
        StopsAtFirstAttach(views, pinfo, prefix, k, bb, ts);
        assert prefix[..k] == lines[..k];
        if ParseLines(views, pinfo, prefix, bb, ts).stoppedAt == None {
          assert ParseLines(views, pinfo, lines, bb, ts).stoppedAt != Some(k);
        }
      } else if k == n {
        assert prefix == lines[..k];
      }
    }
  }

  /**
   * Only the first record that validates completely is attached: every
   * PortInfo keeps its MongoDB record except the one the stopping line is
   * about, which gets that line's record.
   */
  lemma {:induction false} OnlyFirstAttachStored(views: map<PortInfo, PortView>, pinfo: map<string, PortInfo>,
                                                 lines: seq<Line>, o: PortInfo, bb: BannerBuilder, ts: TimestampReader)
    requires pinfo.Values <= views.Keys && o in views
    ensures var r := ParseLines(views, pinfo, lines, bb, ts);
      r.views[o].mongodb ==
        if r.stoppedAt.Some? && Target(pinfo, lines[r.stoppedAt.value]) == Some(o)
        then Attachment(lines[r.stoppedAt.value].mongodb, bb)
        else views[o].mongodb
    decreases |lines|
  {
    if lines != [] {
      var n := |lines| - 1;
      var prefix := lines[..n];
      OnlyFirstAttachStored(views, pinfo, prefix, o, bb, ts);
      var p := ParseLines(views, pinfo, prefix, bb, ts);
      if p.stoppedAt.Some? {
        assert prefix[p.stoppedAt.value] == lines[p.stoppedAt.value];
      }
    }
  }

  /** A line that names no known PortInfo changes nothing and does not stop the run. */
  lemma UnknownLineSkipped(views: map<PortInfo, PortView>, pinfo: map<string, PortInfo>, line: Line,
                           bb: BannerBuilder, ts: TimestampReader)
    requires pinfo.Values <= views.Keys
    requires line.Malformed? || line.Null? || line.ip.None? || line.ip.value !in pinfo
    ensures Step(views, pinfo, line, bb, ts) == Outcome(views, false)
  {
  }

  /** A line with no accepted `data.mongodb`, or about no known PortInfo, changes nothing. */
  lemma SkippedStep(views: map<PortInfo, PortView>, pinfo: map<string, PortInfo>, line: Line,
                    bb: BannerBuilder, ts: TimestampReader)
    requires pinfo.Values <= views.Keys
    requires Target(pinfo, line).None? || !Accepted(line.mongodb)
    ensures Step(views, pinfo, line, bb, ts) == Outcome(views, false)
  {
    if Target(pinfo, line).Some? {
      var t := Target(pinfo, line).value;
      assert views[t := views[t]] == views;
    }
  }

  /** A skipped line at the end of the file changes neither the states nor where the run stopped. */
  lemma SkippedLineAtEnd(views: map<PortInfo, PortView>, pinfo: map<string, PortInfo>, a: seq<Line>, line: Line,
                         bb: BannerBuilder, ts: TimestampReader)
    requires pinfo.Values <= views.Keys
    requires Target(pinfo, line).None? || !Accepted(line.mongodb)
    ensures ParseLines(views, pinfo, a + [line], bb, ts) == ParseLines(views, pinfo, a, bb, ts)
  {
    ParseLinesSnoc(views, pinfo, a, line, bb, ts);
    SkippedStep(ParseLines(views, pinfo, a, bb, ts).views, pinfo, line, bb, ts);
  }

  /** Where a run stopped, once a line was inserted at position `at`. */
  function Reindexed(stop: Option<nat>, at: nat): Option<nat> {
    match stop
    case None => None
    case Some(k) => if k < at then Some(k) else Some(k + 1)
  }

  /** A run's result with its stopping line moved past a line inserted at `at`. */
  function Shifted(p: Pass, at: nat): Pass {
    p.(stoppedAt := Reindexed(p.stoppedAt, at))
  }

  /**
   * Processing a line one position later, on a run that has a line inserted
   * at `at`, agrees with the run without that line.
   */
  lemma NextReindexed(p: Pass, pinfo: map<string, PortInfo>, x: Line, n: nat, at: nat,
                      bb: BannerBuilder, ts: TimestampReader)
    requires pinfo.Values <= p.views.Keys && at <= n
    ensures var q := Next(p, pinfo, x, n, bb, ts);
      Next(p.(stoppedAt := Reindexed(p.stoppedAt, at)), pinfo, x, n + 1, bb, ts)
        == q.(stoppedAt := Reindexed(q.stoppedAt, at))
  {
  }

  /**
   * A line that is skipped whatever the states are (it does not decode, is
   * `null`, names no known IP, or has no accepted `data.mongodb`) can be
   * taken out of the file: the final states are the same, and a stopping
   * line after it is found one position earlier.
   */
  lemma {:induction false} SkippedLineIrrelevant(views: map<PortInfo, PortView>, pinfo: map<string, PortInfo>,
                                                 a: seq<Line>, line: Line, b: seq<Line>,
                                                 bb: BannerBuilder, ts: TimestampReader)
    requires pinfo.Values <= views.Keys
    requires Target(pinfo, line).None? || !Accepted(line.mongodb)
    ensures ParseLines(views, pinfo, a + [line] + b, bb, ts) == Shifted(ParseLines(views, pinfo, a + b, bb, ts), |a|)
    decreases |b|
  {
    if b == [] {
      assert a + [line] + b == a + [line];
      assert a + b == a;
      SkippedLineAtEnd(views, pinfo, a, line, bb, ts);
    } else {
      SkippedLineIrrelevant(views, pinfo, a, line, b[..|b| - 1], bb, ts);
      SkippedLineStep(views, pinfo, a, line, b, bb, ts);
    }
  }

  /** The inductive step of `SkippedLineIrrelevant`: the agreement survives one more line at the end. */
  lemma {:induction false} SkippedLineStep(views: map<PortInfo, PortView>, pinfo: map<string, PortInfo>,
                        a: seq<Line>, line: Line, b: seq<Line>,
                        bb: BannerBuilder, ts: TimestampReader)
    requires pinfo.Values <= views.Keys && b != []
    requires ParseLines(views, pinfo, a + [line] + b[..|b| - 1], bb, ts)
          == Shifted(ParseLines(views, pinfo, a + b[..|b| - 1], bb, ts), |a|)
    ensures ParseLines(views, pinfo, a + [line] + b, bb, ts) == Shifted(ParseLines(views, pinfo, a + b, bb, ts), |a|)
  {
    var shorter := b[..|b| - 1];
    var x := b[|b| - 1];
    var u := a + [line] + shorter;
    var t := a + shorter;
    var pv := ParseLines(views, pinfo, t, bb, ts);
    var q := Next(pv, pinfo, x, |t|, bb, ts);
    calc {
      ParseLines(views, pinfo, a + [line] + b, bb, ts);
      { assert a + [line] + b == u + [x]; }
      ParseLines(views, pinfo, u + [x], bb, ts);
      { ParseLinesSnoc(views, pinfo, u, x, bb, ts); }
      Next(ParseLines(views, pinfo, u, bb, ts), pinfo, x, |u|, bb, ts);
      { assert |u| == |t| + 1; }
      Next(pv.(stoppedAt := Reindexed(pv.stoppedAt, |a|)), pinfo, x, |t| + 1, bb, ts);
      { NextReindexed(pv, pinfo, x, |t|, |a|, bb, ts); }
      q.(stoppedAt := Reindexed(q.stoppedAt, |a|));
    }
    assert a + b == t + [x];
    ParseLinesSnoc(views, pinfo, t, x, bb, ts);
  }

  /**
   * The stop is global: after a first IP's record attaches, a second IP's
   * record on the next line is not read, and its PortInfo is unchanged.
   */
  lemma StopIsGlobal(a: PortInfo, b: PortInfo, views: map<PortInfo, PortView>, d1: MongoData, d2: MongoData,
                     bb: BannerBuilder, ts: TimestampReader)
    requires a != b && a in views && b in views
    requires Attachment(Some(d1), bb).Some? && Attachment(Some(d2), bb).Some?
    ensures var pinfo := map["10.0.0.1" := a, "10.0.0.2" := b];
      pinfo.Values <= views.Keys &&
      var r := ParseLines(views, pinfo, [Record(Some("10.0.0.1"), Some(d1)), Record(Some("10.0.0.2"), Some(d2))], bb, ts);
      r.stoppedAt == Some(0) && r.views[b] == views[b] && r.views[a].mongodb == Attachment(Some(d1), bb)
  {
    var pinfo := map["10.0.0.1" := a, "10.0.0.2" := b];
    assert pinfo.Values == {a, b} by {
      assert pinfo["10.0.0.1"] == a && pinfo["10.0.0.2"] == b;
    }
    var lines := [Record(Some("10.0.0.1"), Some(d1)), Record(Some("10.0.0.2"), Some(d2))];
    assert lines[..1][..0] == [];
    assert lines[..1] == [lines[0]];
    LaterLinesIgnored(views, pinfo, lines, 1, bb, ts);
  }

  /** The protocol must be exactly "mongodb": a record saying "mongo" is skipped and changes nothing. */
  lemma ProtocolMustBeMongodb(v: PortView, result: Option<MongoResult>, stamp: Option<string>,
                              bb: BannerBuilder, ts: TimestampReader)
    ensures ParseMongodb(Some(MongoData(Some("success"), Some("mongo"), result, stamp)), v, bb, ts) == Parsed(v, false)
  {
    assert "mongo" != "mongodb";
  }

  /**
   * One success line for a known IP: the PortInfo gets service "mongodb",
   * version "4.2.0", the built banner, and a record with `is_master` true;
   * the run stops at that line. The same line with its record under the key
   * "mongo" instead of "mongodb" changes nothing.
   */
  lemma SingleSuccessScenario(p: PortInfo, views: map<PortInfo, PortView>, bb: BannerBuilder, ts: TimestampReader)
    requires p in views
    ensures var pinfo := map["10.0.0.1" := p];
      var bi := BuildInfo(Some("4.2.0"), map[]);
      var d := MongoData(Some("success"), Some("mongodb"), Some(MongoResult(Some(true), Some(bi))), None);
      pinfo.Values <= views.Keys &&
      var r := ParseLines(views, pinfo, [Record(Some("10.0.0.1"), Some(d))], bb, ts);
      && r.stoppedAt == Some(0)
      && r.views[p].service == Some("mongodb")
      && r.views[p].version == Some("4.2.0")
      && r.views[p].banner == Some(bb(Some(true), bi))
      && r.views[p].mongodb == Some(MongoRecord(Some(true), bi, bb(Some(true), bi)))
      && ParseLines(views, pinfo, [Record(Some("10.0.0.1"), None)], bb, ts) == Pass(views, None)
  {
    var pinfo := map["10.0.0.1" := p];
    assert pinfo.Values == {p} by {
      assert pinfo["10.0.0.1"] == p;
    }
    var bi := BuildInfo(Some("4.2.0"), map[]);
    var d := MongoData(Some("success"), Some("mongodb"), Some(MongoResult(Some(true), Some(bi))), None);
    var lines := [Record(Some("10.0.0.1"), Some(d))];
    assert lines[..0] == [];
    var missing := [Record(Some("10.0.0.1"), None)];
    assert missing[..0] == [];
    SkippedStep(views, pinfo, missing[0], bb, ts);
  }
}
