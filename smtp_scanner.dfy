/**
 * The SMTP invocation builder of the zgrab2 scanner: the port check and the
 * host list of `get_banner_smtp`, the zgrab2 argument vector of `_scan_smtp`,
 * and the temporary-file handling around the prober run.
 *
 * The prober run itself, the host-file writer and the SMTP result parser are
 * outside this model: their outcomes enter as parameters.
 */
module SmtpScanner {
  import opened Wrappers
  import opened Sequences

  // ---------------------------------------------------------------------
  // Port check (get_banner_smtp)
  // ---------------------------------------------------------------------

  /** What `portinfo._port` holds: a Python int, or a value of any other type. */
  datatype PortField = IntPort(n: int) | NotAnInt

  /** A TCP port number. */
  type Port = p: int | 0 <= p <= 65535

  /**
   * The check made before anything is written: the port must be an int in
   * [0, 65535]; otherwise the scan raises "Invalid port".
   */
  function CheckPort(f: PortField): (r: Option<Port>)
    ensures r.Some? <==> f.IntPort? && 0 <= f.n <= 65535
    ensures r.Some? ==> r.value == f.n
  {
    match f
    case IntPort(n) => if 0 <= n <= 65535 then Some(n) else None
    case NotAnInt => None
  }

  // ---------------------------------------------------------------------
  // Decimal rendering of the port (f"-p {port}", "{batchid}_{port}.smtp")
  // ---------------------------------------------------------------------

  function DigitChar(d: nat): (c: char)
    requires d < 10
    ensures '0' <= c <= '9' && c as int - '0' as int == d
  {
    (d + '0' as int) as char
  }

  /** Python's `str(n)` for a non-negative int: its decimal digits, no leading zeros. */
  function NatToString(n: nat): (s: string)
    ensures |s| > 0 && forall i :: 0 <= i < |s| ==> '0' <= s[i] <= '9'
    ensures |s| > 1 ==> s[0] != '0'
  {
    if n < 10 then [DigitChar(n)]
    else
      var s := NatToString(n / 10) + [DigitChar(n % 10)];
      assert s[0] == NatToString(n / 10)[0];
      s
  }

  /** The number a string of decimal digits denotes. */
  function DecimalValue(s: string): nat
    requires forall i :: 0 <= i < |s| ==> '0' <= s[i] <= '9'
  {
    if s == [] then 0
    else DecimalValue(s[..|s| - 1]) * 10 + (s[|s| - 1] as int - '0' as int)
  }

  /** The rendered port can be read back: the "-p" element names the port scanned. */
  lemma {:induction false} DecimalRoundTrip(n: nat)
    ensures DecimalValue(NatToString(n)) == n
  {
    if n >= 10 {
      DecimalRoundTrip(n / 10);
      var s := NatToString(n);
      assert s[..|s| - 1] == NatToString(n / 10);
    }
  }

  // ---------------------------------------------------------------------
  // Host list (get_banner_smtp)
  // ---------------------------------------------------------------------

  /** The scan target as `get_banner_smtp` reads it from the PortInfo. */
  datatype PortTarget = PortTarget(host: string, hostnames: seq<string>, domains: seq<string>, port: PortField)

  /**
   * The host list written to the host file: the primary host, then every
   * hostname, then every domain, each added only if not yet in the list.
   */
  method CollectHosts(host: string, hostnames: seq<string>, domains: seq<string>) returns (hosts: seq<string>)
    ensures hosts == Dedup([host] + hostnames + domains)
    ensures |hosts| > 0 && hosts[0] == host
    ensures NoDuplicates(hosts)
    ensures forall h :: h in hosts <==> h == host || h in hostnames || h in domains
  {
    hosts := [host];
    assert hosts == Dedup([host]) by {
      DedupSnoc([], host);
      assert [] + [host] == [host];
    }
    hosts := AppendUnseen(hosts, [host], hostnames);
    hosts := AppendUnseen(hosts, [host] + hostnames, domains);
    ghost var all := [host] + hostnames + domains;
    DedupKeepsHead(all);
    DedupSameElements(all);
  }

  /**
   * One of the two loops of the host collection: appends each of `items`
   * that is not yet in `hosts`, in order. `walked` is everything seen so far.
   */
  method AppendUnseen(hosts: seq<string>, ghost walked: seq<string>, items: seq<string>) returns (r: seq<string>)
    requires hosts == Dedup(walked)
    ensures r == Dedup(walked + items)
  {
    r := hosts;
    assert walked + items[..0] == walked;
    for i := 0 to |items|
      invariant r == Dedup(walked + items[..i])
    {
      DedupNextItem(walked, items, i);
      r := AddIfNew(r, items[i]);
    }
    assert items[..|items|] == items;
  }

  /** `if h not in hosts: hosts.append(h)` */
  method AddIfNew(hosts: seq<string>, h: string) returns (r: seq<string>)
    ensures h in r && (forall y :: y in r <==> y in hosts || y == h)
    ensures h in hosts ==> r == hosts
    ensures h !in hosts ==> r == hosts + [h]
  {
    r := hosts;
    if h !in r {
      r := r + [h];
    }
  }

  /** One step of either loop: the next item is appended exactly when it is new. */
  lemma DedupNextItem(walked: seq<string>, items: seq<string>, i: nat)
    requires i < |items|
    ensures var r := Dedup(walked + items[..i]);
      Dedup(walked + items[..i + 1]) == if items[i] in r then r else r + [items[i]]
  {
    assert walked + items[..i + 1] == (walked + items[..i]) + [items[i]];
    DedupSnoc(walked + items[..i], items[i]);
  }

  // ---------------------------------------------------------------------
  // Argument vector (_scan_smtp)
  // ---------------------------------------------------------------------

  const SEND_EHLO := "--send-ehlo"
  /** The test string for the EHLO domain default: it matches only this exact element. */
  const EHLO_DOMAIN_TEST := "--ehlo-domain="
  const EHLO_DOMAIN := "--ehlo-domain=\"mail.example.com\""
  const KEEP_LOGS := "--keep-client-logs"
  const STARTTLS := "--starttls"
  const SMTPS := "--smtps"
  const INPUT_FILE_TEST := "--input-file="
  const OUTPUT_FILE_TEST := "--output-file="
  const SHORT_INPUT := "-f"
  const SHORT_OUTPUT := "-o"

  /** The fixed start of every vector: module name, port, timeout. */
  function Prefix(port: Port, timeout: string): seq<string> {
    ["smtp", "-p " + NatToString(port), "-t " + timeout]
  }

  /** The protocol defaults, in order, each kept only when its test string is not a caller argument. */
  function DefaultFlags(args: seq<string>): (r: seq<string>)
    ensures |r| <= 3
    ensures forall i :: 0 <= i < |r| ==> IsLongFlag(r[i])
  {
    assert IsLongFlag(SEND_EHLO) && IsLongFlag(EHLO_DOMAIN) && IsLongFlag(KEEP_LOGS);
    (if SEND_EHLO in args then [] else [SEND_EHLO])
    + (if EHLO_DOMAIN_TEST in args then [] else [EHLO_DOMAIN])
    + (if KEEP_LOGS in args then [] else [KEEP_LOGS])
  }

  /** The TLS mode a well-known port asks for when the caller has not already given it. */
  predicate ForcesStarttls(port: Port, args: seq<string>) {
    port == 25 && STARTTLS !in args
  }

  predicate ForcesSmtps(port: Port, args: seq<string>) {
    port == 465 && SMTPS !in args
  }

  /**
   * The caller arguments after the port convention: on port 25 (unless the
   * caller gave --starttls) the first --smtps goes and --starttls is added at
   * the end; on port 465 (unless the caller gave --smtps) the first
   * --starttls goes and --smtps is added; otherwise they are left alone.
   */
  function TransportFlags(port: Port, args: seq<string>): (r: seq<string>)
    ensures port == 25 ==> STARTTLS in r
    ensures port == 465 ==> SMTPS in r
    ensures ForcesStarttls(port, args) ==> |r| == |args| + (if SMTPS in args then 0 else 1) && r[|r| - 1] == STARTTLS
    ensures ForcesSmtps(port, args) ==> |r| == |args| + (if STARTTLS in args then 0 else 1) && r[|r| - 1] == SMTPS
  {
    if ForcesStarttls(port, args) then
      (if SMTPS in args then RemoveFirst(args, SMTPS) else args) + [STARTTLS]
    else if ForcesSmtps(port, args) then
      (if STARTTLS in args then RemoveFirst(args, STARTTLS) else args) + [SMTPS]
    else args
  }

  /** The -f flag is left out only when the caller gave both "--input-file=" and "-f" (likewise -o). */
  predicate AddsInputFlag(args: seq<string>) {
    INPUT_FILE_TEST !in args || SHORT_INPUT !in args
  }

  predicate AddsOutputFlag(args: seq<string>) {
    OUTPUT_FILE_TEST !in args || SHORT_OUTPUT !in args
  }

  /** The -f and -o flags appended at the end, each at most once. */
  function FileFlags(args: seq<string>, hostFile: string, outFile: string): (r: seq<string>)
    ensures |r| <= 2
    ensures "-f " + hostFile in r <==> AddsInputFlag(args)
    ensures "-o " + outFile in r <==> AddsOutputFlag(args)
  {
    assert ("-f " + hostFile)[1] == 'f' && ("-o " + outFile)[1] == 'o';
    (if AddsInputFlag(args) then ["-f " + hostFile] else [])
    + (if AddsOutputFlag(args) then ["-o " + outFile] else [])
  }

  /** The whole vector handed to zgrab2. */
  function SmtpArgv(port: Port, timeout: string, args: seq<string>, hostFile: string, outFile: string): (r: seq<string>)
    ensures |args| + 3 <= |r| <= |args| + 9
    ensures port == 25 ==> STARTTLS in r
    ensures port == 465 ==> SMTPS in r
  {
    Prefix(port, timeout) + DefaultFlags(args) + TransportFlags(port, args) + FileFlags(args, hostFile, outFile)
  }

  /**
   * `os.path.join(a, b)` on POSIX: an absolute `b` replaces `a`; otherwise a
   * "/" is put between them unless `a` is empty or already ends in "/".
   */
  function PathJoin(a: string, b: string): (r: string)
    ensures |r| >= |b| && r[|r| - |b|..] == b
    ensures b != [] && b[0] == '/' ==> r == b
  {
    if b != [] && b[0] == '/' then b
    else if a == [] || a[|a| - 1] == '/' then a + b
    else a + "/" + b
  }

  /** The result file "{tmpdir}/{batchid}_{port}.smtp". */
  function ResultFilePath(tmpdir: string, batchid: string, port: Port): string {
    PathJoin(tmpdir, batchid + "_" + NatToString(port) + ".smtp")
  }

  /**
   * The result file is named "{batchid}_{port}.smtp" and, unless the batch id
   * is itself an absolute path, lies under `tmpdir`.
   */
  lemma ResultFileNaming(tmpdir: string, batchid: string, port: Port)
    ensures var r, name := ResultFilePath(tmpdir, batchid, port), batchid + "_" + NatToString(port) + ".smtp";
      && |r| >= |name| && r[|r| - |name|..] == name
      && (batchid == [] || batchid[0] != '/' ==> |r| >= |tmpdir| && r[..|tmpdir|] == tmpdir)
  {
    var name := batchid + "_" + NatToString(port) + ".smtp";
    if batchid == [] || batchid[0] != '/' {
      assert name[0] != '/';
    }
  }

  /** An element starting with "--" is never one of the prefix elements or one of the -f/-o flags. */
  predicate IsLongFlag(s: string) {
    |s| >= 2 && s[0] == '-' && s[1] == '-'
  }

  lemma LongFlagsAreNotPrefix(port: Port, timeout: string, x: string)
    requires IsLongFlag(x)
    ensures x !in Prefix(port, timeout)
  {
    var p := Prefix(port, timeout);
    assert p[1][1] == 'p' && p[2][1] == 't';
  }

  lemma LongFlagsAreNotFileFlags(args: seq<string>, hostFile: string, outFile: string, x: string)
    requires IsLongFlag(x)
    ensures x !in FileFlags(args, hostFile, outFile)
  {
    assert ("-f " + hostFile)[1] == 'f';
    assert ("-o " + outFile)[1] == 'o';
  }

  /**
   * The port-convention step on the vector built so far (`enhanced_args`,
   * whose head holds no TLS flag): membership tests on the whole vector,
   * `append` of the port's flag, `list.remove` of the first opposing flag.
   */
  method ApplyPortConvention(port: Port, enhanced: seq<string>, ghost head: seq<string>, ghost args: seq<string>)
    returns (argv: seq<string>)
    requires enhanced == head + args
    requires STARTTLS !in head && SMTPS !in head
    ensures argv == head + TransportFlags(port, args)
  {
    argv := enhanced;
    if port == 25 && STARTTLS !in argv {
      assert ForcesStarttls(port, args);
      argv := argv + [STARTTLS];
      assert argv == head + (args + [STARTTLS]);
      if SMTPS in argv {
        assert SMTPS in args;
        RemoveFirstAfter(head, args + [STARTTLS], SMTPS);
        RemoveFirstBefore(args, [STARTTLS], SMTPS);
        argv := RemoveFirst(argv, SMTPS);
      } else {
        assert SMTPS !in args;
      }
    } else if port == 465 && SMTPS !in argv {
      assert !ForcesStarttls(port, args) && ForcesSmtps(port, args);
      argv := argv + [SMTPS];
      assert argv == head + (args + [SMTPS]);
      if STARTTLS in argv {
        assert STARTTLS in args;
        RemoveFirstAfter(head, args + [SMTPS], STARTTLS);
        RemoveFirstBefore(args, [SMTPS], STARTTLS);
        argv := RemoveFirst(argv, STARTTLS);
      } else {
        assert STARTTLS !in args;
      }
    } else {
      assert !ForcesStarttls(port, args) && !ForcesSmtps(port, args);
    }
  }

  /**
   * The source's steps: append the prefix and the defaults, extend by the
   * caller arguments, apply the port convention on the vector built so far
   * (membership tests and `list.remove` on the whole vector), then append the
   * file flags.
   */
  method BuildSmtpArgs(port: Port, timeout: string, args: seq<string>, hostFile: string, tmpdir: string, batchid: string)
    returns (argv: seq<string>, outFile: string)
    ensures outFile == ResultFilePath(tmpdir, batchid, port)
    ensures argv == SmtpArgv(port, timeout, args, hostFile, outFile)
  {
    argv := [];
    argv := argv + ["smtp"];
    argv := argv + ["-p " + NatToString(port)];
    argv := argv + ["-t " + timeout];
    assert argv == Prefix(port, timeout);

    argv := AppendDefaults(argv, args);
    ghost var head := argv;
    LongFlagsAreNotPrefix(port, timeout, STARTTLS);
    LongFlagsAreNotPrefix(port, timeout, SMTPS);
    assert STARTTLS !in head && SMTPS !in head;

    argv := argv + args;

    argv := ApplyPortConvention(port, argv, head, args);
    outFile := PathJoin(tmpdir, batchid + "_" + NatToString(port) + ".smtp");
    argv := AppendFileFlags(argv, args, hostFile, outFile);
  }

  /** Lines 95-100: each default is appended unless its test string is a caller argument. */
  method AppendDefaults(enhanced: seq<string>, args: seq<string>) returns (argv: seq<string>)
    ensures argv == enhanced + DefaultFlags(args)
  {
    argv := enhanced;
    if SEND_EHLO !in args {
      argv := argv + [SEND_EHLO];
    }
    if EHLO_DOMAIN_TEST !in args {
      argv := argv + [EHLO_DOMAIN];
    }
    if KEEP_LOGS !in args {
      argv := argv + [KEEP_LOGS];
    }
  }

  /** Lines 117-125: -f and then -o are appended unless the caller gave both their spellings. */
  method AppendFileFlags(enhanced: seq<string>, args: seq<string>, hostFile: string, outFile: string)
    returns (argv: seq<string>)
    ensures argv == enhanced + FileFlags(args, hostFile, outFile)
  {
    argv := enhanced;
    ghost var inputFlag: seq<string> := [];
    if INPUT_FILE_TEST !in args || SHORT_INPUT !in args {
      inputFlag := ["-f " + hostFile];
      argv := argv + ["-f " + hostFile];
    }
    ghost var outputFlag: seq<string> := [];
    if OUTPUT_FILE_TEST !in args || SHORT_OUTPUT !in args {
      outputFlag := ["-o " + outFile];
      argv := argv + ["-o " + outFile];
    }
    assert argv == enhanced + inputFlag + outputFlag;
    assert FileFlags(args, hostFile, outFile) == inputFlag + outputFlag;
  }

  // ---------------------------------------------------------------------
  // What the vector promises
  // ---------------------------------------------------------------------

  /** An element starting with "-f " or "-o " is not a prefix element or a long flag. */
  lemma FileFlagsAreNotPrefix(port: Port, timeout: string, x: string)
    requires |x| >= 2 && x[0] == '-' && (x[1] == 'f' || x[1] == 'o')
    ensures x !in Prefix(port, timeout) && !IsLongFlag(x)
  {
    var p := Prefix(port, timeout);
    assert p[0][0] == 's' && p[1][1] == 'p' && p[2][1] == 't';
  }

  /** How many times `x` occurs in the vector, piece by piece. */
  lemma ArgvCount(port: Port, timeout: string, args: seq<string>, hostFile: string, outFile: string, x: string)
    ensures Count(SmtpArgv(port, timeout, args, hostFile, outFile), x)
         == Count(Prefix(port, timeout), x) + Count(DefaultFlags(args), x)
          + Count(TransportFlags(port, args), x) + Count(FileFlags(args, hostFile, outFile), x)
  {
    var p, d, t, f := Prefix(port, timeout), DefaultFlags(args), TransportFlags(port, args), FileFlags(args, hostFile, outFile);
    CountConcat(p, d, x);
    CountConcat(p + d, t, x);
    CountConcat(p + d + t, f, x);
  }

  /** How many times `x` occurs among the added defaults: once for each default it is and that is added. */
  lemma DefaultsCount(args: seq<string>, x: string)
    ensures Count(DefaultFlags(args), x)
         == (if x == SEND_EHLO && SEND_EHLO !in args then 1 else 0)
          + (if x == EHLO_DOMAIN && EHLO_DOMAIN_TEST !in args then 1 else 0)
          + (if x == KEEP_LOGS && KEEP_LOGS !in args then 1 else 0)
  {
    var a: seq<string> := if SEND_EHLO in args then [] else [SEND_EHLO];
    var b: seq<string> := if EHLO_DOMAIN_TEST in args then [] else [EHLO_DOMAIN];
    var c: seq<string> := if KEEP_LOGS in args then [] else [KEEP_LOGS];
    CountConcat(a, b, x);
    CountConcat(a + b, c, x);
    CountSingleton(SEND_EHLO, x);
    CountSingleton(EHLO_DOMAIN, x);
    CountSingleton(KEEP_LOGS, x);
  }

  /** The port convention adds or removes only the two TLS flags. */
  lemma TransportKeepsOthers(port: Port, args: seq<string>, x: string)
    requires x != STARTTLS && x != SMTPS
    ensures Count(TransportFlags(port, args), x) == Count(args, x)
  {
    CountSingleton(STARTTLS, x);
    CountSingleton(SMTPS, x);
    if ForcesStarttls(port, args) {
      if SMTPS in args {
        RemoveFirstCount(args, SMTPS, x);
        CountConcat(RemoveFirst(args, SMTPS), [STARTTLS], x);
      } else {
        CountConcat(args, [STARTTLS], x);
      }
    } else if ForcesSmtps(port, args) {
      if STARTTLS in args {
        RemoveFirstCount(args, STARTTLS, x);
        CountConcat(RemoveFirst(args, STARTTLS), [SMTPS], x);
      } else {
        CountConcat(args, [SMTPS], x);
      }
    }
  }

  /** How many TLS flags of each kind the port convention leaves. */
  lemma TransportTlsCounts(port: Port, args: seq<string>)
    ensures ForcesStarttls(port, args) ==>
      Count(TransportFlags(port, args), STARTTLS) == 1 &&
      Count(TransportFlags(port, args), SMTPS) == Count(args, SMTPS) - (if SMTPS in args then 1 else 0)
    ensures ForcesSmtps(port, args) ==>
      Count(TransportFlags(port, args), SMTPS) == 1 &&
      Count(TransportFlags(port, args), STARTTLS) == Count(args, STARTTLS) - (if STARTTLS in args then 1 else 0)
    ensures !ForcesStarttls(port, args) && !ForcesSmtps(port, args) ==> TransportFlags(port, args) == args
  {
    CountPositive(args, STARTTLS);
    CountPositive(args, SMTPS);
    CountSingleton(STARTTLS, STARTTLS);
    CountSingleton(STARTTLS, SMTPS);
    CountSingleton(SMTPS, STARTTLS);
    CountSingleton(SMTPS, SMTPS);
    if ForcesStarttls(port, args) {
      var kept := if SMTPS in args then RemoveFirst(args, SMTPS) else args;
      if SMTPS in args {
        RemoveFirstCount(args, SMTPS, STARTTLS);
        RemoveFirstCount(args, SMTPS, SMTPS);
      }
      CountConcat(kept, [STARTTLS], STARTTLS);
      CountConcat(kept, [STARTTLS], SMTPS);
    } else if ForcesSmtps(port, args) {
      var kept := if STARTTLS in args then RemoveFirst(args, STARTTLS) else args;
      if STARTTLS in args {
        RemoveFirstCount(args, STARTTLS, STARTTLS);
        RemoveFirstCount(args, STARTTLS, SMTPS);
      }
      CountConcat(kept, [SMTPS], STARTTLS);
      CountConcat(kept, [SMTPS], SMTPS);
    }
  }

  /** A long flag occurs in the vector as often as among the added defaults and the adjusted caller arguments. */
  lemma LongFlagCount(port: Port, timeout: string, args: seq<string>, hostFile: string, outFile: string, x: string)
    requires IsLongFlag(x)
    ensures Count(SmtpArgv(port, timeout, args, hostFile, outFile), x)
         == Count(DefaultFlags(args), x) + Count(TransportFlags(port, args), x)
  {
    ArgvCount(port, timeout, args, hostFile, outFile, x);
    LongFlagsAreNotPrefix(port, timeout, x);
    LongFlagsAreNotFileFlags(args, hostFile, outFile, x);
    CountPositive(Prefix(port, timeout), x);
    CountPositive(FileFlags(args, hostFile, outFile), x);
  }

  /** Every vector begins with "smtp", "-p {port}", "-t {timeout}", and the port can be read back from it. */
  lemma ArgvBeginsWithPrefix(port: Port, timeout: string, args: seq<string>, hostFile: string, outFile: string)
    ensures var v := SmtpArgv(port, timeout, args, hostFile, outFile);
      |v| >= 3 && v[0] == "smtp" && v[1] == "-p " + NatToString(port) && v[2] == "-t " + timeout
      && DecimalValue(v[1][3..]) == port
  {
    var v := SmtpArgv(port, timeout, args, hostFile, outFile);
    assert v[1][3..] == NatToString(port);
    DecimalRoundTrip(port);
  }

  /**
   * Each default is added exactly when its test string is not a caller
   * argument: it then occurs once more than among the caller arguments.
   */
  lemma DefaultsAddedWhenAbsent(port: Port, timeout: string, args: seq<string>, hostFile: string, outFile: string)
    ensures var v := SmtpArgv(port, timeout, args, hostFile, outFile);
      && Count(v, SEND_EHLO) == Count(args, SEND_EHLO) + (if SEND_EHLO in args then 0 else 1)
      && Count(v, EHLO_DOMAIN) == Count(args, EHLO_DOMAIN) + (if EHLO_DOMAIN_TEST in args then 0 else 1)
      && Count(v, KEEP_LOGS) == Count(args, KEEP_LOGS) + (if KEEP_LOGS in args then 0 else 1)
  {
    var v := SmtpArgv(port, timeout, args, hostFile, outFile);
    assert |SEND_EHLO| == 11 && |EHLO_DOMAIN| == 32 && |KEEP_LOGS| == 18;
    assert Count(v, SEND_EHLO) == Count(args, SEND_EHLO) + (if SEND_EHLO in args then 0 else 1) by {
      TransportKeepsOthers(port, args, SEND_EHLO);
      LongFlagCount(port, timeout, args, hostFile, outFile, SEND_EHLO);
      DefaultsCount(args, SEND_EHLO);
    }
    assert Count(v, EHLO_DOMAIN) == Count(args, EHLO_DOMAIN) + (if EHLO_DOMAIN_TEST in args then 0 else 1) by {
      TransportKeepsOthers(port, args, EHLO_DOMAIN);
      LongFlagCount(port, timeout, args, hostFile, outFile, EHLO_DOMAIN);
      DefaultsCount(args, EHLO_DOMAIN);
    }
    assert Count(v, KEEP_LOGS) == Count(args, KEEP_LOGS) + (if KEEP_LOGS in args then 0 else 1) by {
      TransportKeepsOthers(port, args, KEEP_LOGS);
      LongFlagCount(port, timeout, args, hostFile, outFile, KEEP_LOGS);
      DefaultsCount(args, KEEP_LOGS);
    }
  }

  /**
   * The caller arguments follow the added defaults unchanged and in order,
   * except that the port convention drops the first opposing TLS flag and
   * puts its own flag right after them.
   */
  lemma CallerArgsFollowDefaults(port: Port, timeout: string, args: seq<string>, hostFile: string, outFile: string)
    ensures var v := SmtpArgv(port, timeout, args, hostFile, outFile);
      var b := 3 + |DefaultFlags(args)|;
      && |DefaultFlags(args)| == (if SEND_EHLO in args then 0 else 1) + (if EHLO_DOMAIN_TEST in args then 0 else 1) + (if KEEP_LOGS in args then 0 else 1)
      && (ForcesStarttls(port, args) && SMTPS in args ==>
            v[b..b + |args|] == RemoveFirst(args, SMTPS) + [STARTTLS])
      && (ForcesStarttls(port, args) && SMTPS !in args ==> v[b..b + |args| + 1] == args + [STARTTLS])
      && (ForcesSmtps(port, args) && STARTTLS in args ==>
            v[b..b + |args|] == RemoveFirst(args, STARTTLS) + [SMTPS])
      && (ForcesSmtps(port, args) && STARTTLS !in args ==> v[b..b + |args| + 1] == args + [SMTPS])
      && (!ForcesStarttls(port, args) && !ForcesSmtps(port, args) ==> v[b..b + |args|] == args)
  {
    var v := SmtpArgv(port, timeout, args, hostFile, outFile);
    var b := 3 + |DefaultFlags(args)|;
    var t := TransportFlags(port, args);
    assert v == (Prefix(port, timeout) + DefaultFlags(args)) + t + FileFlags(args, hostFile, outFile);
    assert v[b..b + |t|] == t;
  }

  /**
   * Port 25 without a caller --starttls: the vector holds exactly one
   * --starttls, and one --smtps fewer than the caller gave (none when the
   * caller gave at most one).
   */
  lemma Port25ForcesStarttls(port: Port, timeout: string, args: seq<string>, hostFile: string, outFile: string)
    requires port == 25 && STARTTLS !in args
    ensures var v := SmtpArgv(port, timeout, args, hostFile, outFile);
      && Count(v, STARTTLS) == 1
      && Count(v, SMTPS) == Count(args, SMTPS) - (if SMTPS in args then 1 else 0)
  {
    TransportTlsCounts(port, args);
    LongFlagCount(port, timeout, args, hostFile, outFile, STARTTLS);
    LongFlagCount(port, timeout, args, hostFile, outFile, SMTPS);
    DefaultsCount(args, STARTTLS);
    DefaultsCount(args, SMTPS);
  }

  /** Port 465 without a caller --smtps: exactly one --smtps, and one --starttls fewer than the caller gave. */
  lemma Port465ForcesSmtps(port: Port, timeout: string, args: seq<string>, hostFile: string, outFile: string)
    requires port == 465 && SMTPS !in args
    ensures var v := SmtpArgv(port, timeout, args, hostFile, outFile);
      && Count(v, SMTPS) == 1
      && Count(v, STARTTLS) == Count(args, STARTTLS) - (if STARTTLS in args then 1 else 0)
  {
    TransportTlsCounts(port, args);
    LongFlagCount(port, timeout, args, hostFile, outFile, STARTTLS);
    LongFlagCount(port, timeout, args, hostFile, outFile, SMTPS);
    DefaultsCount(args, STARTTLS);
    DefaultsCount(args, SMTPS);
  }

  /**
   * On any other port, or when the caller already gave the port's own flag,
   * no TLS flag is added or removed.
   */
  lemma TlsFlagsUntouchedOtherwise(port: Port, timeout: string, args: seq<string>, hostFile: string, outFile: string)
    requires !ForcesStarttls(port, args) && !ForcesSmtps(port, args)
    ensures var v := SmtpArgv(port, timeout, args, hostFile, outFile);
      Count(v, STARTTLS) == Count(args, STARTTLS) && Count(v, SMTPS) == Count(args, SMTPS)
  {
    TransportTlsCounts(port, args);
    LongFlagCount(port, timeout, args, hostFile, outFile, STARTTLS);
    LongFlagCount(port, timeout, args, hostFile, outFile, SMTPS);
    DefaultsCount(args, STARTTLS);
    DefaultsCount(args, SMTPS);
  }

  /** With no caller arguments: port 25 scans with --starttls only, port 465 with --smtps only, other ports with neither. */
  lemma TlsModeWithoutCallerArgs(port: Port, timeout: string, hostFile: string, outFile: string)
    ensures var v := SmtpArgv(port, timeout, [], hostFile, outFile);
      && (port == 25 ==> STARTTLS in v && SMTPS !in v)
      && (port == 465 ==> SMTPS in v && STARTTLS !in v)
      && (port != 25 && port != 465 ==> STARTTLS !in v && SMTPS !in v)
  {
    var v := SmtpArgv(port, timeout, [], hostFile, outFile);
    TlsModesExclusiveWithoutCallerFlags(port, timeout, [], hostFile, outFile);
    CountPositive(v, STARTTLS);
    CountPositive(v, SMTPS);
    if port == 25 {
      Port25ForcesStarttls(port, timeout, [], hostFile, outFile);
    } else if port == 465 {
      Port465ForcesSmtps(port, timeout, [], hostFile, outFile);
    } else {
      TlsFlagsUntouchedOtherwise(port, timeout, [], hostFile, outFile);
    }
  }

  /** Unless the caller passes a TLS flag, the vector never holds both --starttls and --smtps. */
  lemma TlsModesExclusiveWithoutCallerFlags(port: Port, timeout: string, args: seq<string>, hostFile: string, outFile: string)
    requires STARTTLS !in args && SMTPS !in args
    ensures var v := SmtpArgv(port, timeout, args, hostFile, outFile);
      !(STARTTLS in v && SMTPS in v)
  {
    var v := SmtpArgv(port, timeout, args, hostFile, outFile);
    CountPositive(args, STARTTLS);
    CountPositive(args, SMTPS);
    CountPositive(v, STARTTLS);
    CountPositive(v, SMTPS);
    if port == 25 {
      Port25ForcesStarttls(port, timeout, args, hostFile, outFile);
    } else if port == 465 {
      Port465ForcesSmtps(port, timeout, args, hostFile, outFile);
    } else {
      TlsFlagsUntouchedOtherwise(port, timeout, args, hostFile, outFile);
    }
  }

  /** A caller that passes both TLS flags keeps both, even on port 25: exclusivity covers only the builder's own flags. */
  lemma CallerTlsPairSurvives(timeout: string, hostFile: string, outFile: string)
    ensures var v := SmtpArgv(25, timeout, [STARTTLS, SMTPS], hostFile, outFile);
      STARTTLS in v && SMTPS in v
  {
    var args := [STARTTLS, SMTPS];
    var v := SmtpArgv(25, timeout, args, hostFile, outFile);
    assert !ForcesStarttls(25, args) && !ForcesSmtps(25, args);
    assert TransportFlags(25, args) == args;
    assert v == Prefix(25, timeout) + DefaultFlags(args) + args + FileFlags(args, hostFile, outFile);
  }

  /**
   * `list.remove` drops only the first opposing flag: a caller who passes
   * --smtps twice on port 25 keeps one of them next to the added --starttls.
   */
  lemma RepeatedOpposingFlagSurvives(timeout: string, hostFile: string, outFile: string)
    ensures var v := SmtpArgv(25, timeout, [SMTPS, SMTPS], hostFile, outFile);
      STARTTLS in v && SMTPS in v
  {
    var args := [SMTPS, SMTPS];
    assert STARTTLS != SMTPS by { assert |STARTTLS| != |SMTPS|; }
    assert ForcesStarttls(25, args);
    assert RemoveFirst(args, SMTPS) == [SMTPS];
    assert TransportFlags(25, args) == [SMTPS, STARTTLS];
    assert SmtpArgv(25, timeout, args, hostFile, outFile)
        == Prefix(25, timeout) + DefaultFlags(args) + [SMTPS, STARTTLS] + FileFlags(args, hostFile, outFile);
  }

  /** Every caller argument other than the two TLS flags reaches zgrab2. */
  lemma CallerArgsReachProber(port: Port, timeout: string, args: seq<string>, hostFile: string, outFile: string, x: string)
    requires x in args && x != STARTTLS && x != SMTPS
    ensures x in SmtpArgv(port, timeout, args, hostFile, outFile)
  {
    var t := TransportFlags(port, args);
    assert x in t;
    assert SmtpArgv(port, timeout, args, hostFile, outFile)
        == (Prefix(port, timeout) + DefaultFlags(args)) + t + FileFlags(args, hostFile, outFile);
  }

  /**
   * The -f and -o flags are appended unless the caller gave both their long
   * test string and their short flag; when both are appended they are the
   * last two elements, -f first.
   */
  lemma FileFlagsAtEnd(port: Port, timeout: string, args: seq<string>, hostFile: string, outFile: string)
    ensures var v := SmtpArgv(port, timeout, args, hostFile, outFile);
      && Count(v, "-f " + hostFile) == Count(args, "-f " + hostFile) + (if AddsInputFlag(args) then 1 else 0)
      && Count(v, "-o " + outFile) == Count(args, "-o " + outFile) + (if AddsOutputFlag(args) then 1 else 0)
      && (AddsInputFlag(args) && AddsOutputFlag(args) ==>
            v[|v| - 2] == "-f " + hostFile && v[|v| - 1] == "-o " + outFile)
      && (AddsOutputFlag(args) ==> v[|v| - 1] == "-o " + outFile)
  {
    var f := "-f " + hostFile;
    var o := "-o " + outFile;
    assert f[1] == 'f' && o[1] == 'o';
    FileFlagCount(port, timeout, args, hostFile, outFile, f);
    FileFlagCount(port, timeout, args, hostFile, outFile, o);
    var a: seq<string> := if AddsInputFlag(args) then [f] else [];
    var b: seq<string> := if AddsOutputFlag(args) then [o] else [];
    assert FileFlags(args, hostFile, outFile) == a + b;
    CountConcat(a, b, f);
    CountConcat(a, b, o);
    CountSingleton(f, f);
    CountSingleton(f, o);
    CountSingleton(o, f);
    CountSingleton(o, o);
  }

  /** An element starting with "-f " or "-o " occurs as often as among the caller arguments and the file flags. */
  lemma FileFlagCount(port: Port, timeout: string, args: seq<string>, hostFile: string, outFile: string, x: string)
    requires |x| >= 2 && x[0] == '-' && (x[1] == 'f' || x[1] == 'o')
    ensures Count(SmtpArgv(port, timeout, args, hostFile, outFile), x)
         == Count(args, x) + Count(FileFlags(args, hostFile, outFile), x)
  {
    assert x != STARTTLS && x != SMTPS by {
      assert STARTTLS[1] == '-' && SMTPS[1] == '-';
    }
    assert x != SEND_EHLO && x != EHLO_DOMAIN && x != KEEP_LOGS by {
      assert SEND_EHLO[1] == '-' && EHLO_DOMAIN[1] == '-' && KEEP_LOGS[1] == '-';
    }
    TransportKeepsOthers(port, args, x);
    FileFlagsAreNotPrefix(port, timeout, x);
    CountPositive(Prefix(port, timeout), x);
    DefaultsCount(args, x);
    ArgvCount(port, timeout, args, hostFile, outFile, x);
  }

  /** The EHLO-domain test is exact: a caller "--ehlo-domain=example.org" does not stop the default from being added. */
  lemma EhloDomainTestIsExact(port: Port, timeout: string, hostFile: string, outFile: string)
    ensures var v := SmtpArgv(port, timeout, ["--ehlo-domain=example.org"], hostFile, outFile);
      EHLO_DOMAIN in v && "--ehlo-domain=example.org" in v
  {
    var e := "--ehlo-domain=example.org";
    var args := [e];
    assert EHLO_DOMAIN_TEST !in args;
    assert EHLO_DOMAIN in DefaultFlags(args);
    assert e != STARTTLS && e != SMTPS;
    TransportKeepsOthers(port, args, e);
    CountSingleton(e, e);
    CountPositive(TransportFlags(port, args), e);
  }

  /** A caller "--input-file=..." alone does not stop -f from being appended. */
  lemma InputFileNeedsBothFlags(port: Port, timeout: string, hostFile: string, outFile: string)
    ensures var v := SmtpArgv(port, timeout, ["--input-file=hosts.txt"], hostFile, outFile);
      "-f " + hostFile in v
  {
    var args := ["--input-file=hosts.txt"];
    assert SHORT_INPUT !in args;
    assert "-f " + hostFile in FileFlags(args, hostFile, outFile);
  }

  // ---------------------------------------------------------------------
  // Running the prober and cleaning up
  // ---------------------------------------------------------------------

  /**
   * How a run of the prober ended: it exited with a code, or it was aborted
   * (it could not be started, or it outlived the timeout). Either way it may
   * have written the result file first.
   */
  datatype ProberRun = Exited(code: int, wroteOutput: bool) | Aborted(wroteOutput: bool)

  /** Only an exit code of zero counts as success. */
  predicate Succeeded(r: ProberRun) {
    r.Exited? && r.code == 0
  }

  /** The files present on disk, by path. */
  class ScanFiles {
    var present: set<string>

    constructor(initial: set<string>)
      ensures present == initial
    {
      present := initial;
    }

    /** Writes the file at `path`, creating it if it is missing. */
    method Create(path: string)
      modifies this
      ensures present == old(present) + {path}
    {
      present := present + {path};
    }

    /** `if os.path.isfile(path): os.remove(path)`. */
    method RemoveIfPresent(path: string)
      modifies this
      ensures present == old(present) - {path}
    {
      if path in present {
        present := present - {path};
      }
    }
  }

  /**
   * Builds the vector, runs the prober on it and returns the result path on
   * success. On a nonzero exit code or an aborted run the result file is
   * removed if present and no path is returned.
   */
  method ScanSmtp(files: ScanFiles, hostFile: string, port: Port, timeout: string, args: seq<string>,
                  tmpdir: string, batchid: string, run: seq<string> -> ProberRun)
    returns (outfi: Option<string>, argv: seq<string>)
    modifies files
    ensures var o := ResultFilePath(tmpdir, batchid, port);
      && argv == SmtpArgv(port, timeout, args, hostFile, o)
      && (Succeeded(run(argv)) ==>
            outfi == Some(o) && files.present == old(files.present) + (if run(argv).wroteOutput then {o} else {}))
      && (!Succeeded(run(argv)) ==> outfi == None && files.present == old(files.present) - {o})
  {
    var o;
    argv, o := BuildSmtpArgs(port, timeout, args, hostFile, tmpdir, batchid);
    var r := run(argv);
    if r.wroteOutput {
      files.Create(o);
    }
    if Succeeded(r) {
      outfi := Some(o);
    } else {
      files.RemoveIfPresent(o);
      outfi := None;
    }
  }

  /** What one SMTP banner scan of a port came to. */
  datatype SmtpScan =
    | InvalidPort
    | HostFileNotWritten(hosts: seq<string>)
    | NoResult(hosts: seq<string>, argv: seq<string>)
    | ResultParsed(hosts: seq<string>, argv: seq<string>, resultFile: string)

  /**
   * One scan of a port: validate the port, collect the hosts, write them to
   * a host file (`writeHosts` gives its path, or `None` when writing failed),
   * run the prober, hand an existing result file to the result parser, and
   * in every case remove the host file and the result file at the end.
   */
  method GetBannerSmtp(files: ScanFiles, target: PortTarget, args: seq<string>, timeout: string,
                       tmpdir: string, batchid: string,
                       writeHosts: seq<string> -> Option<string>, run: seq<string> -> ProberRun)
    returns (scan: SmtpScan)
    modifies files
    ensures scan == InvalidPort <==> CheckPort(target.port) == None
    ensures scan == InvalidPort ==> files.present == old(files.present)
    ensures scan != InvalidPort ==> scan.hosts == Dedup([target.host] + target.hostnames + target.domains)
    ensures scan.HostFileNotWritten? <==> scan != InvalidPort && writeHosts(scan.hosts) == None
    ensures scan.HostFileNotWritten? ==> files.present == old(files.present)
    ensures scan.NoResult? || scan.ResultParsed? ==>
      && CheckPort(target.port).Some? && writeHosts(scan.hosts).Some?
      && var port := CheckPort(target.port).value;
         var h := writeHosts(scan.hosts).value;
         var o := ResultFilePath(tmpdir, batchid, port);
         && scan.argv == SmtpArgv(port, timeout, args, h, o)
         && files.present == old(files.present) - {h, o}
         && (scan.ResultParsed? <==>
               Succeeded(run(scan.argv)) && (run(scan.argv).wroteOutput || o in old(files.present) || o == h))
         && (scan.ResultParsed? ==> scan.resultFile == o)
  {
    var checked := CheckPort(target.port);
    if checked.None? {
      return InvalidPort;
    }
    var port := checked.value;
    var hosts := CollectHosts(target.host, target.hostnames, target.domains);
    var hostfi := writeHosts(hosts);
    if hostfi.None? {
      return HostFileNotWritten(hosts);
    }
    var h := hostfi.value;
    var argv, parsed := ScanWithHostFile(files, h, port, timeout, args, tmpdir, batchid, run);
    if parsed {
      scan := ResultParsed(hosts, argv, ResultFilePath(tmpdir, batchid, port));
    } else {
      scan := NoResult(hosts, argv);
    }
  }

  /**
   * The scan once the hosts are written to `h`: run the prober, hand the
   * result file to the result parser when the run succeeded and the file
   * exists, then remove the host file and the result file.
   */
  method ScanWithHostFile(files: ScanFiles, h: string, port: Port, timeout: string, args: seq<string>,
                          tmpdir: string, batchid: string, run: seq<string> -> ProberRun)
    returns (argv: seq<string>, parsed: bool)
    modifies files
    ensures var o := ResultFilePath(tmpdir, batchid, port);
      && argv == SmtpArgv(port, timeout, args, h, o)
      && files.present == old(files.present) - {h, o}
      && (parsed <==> Succeeded(run(argv)) && (run(argv).wroteOutput || o in old(files.present) || o == h))
  {
    ghost var o := ResultFilePath(tmpdir, batchid, port);
    ghost var pre := files.present;
    files.Create(h);
    var outfi;
    outfi, argv := ScanSmtp(files, h, port, timeout, args, tmpdir, batchid, run);
    ghost var r := run(argv);
    if outfi.Some? {
      assert Succeeded(r) && outfi.value == o;
      assert files.present == pre + {h} + (if r.wroteOutput then {o} else {});
      parsed := outfi.value in files.present;
    } else {
      assert !Succeeded(r);
      assert files.present == pre + {h} - {o};
      parsed := false;
    }
    files.RemoveIfPresent(h);
    if outfi.Some? {
      files.RemoveIfPresent(outfi.value);
    }
  }
}
