# zgrab2 SMTP invocation and MongoDB banner parsing, in Dafny

This project models two parts of the idownclient zgrab2 plugin and proves properties of them.

**SMTP scanner** (`Zgrab2ScannerSMTP`, module `SmtpScanner`):
- `get_banner_smtp` rejects a port that is not an int in [0, 65535].
- It collects the host list: the primary host, then the hostnames, then the domains, skipping duplicates.
- It writes the host file, runs zgrab2, hands an existing result file to the SMTP result parser, and removes both temporary files in its `finally` clause.
- `_scan_smtp` builds the zgrab2 argument vector:
  - the `smtp` module, `-p {port}` and `-t {timeout}`;
  - the protocol defaults `--send-ehlo`, `--ehlo-domain="mail.example.com"` and `--keep-client-logs`, each only when its test string is not among the caller's arguments;
  - the caller's arguments;
  - the port convention: port 25 adds `--starttls` and drops the first `--smtps`, unless the vector already holds `--starttls`; port 465 adds `--smtps` and drops the first `--starttls`, unless the vector already holds `--smtps`;
  - the `-f {hostfile}` and `-o {outfile}` flags.
- On a failed run it deletes the result file.

**MongoDB parser** (`Zgrab2ParserMongodb`, module `MongodbParser`):
- `parse_banner_mongodb` reads the zgrab2 result file one JSON object per line. Each line's `ip` is looked up in a map from IP to `PortInfo`.
- `_parse_mongodb` validates `data.mongodb`: `status == "success"` and `protocol == "mongodb"`.
- For a record that validates and carries `result.build_info`, it sets the PortInfo's service, version and banner and attaches a MongoDB record.
- The first record that gets attached ends the whole parse, for every IP.

Module layout:
- `wrappers.dfy`: the `Option` type, which stands for Python's `None`.
- `sequences.dfy`: Python list operations the scanner relies on, each with its laws:
  - `list.remove` (`RemoveFirst`, which removes only the first occurrence);
  - the "append if not in" loop (`Dedup`).
  - `Count` (occurrences of a value) is not called by the scanner; it is a helper for stating the laws.
- `smtp_scanner.dfy`: the scanner.
  - `SmtpArgv` specifies the argument vector.
  - `BuildSmtpArgs` performs the source's appends, `extend` and `remove` on the growing vector, and is proved to produce exactly `SmtpArgv`.
  - The class `ScanFiles` holds the set of files present on disk.
- `mongodb_parser.dfy`: the parser.
  - `PortInfo` is a class whose fields the parser updates in place.
  - The function `ParseLines` is the specification of the line loop. It works over the PortInfos' states, keyed by object, so two IPs that share one PortInfo are handled.
  - The method `ParseBannerMongodb` runs the `while True` loop with its `linenum` counter. It is proved to leave every PortInfo in the state `ParseLines` gives.

## Model

| member | source | states |
|---|---|---|
| SmtpScanner.CheckPort | savecode/threeyears/idownclient/scout/plugin/zgrab2/zgrab2scanner/zgrab2scannersmtp.py:33-35 | A port is accepted exactly when it is an int in [0, 65535], and the accepted value is that int. |
| SmtpScanner.NatToString | savecode/threeyears/idownclient/scout/plugin/zgrab2/zgrab2scanner/zgrab2scannersmtp.py:91 | `str(port)` is a non-empty string of decimal digits with no leading zero. |
| SmtpScanner.DecimalRoundTrip | savecode/threeyears/idownclient/scout/plugin/zgrab2/zgrab2scanner/zgrab2scannersmtp.py:91 | Reading the rendered digits back gives the port again. |
| SmtpScanner.CollectHosts | savecode/threeyears/idownclient/scout/plugin/zgrab2/zgrab2scanner/zgrab2scannersmtp.py:37-43 | The host list is the first-seen deduplication of host + hostnames + domains. It starts with the primary host, has no duplicates, and holds exactly the hosts, hostnames and domains. |
| SmtpScanner.AddIfNew | savecode/threeyears/idownclient/scout/plugin/zgrab2/zgrab2scanner/zgrab2scannersmtp.py:39-40 | "Append if not in": the item is present afterwards, nothing else is added, and the list grows only when the item is new. |
| SmtpScanner.AppendUnseen | savecode/threeyears/idownclient/scout/plugin/zgrab2/zgrab2scanner/zgrab2scannersmtp.py:38-43 | Each of the two loops extends the deduplicated list of everything seen so far by its own items. |
| Sequences.DedupSameElements | savecode/threeyears/idownclient/scout/plugin/zgrab2/zgrab2scanner/zgrab2scannersmtp.py:38-43 | Deduplication loses no element and adds none. |
| Sequences.DedupKeepsHead | savecode/threeyears/idownclient/scout/plugin/zgrab2/zgrab2scanner/zgrab2scannersmtp.py:37 | The first input element stays first. |
| Sequences.DedupFirstSeenOrder | savecode/threeyears/idownclient/scout/plugin/zgrab2/zgrab2scanner/zgrab2scannersmtp.py:38-43 | The deduplicated list is ordered by each element's first occurrence in the input. |
| Sequences.Dedup | savecode/threeyears/idownclient/scout/plugin/zgrab2/zgrab2scanner/zgrab2scannersmtp.py:38-43 | The deduplicated list has no duplicates. |
| Sequences.RemoveFirst | savecode/threeyears/idownclient/scout/plugin/zgrab2/zgrab2scanner/zgrab2scannersmtp.py:108 | `list.remove` on a present element shortens the list by one. |
| Sequences.RemoveFirstCount | savecode/threeyears/idownclient/scout/plugin/zgrab2/zgrab2scanner/zgrab2scannersmtp.py:107-108 | `list.remove(x)` removes exactly one `x` and leaves the count of every other value unchanged. |
| Sequences.RemoveFirstAfter | savecode/threeyears/idownclient/scout/plugin/zgrab2/zgrab2scanner/zgrab2scannersmtp.py:114-115 | Removal on the whole vector skips a head that holds no such flag, so it acts on the caller's part only. |
| Sequences.RemoveFirstBefore | savecode/threeyears/idownclient/scout/plugin/zgrab2/zgrab2scanner/zgrab2scannersmtp.py:106-108 | Removing after the port's flag was appended leaves that appended flag in place. |
| Sequences.CountPositive | savecode/threeyears/idownclient/scout/plugin/zgrab2/zgrab2scanner/zgrab2scannersmtp.py:105 | An element is `in` a list exactly when its count is positive, which links the membership tests to the counts. |
| SmtpScanner.PathJoin | savecode/threeyears/idownclient/scout/plugin/zgrab2/zgrab2scanner/zgrab2scannersmtp.py:120 | `os.path.join` ends with its second argument, and an absolute second argument replaces the first. |
| SmtpScanner.SmtpArgv | savecode/threeyears/idownclient/scout/plugin/zgrab2/zgrab2scanner/zgrab2scannersmtp.py:87-125 | The vector handed to zgrab2 is prefix, defaults, adjusted caller arguments, file flags. It holds 3 to 9 elements more than the caller passed, and on port 25 (465) it always holds --starttls (--smtps), whether added or given by the caller. |
| SmtpScanner.DefaultFlags | savecode/threeyears/idownclient/scout/plugin/zgrab2/zgrab2scanner/zgrab2scannersmtp.py:95-100 | The added defaults are at most three, and each is a "--" flag, so none can be mistaken for a prefix or file-flag element. Which defaults are added, and how often, is `DefaultsCount`. |
| SmtpScanner.TransportFlags | savecode/threeyears/idownclient/scout/plugin/zgrab2/zgrab2scanner/zgrab2scannersmtp.py:105-115 | On port 25 (465) the result always holds --starttls (--smtps). When the builder adds it, it is the last element and the length grows by one unless an opposing flag was removed. |
| SmtpScanner.FileFlags | savecode/threeyears/idownclient/scout/plugin/zgrab2/zgrab2scanner/zgrab2scannersmtp.py:117-125 | At most two flags: "-f {hostfile}" is present exactly when the caller did not give both "--input-file=" and "-f", and likewise "-o {outfile}" for "--output-file=" and "-o". |
| SmtpScanner.ResultFileNaming | savecode/threeyears/idownclient/scout/plugin/zgrab2/zgrab2scanner/zgrab2scannersmtp.py:120 | `ResultFilePath` ends with "{batchid}_{port}.smtp" and, unless the batch id is an absolute path, starts with `tmpdir`. |
| SmtpScanner.RepeatedOpposingFlagSurvives | savecode/threeyears/idownclient/scout/plugin/zgrab2/zgrab2scanner/zgrab2scannersmtp.py:105-108 | On port 25, caller arguments `--smtps --smtps` lose only the first `--smtps`, so the vector holds both TLS flags. |
| SmtpScanner.CallerArgsReachProber | savecode/threeyears/idownclient/scout/plugin/zgrab2/zgrab2scanner/zgrab2scannersmtp.py:103-115 | Every caller argument other than the two TLS flags reaches zgrab2. |
| SmtpScanner.AppendDefaults | savecode/threeyears/idownclient/scout/plugin/zgrab2/zgrab2scanner/zgrab2scannersmtp.py:95-100 | The three conditional appends add exactly `DefaultFlags`. |
| SmtpScanner.AppendFileFlags | savecode/threeyears/idownclient/scout/plugin/zgrab2/zgrab2scanner/zgrab2scannersmtp.py:117-125 | The two conditional appends add exactly `FileFlags`, -f before -o. |
| SmtpScanner.ApplyPortConvention | savecode/threeyears/idownclient/scout/plugin/zgrab2/zgrab2scanner/zgrab2scannersmtp.py:105-115 | The if/elif over the whole vector, with its membership tests, `append` and first-occurrence `remove`, leaves the head and turns the caller's part into `TransportFlags`. |
| SmtpScanner.BuildSmtpArgs | savecode/threeyears/idownclient/scout/plugin/zgrab2/zgrab2scanner/zgrab2scannersmtp.py:87-125 | The step-by-step vector equals `SmtpArgv`, and the result path is `ResultFilePath`, i.e. `os.path.join(tmpdir, "{batchid}_{port}.smtp")`. |
| SmtpScanner.ArgvBeginsWithPrefix | savecode/threeyears/idownclient/scout/plugin/zgrab2/zgrab2scanner/zgrab2scannersmtp.py:90-93 | Every vector starts with "smtp", "-p {port}", "-t {timeout}", and the port can be read back from the "-p" element. |
| SmtpScanner.DefaultsAddedWhenAbsent | savecode/threeyears/idownclient/scout/plugin/zgrab2/zgrab2scanner/zgrab2scannersmtp.py:95-100 | Each default occurs once more than among the caller's arguments exactly when its test string is not among them. Otherwise it occurs exactly as often. |
| SmtpScanner.DefaultsCount | savecode/threeyears/idownclient/scout/plugin/zgrab2/zgrab2scanner/zgrab2scannersmtp.py:95-100 | The added defaults hold a value once for each default it equals whose test fails. |
| SmtpScanner.CallerArgsFollowDefaults | savecode/threeyears/idownclient/scout/plugin/zgrab2/zgrab2scanner/zgrab2scannersmtp.py:103-115 | Right after the defaults (one per absent test string) come the caller's arguments in order. The port's flag is appended and the first opposing flag is gone, in each of the five cases. |
| SmtpScanner.TransportKeepsOthers | savecode/threeyears/idownclient/scout/plugin/zgrab2/zgrab2scanner/zgrab2scannersmtp.py:105-115 | The port convention changes the count of no value other than the two TLS flags. |
| SmtpScanner.TransportTlsCounts | savecode/threeyears/idownclient/scout/plugin/zgrab2/zgrab2scanner/zgrab2scannersmtp.py:105-115 | When the convention applies, the port's flag occurs once and the opposing flag once fewer, if present. When it does not apply, the caller's arguments are unchanged. |
| SmtpScanner.Port25ForcesStarttls | savecode/threeyears/idownclient/scout/plugin/zgrab2/zgrab2scanner/zgrab2scannersmtp.py:105-108 | On port 25 without a caller --starttls, the vector holds exactly one --starttls, and one --smtps fewer than the caller gave, if any. |
| SmtpScanner.Port465ForcesSmtps | savecode/threeyears/idownclient/scout/plugin/zgrab2/zgrab2scanner/zgrab2scannersmtp.py:109-115 | On port 465 without a caller --smtps, the vector holds exactly one --smtps, and one --starttls fewer than the caller gave, if any. |
| SmtpScanner.TlsFlagsUntouchedOtherwise | savecode/threeyears/idownclient/scout/plugin/zgrab2/zgrab2scanner/zgrab2scannersmtp.py:105-115 | On other ports, or when the caller already gave the port's flag, both TLS flags occur exactly as often as among the caller's arguments. |
| SmtpScanner.TlsModeWithoutCallerArgs | savecode/threeyears/idownclient/scout/plugin/zgrab2/zgrab2scanner/zgrab2scannersmtp.py:105-115 | With no caller arguments: port 25 gets --starttls only, port 465 gets --smtps only, other ports get neither. |
| SmtpScanner.TlsModesExclusiveWithoutCallerFlags | savecode/threeyears/idownclient/scout/plugin/zgrab2/zgrab2scanner/zgrab2scannersmtp.py:105-115 | If the caller passes no TLS flag, the vector never holds both --starttls and --smtps. |
| SmtpScanner.CallerTlsPairSurvives | savecode/threeyears/idownclient/scout/plugin/zgrab2/zgrab2scanner/zgrab2scannersmtp.py:105-108 | A caller who passes both TLS flags on port 25 keeps both: mutual exclusion covers only the flags the builder adds. |
| SmtpScanner.FileFlagsAtEnd | savecode/threeyears/idownclient/scout/plugin/zgrab2/zgrab2scanner/zgrab2scannersmtp.py:117-125 | -f and -o are each appended unless the caller gave both the long test string and the short flag. When both are appended they are the last two elements, -f first. |
| SmtpScanner.FileFlagCount | savecode/threeyears/idownclient/scout/plugin/zgrab2/zgrab2scanner/zgrab2scannersmtp.py:117-125 | A "-f ..." or "-o ..." element comes only from the caller's arguments or from the file flags. |
| SmtpScanner.LongFlagCount | savecode/threeyears/idownclient/scout/plugin/zgrab2/zgrab2scanner/zgrab2scannersmtp.py:95-115 | A "--" flag comes only from the defaults or from the adjusted caller arguments. |
| SmtpScanner.EhloDomainTestIsExact | savecode/threeyears/idownclient/scout/plugin/zgrab2/zgrab2scanner/zgrab2scannersmtp.py:97-98 | The membership test compares whole strings: a caller "--ehlo-domain=example.org" does not suppress the default, and both end up in the vector. |
| SmtpScanner.InputFileNeedsBothFlags | savecode/threeyears/idownclient/scout/plugin/zgrab2/zgrab2scanner/zgrab2scannersmtp.py:117-118 | A caller "--input-file=hosts.txt" alone does not suppress -f. |
| SmtpScanner.ScanFiles.RemoveIfPresent | savecode/threeyears/idownclient/scout/plugin/zgrab2/zgrab2scanner/zgrab2scannersmtp.py:67-70 | "Delete if it is a file" leaves exactly the other files. |
| SmtpScanner.ScanSmtp | savecode/threeyears/idownclient/scout/plugin/zgrab2/zgrab2scanner/zgrab2scannersmtp.py:85-160 | zgrab2 is run on `SmtpArgv`. Only exit code 0 returns the result path. A nonzero exit or an aborted run removes the result file and returns `None`. |
| SmtpScanner.ScanWithHostFile | savecode/threeyears/idownclient/scout/plugin/zgrab2/zgrab2scanner/zgrab2scannersmtp.py:45-70 | After the host file is written, the host file and the result file are both absent at the end. The result is parsed exactly when the run succeeded and the file exists. |
| SmtpScanner.GetBannerSmtp | savecode/threeyears/idownclient/scout/plugin/zgrab2/zgrab2scanner/zgrab2scannersmtp.py:19-70 | An invalid port, or a host file that could not be written, touches no file. Otherwise the host list is the deduplicated one, the vector is `SmtpArgv`, the two temporary files are gone at the end, and parsing happens exactly when the run succeeded and the file exists. |
| MongodbParser.Attachment | savecode/threeyears/idownclient/scan/plugin/zgrab2/zgrab2parser/zgrab2parsermongodb.py:106-122 | A record is attached only for an accepted `data.mongodb` with a `result`. It carries that result's `is_master` and `build_info` and the banner built from them. |
| MongodbParser.Step | savecode/threeyears/idownclient/scan/plugin/zgrab2/zgrab2parser/zgrab2parsermongodb.py:50-62 | One line changes at most the PortInfo its `ip` names: every other PortInfo keeps its state, and only a line that names a known PortInfo can attach a record. |
| MongodbParser.ParseLines | savecode/threeyears/idownclient/scan/plugin/zgrab2/zgrab2parser/zgrab2parsermongodb.py:44-68 | The line loop over a whole file: the set of PortInfos is kept, and a stopping line lies inside the file. |
| MongodbParser.ParseMongodb | savecode/threeyears/idownclient/scan/plugin/zgrab2/zgrab2parser/zgrab2parsermongodb.py:75-127 | Without an accepted `data.mongodb` (missing, status not "success", protocol not "mongodb"), nothing changes. An accepted record sets service "mongodb" and the timestamp. Only one with `result.build_info` is attached; it sets the version from `build_info` and a banner equal to the attached record's banner. Otherwise version, banner and record stay. |
| MongodbParser.ParseMongodbInto | savecode/threeyears/idownclient/scan/plugin/zgrab2/zgrab2parser/zgrab2parsermongodb.py:85-127 | The field-by-field updates of the PortInfo give exactly the state and result of `ParseMongodb`. |
| MongodbParser.ProtocolMustBeMongodb | savecode/threeyears/idownclient/scan/plugin/zgrab2/zgrab2parser/zgrab2parsermongodb.py:95-97 | A record whose protocol is "mongo" is rejected and changes nothing. |
| MongodbParser.ParseLine | savecode/threeyears/idownclient/scan/plugin/zgrab2/zgrab2parser/zgrab2parsermongodb.py:46-62 | One iteration on a read line updates the PortInfos exactly as `Step` says. |
| MongodbParser.ParseBannerMongodb | savecode/threeyears/idownclient/scan/plugin/zgrab2/zgrab2parser/zgrab2parsermongodb.py:29-68 | A missing file changes no PortInfo. Otherwise the PortInfos end in the state `ParseLines` gives, and `linenum` ends at (stopping index + 2), or at (number of lines + 2) when the end of the file is reached. |
| MongodbParser.UnknownLineSkipped | savecode/threeyears/idownclient/scan/plugin/zgrab2/zgrab2parser/zgrab2parsermongodb.py:50-56 | A malformed line, `null`, or a record whose ip is missing or unknown changes nothing and does not stop the run. |
| MongodbParser.SkippedStep | savecode/threeyears/idownclient/scan/plugin/zgrab2/zgrab2parser/zgrab2parsermongodb.py:86-97 | A line about a known IP without an accepted `data.mongodb` changes nothing and does not stop the run. |
| MongodbParser.SkippedLineAtEnd | savecode/threeyears/idownclient/scan/plugin/zgrab2/zgrab2parser/zgrab2parsermongodb.py:50-56 | A skipped last line leaves the whole run as it was. |
| MongodbParser.SkippedLineIrrelevant | savecode/threeyears/idownclient/scan/plugin/zgrab2/zgrab2parser/zgrab2parsermongodb.py:50-68 | Removing a skipped line anywhere in the file gives the same final PortInfos; a later stopping line moves one position earlier. |
| MongodbParser.SkippedLineStep | savecode/threeyears/idownclient/scan/plugin/zgrab2/zgrab2parser/zgrab2parsermongodb.py:44-68 | The inductive step of `SkippedLineIrrelevant`: if removing the line agrees on a file, it also agrees on that file with one more line at the end. |
| MongodbParser.StopsAtFirstAttach | savecode/threeyears/idownclient/scan/plugin/zgrab2/zgrab2parser/zgrab2parsermongodb.py:59-62 | The run stops at line k exactly when k is the first line that attaches a record, and the final state is the state right after line k. |
| MongodbParser.LaterLinesIgnored | savecode/threeyears/idownclient/scan/plugin/zgrab2/zgrab2parser/zgrab2parsermongodb.py:61-62 | Once a prefix of the file has stopped the run, the rest of the file does not matter. |
| MongodbParser.OnlyFirstAttachStored | savecode/threeyears/idownclient/scan/plugin/zgrab2/zgrab2parser/zgrab2parsermongodb.py:59-62 | Every PortInfo keeps its MongoDB record, except the one the stopping line is about, which gets that line's record. |
| MongodbParser.StopIsGlobal | savecode/threeyears/idownclient/scan/plugin/zgrab2/zgrab2parser/zgrab2parsermongodb.py:54-62 | After IP 10.0.0.1's record attaches, the next line's record for 10.0.0.2 is not read, and that PortInfo is unchanged. |
| MongodbParser.SingleSuccessScenario | savecode/threeyears/idownclient/scan/plugin/zgrab2/zgrab2parser/zgrab2parsermongodb.py:99-122 | One success line sets service "mongodb", version "4.2.0", the built banner and a record with `is_master` true. The same line with its record under the key "mongo" changes nothing. |

## Left out

- Process control (`_run_process`, `communicate`/`wait` timeouts, `kill`, `sudo`, `rootDir`): a run is a parameter `run` from the argument vector to an exit code or an abort, plus whether it wrote the result file.
- Creating the output directory (`os.makedirs`) and logging: side effects with no behaviour to state.
- `_write_hosts_to_file` is not part of this model. Its outcome is a parameter `writeHosts` giving the written path or `None`.
- The SMTP result parser (`Zgrab2ParserSMTP.parse_banner`) is not part of this model. `GetBannerSmtp` reports that it would be called, and with which file.
- SmtpScanner.ScanSmtp: the `except` handler at line 157 formats `exitcode`, which is unbound when the run raised before `wait` returned. The resulting NameError escapes into `get_banner_smtp`, whose handler and `finally` give the same files and the same "no result" outcome. The model therefore returns `None` in both cases.
- SmtpScanner.CheckPort: a Python `bool` passes `isinstance(port, int)`, and any other non-int value is `NotAnInt`. The model has no bool case, so a caller maps `True`/`False` to `IntPort(1)`/`IntPort(0)`. The checks against 25 and 465 then agree with the source, but the rendering does not: the source writes "-p True" and "{batchid}_True.smtp" (lines 91 and 120), where `Prefix` and `ResultFilePath` give "-p 1" and "{batchid}_1.smtp".
- The timeout is a float rendered by Python's `str`. The model takes the rendered text as an opaque string.
- JSON decoding: a line is a decoded `Line`. A line that fails to decode (a blank line among them), or decodes to something other than an object, is `Malformed`. A `data.mongodb` that is missing, `null` or not an object is `None`. A `result` that is not an object, and a `build_info` that is missing or not an object, are `None`. In each case the source raises inside its `try` after the service and timestamp were set (`mres.get` at line 110, `buildinfo.get` at line 115), which is what the model does for `None`. An `ip` that is not a string is `None`. Each of these leads the source to the same skip or handler as the case it is folded into.
- `MongoDB.build_banner`, `_get_port_timestamp` and `PortInfo.set_mongodb` are not part of this model. The first two are parameters (`BannerBuilder`, `TimestampReader`), assumed not to raise. `TimestampReader` is also assumed to change only the PortInfo's `timestamp` field; `ParseMongodb`'s promise that an unattached record leaves version, banner and record alone rests on that. `set_mongodb` is modelled as storing the record in the PortInfo's `mongodb` field.
- MongodbParser.ParseMongodbInto: `_parse_mongodb` returns `None` rather than `False` at four places: when `data.mongodb` is missing (line 88), when the status is not "success" (line 93), when the protocol is not "mongodb" (line 97), and when there is no `result` (line 108). Both values are falsy to the caller, and the model's `false` stands for all of them.
- MongodbParser.ParseBannerMongodb: when the result file is missing the source returns before `linenum` exists. The model reports 0 for it, a value the source never holds.
- Reading the result file: the file is a parameter holding its decoded lines, or `None` when it does not exist. Exceptions from `open` are not modelled.

## Notes on the code

- The parser accepts only a record under `data.mongodb` whose protocol is "mongodb" (zgrab2parsermongodb.py:86-97). A record under `data.mongo`, or one with protocol "mongo", is skipped (`ProtocolMustBeMongodb`, `SingleSuccessScenario`).
- The builder does not make the vector conflict-free. Without caller TLS flags the two never occur together (`TlsModesExclusiveWithoutCallerFlags`), and on port 25 (465) a single caller `--smtps` (`--starttls`) is removed (`Port25ForcesStarttls`, `Port465ForcesSmtps`). They can occur together when the caller passes both (`CallerTlsPairSurvives`), or passes the opposing flag more than once on port 25/465, since `list.remove` drops only the first (`RepeatedOpposingFlagSurvives`).
