/**
 * The nginx log analyzer (W1_Log_Analyzer/log_analyzer.py): choosing the
 * newest `nginx-access-ui.log-YYYYMMDD` file, reading (url, time) from each
 * log line, overlaying the configuration file on the defaults, and deciding
 * whether a report has to be produced at all.
 *
 * The directory listing, the existence test for the report file and the
 * configuration file reader are parameters.
 */
module LogAnalyzer {
  import opened Wrappers
  import opened Text
  import Paths

  // ---------------------------------------------------------------------
  // Finding the newest log
  // ---------------------------------------------------------------------

  /** The literal prefix of a log file name; inside the regular expression
    * its '.' matches any character but a newline. */
  const Mask: String := "nginx-access-ui.log-"

  /** Length of the date group `\d{4}\d{2}\d{2}`. */
  const DateDigits: nat := 8

  /** One character of the mask read as a regular expression. */
  predicate PatternChar(p: char, c: char)
  {
    if p == '.' then c != '\n' else c == p
  }

  /** `re.search` finds the mask followed by eight digits at position `p`. */
  predicate MatchesAt(name: String, p: nat)
  {
    && p + |Mask| + DateDigits <= |name|
    && (forall i :: 0 <= i < |Mask| ==> PatternChar(Mask[i], name[p + i]))
    && AllDigits(name[p + |Mask|..p + |Mask| + DateDigits])
  }

  /** The leftmost match at or after `p`, as `re.search` scans. */
  function SearchFrom(name: String, p: nat): (r: Option<nat>)
    ensures r.Some? ==> p <= r.value && MatchesAt(name, r.value)
    ensures r.Some? ==> forall q :: p <= q < r.value ==> !MatchesAt(name, q)
    ensures r.None? ==> forall q :: p <= q ==> !MatchesAt(name, q)
    decreases |name| - p
  {
    if p + |Mask| + DateDigits > |name| then None
    else if MatchesAt(name, p) then Some(p)
    else SearchFrom(name, p + 1)
  }

  /** The date a file name carries, `int(log_temp.group(1))`, or None for a
    * name that is not a candidate. */
  function LogDate(name: String): Option<nat>
  {
    if !StartsWith(name, Mask) then None
    else match SearchFrom(name, 0)
      case None => None
      case Some(p) => Some(DecimalValue(name[p + |Mask|..p + |Mask| + DateDigits]))
  }

  /** The date used for comparison: 0 for a name without one. */
  function DateOf(name: String): nat
  {
    if LogDate(name).Some? then LogDate(name).value else 0
  }

  /** A name of the documented shape carries the date written in it. */
  lemma LogDateOfStandardName(date: String, rest: String)
    requires |date| == DateDigits && AllDigits(date)
    ensures LogDate(Mask + date + rest) == Some(DecimalValue(date))
  {
    var name := Mask + date + rest;
    assert name[..|Mask|] == Mask;
    assert name[|Mask|..|Mask| + DateDigits] == date;
    assert MatchesAt(name, 0) by {
      forall i | 0 <= i < |Mask| ensures PatternChar(Mask[i], name[i]) {
        assert name[i] == Mask[i];
      }
    }
  }

  /** Only names starting with the mask are candidates, and their dates have at most eight digits. */
  lemma LogDateShape(name: String)
    ensures LogDate(name).Some? ==> StartsWith(name, Mask) && LogDate(name).value < Pow10(DateDigits)
  {
    if LogDate(name).Some? {
      var p := SearchFrom(name, 0).value;
      DecimalValueBound(name[p + |Mask|..p + |Mask| + DateDigits]);
    }
  }

  /** A name with the prefix but without eight digits after it is not a candidate. */
  lemma NoDateExample()
    ensures LogDate("nginx-access-ui.log-2017.gz") == None
  {
    assert |"nginx-access-ui.log-2017.gz"| < |Mask| + DateDigits;
  }

  /** `find_last_log` on a listing, as the loop leaves `(last_log, last_log_date)`. */
  function LastLog(files: seq<String>): (Option<String>, nat)
  {
    if files == [] then (None, 0)
    else
      var prev := LastLog(files[..|files| - 1]);
      var f := files[|files| - 1];
      if LogDate(f).Some? && LogDate(f).value > prev.1 then (Some(f), LogDate(f).value) else prev
  }

  /** The chosen file carries the greatest date of the listing, and it is the
    * first file with that date; with no positive date, `(None, 0)`. */
  lemma {:induction false} LastLogSpec(files: seq<String>)
    ensures forall j :: 0 <= j < |files| ==> DateOf(files[j]) <= LastLog(files).1
    ensures LastLog(files).0.None? <==> LastLog(files).1 == 0
    ensures LastLog(files).0.Some? ==>
              exists i :: 0 <= i < |files| && files[i] == LastLog(files).0.value
                          && DateOf(files[i]) == LastLog(files).1
                          && forall j :: 0 <= j < i ==> DateOf(files[j]) < LastLog(files).1
  {
    if files != [] {
      var init := files[..|files| - 1];
      var f := files[|files| - 1];
      LastLogSpec(init);
      var prev := LastLog(init);
      assert forall j :: 0 <= j < |init| ==> files[j] == init[j];
      if LogDate(f).Some? && LogDate(f).value > prev.1 {
        assert DateOf(f) == LastLog(files).1;
      } else {
        assert DateOf(f) <= prev.1;
        if prev.0.Some? {
          var i :| 0 <= i < |init| && init[i] == prev.0.value && DateOf(init[i]) == prev.1
                   && forall j :: 0 <= j < i ==> DateOf(init[j]) < prev.1;
          assert files[i] == prev.0.value;
        }
      }
    }
  }

  /** With no candidate at all the result is `(None, 0)`. */
  lemma NoCandidate(files: seq<String>)
    requires forall j :: 0 <= j < |files| ==> LogDate(files[j]).None?
    ensures LastLog(files) == (None, 0)
  {
    LastLogSpec(files);
  }

  /** `find_last_log`: a scan of the listing keeping the best date so far. */
  method FindLastLog(files: seq<String>) returns (lastLog: Option<String>, lastLogDate: nat)
    ensures (lastLog, lastLogDate) == LastLog(files)
  {
    lastLog := None;
    lastLogDate := 0;
    for i := 0 to |files|
      invariant (lastLog, lastLogDate) == LastLog(files[..i])
    {
      var file := files[i];
      assert files[..i + 1][..i] == files[..i];
      if StartsWith(file, Mask) {
        var found := SearchFrom(file, 0);
        if found.Some? {
          var p := found.value;
          var date := DecimalValue(file[p + |Mask|..p + |Mask| + DateDigits]);
          if date > lastLogDate {
            lastLog := Some(file);
            lastLogDate := date;
          }
        }
      }
    }
    assert files[..|files|] == files;
  }

  // ---------------------------------------------------------------------
  // Reading the log
  // ---------------------------------------------------------------------

  /** (url, request time) of one line: the 7th whitespace-separated field
    * with '"' stripped from both ends, and the last field. None where
    * `splitted[6]` raises `IndexError`. */
  function ParseLine(line: String): (r: Option<(String, String)>)
    ensures r.None? <==> |Words(line, IsByteSpace)| < 7
  {
    var fields := Words(line, IsByteSpace);
    if |fields| < 7 then None
    else Some((StripChar(fields[6], '"'), fields[|fields| - 1]))
  }

  /** The times of the lines whose url is `url`, in file order. */
  function TimesOf(entries: seq<(String, String)>, url: String): seq<String>
  {
    if entries == [] then []
    else
      var last := entries[|entries| - 1];
      TimesOf(entries[..|entries| - 1], url) + (if last.0 == url then [last.1] else [])
  }

  /** `time_log` after reading `lines`: None once a line raises. */
  function TimeLog(lines: seq<String>): Option<map<String, seq<String>>>
  {
    if lines == [] then Some(map[])
    else
      match TimeLog(lines[..|lines| - 1])
      case None => None
      case Some(m) =>
        match ParseLine(lines[|lines| - 1])
        case None => None
        case Some((url, time)) => Some(m[url := (if url in m then m[url] else []) + [time]])
  }

  /** The parsed (url, time) of every line. */
  function Entries(lines: seq<String>): seq<(String, String)>
    requires forall i :: 0 <= i < |lines| ==> ParseLine(lines[i]).Some?
  {
    seq(|lines|, i requires 0 <= i < |lines| => ParseLine(lines[i]).value)
  }

  /** The log fails exactly when some line has fewer than seven fields. */
  lemma {:induction false} TimeLogFails(lines: seq<String>)
    ensures TimeLog(lines).None? <==> exists i :: 0 <= i < |lines| && ParseLine(lines[i]).None?
  {
    if lines != [] {
      var init := lines[..|lines| - 1];
      TimeLogFails(init);
      assert forall i :: 0 <= i < |init| ==> init[i] == lines[i];
    }
  }

  /** When the log is read, every url of the log is a key, and its list
    * holds the times of exactly the lines with that url, in file order. */
  lemma {:induction false} TimeLogTimes(lines: seq<String>, url: String)
    requires TimeLog(lines).Some?
    ensures forall i :: 0 <= i < |lines| ==> ParseLine(lines[i]).Some?
    ensures url in TimeLog(lines).value <==> TimesOf(Entries(lines), url) != []
    ensures url in TimeLog(lines).value ==> TimeLog(lines).value[url] == TimesOf(Entries(lines), url)
  {
    TimeLogFails(lines);
    if lines != [] {
      var init := lines[..|lines| - 1];
      assert TimeLog(init).Some?;
      TimeLogTimes(init, url);
      assert forall i :: 0 <= i < |init| ==> init[i] == lines[i];
      assert Entries(lines)[..|init|] == Entries(init);
      var (u, t) := ParseLine(lines[|lines| - 1]).value;
      assert TimesOf(Entries(lines), url) == TimesOf(Entries(init), url) + (if u == url then [t] else []);
    }
  }

  /** `parse_log` on the lines of the chosen file. */
  method ParseLog(lines: seq<String>) returns (timeLog: Option<map<String, seq<String>>>)
    ensures timeLog == TimeLog(lines)
  {
    var m: map<String, seq<String>> := map[];
    for i := 0 to |lines|
      invariant TimeLog(lines[..i]) == Some(m)
    {
      assert lines[..i + 1][..i] == lines[..i];
      var splitted := Words(lines[i], IsByteSpace);
      if |splitted| < 7 {
        TimeLogFails(lines);
        return None;
      }
      var url := StripChar(splitted[6], '"');
      var responseTime := splitted[|splitted| - 1];
      m := m[url := (if url in m then m[url] else []) + [responseTime]];
    }
    assert lines[..|lines|] == lines;
    timeLog := Some(m);
  }

  // ---------------------------------------------------------------------
  // Configuration
  // ---------------------------------------------------------------------

  /** A configuration value: the defaults hold one integer, the file only strings. */
  datatype ConfigValue = CInt(i: int) | CStr(s: String)

  const ReportSizeKey: String := "REPORT_SIZE"
  const ReportDirKey: String := "REPORT_DIR"
  const LogDirKey: String := "LOG_DIR"
  const LoggingKey: String := "LOGGING"
  const TsFileKey: String := "TSFILE"

  /** `def_config`. */
  const DefaultConfig: map<String, ConfigValue> := map[
    ReportSizeKey := CInt(555),
    ReportDirKey := CStr("./reports"),
    LogDirKey := CStr("./log"),
    LoggingKey := CStr("./monitoring"),
    TsFileKey := CStr("./monitoring")]

  /** The dictionary `parse_config` writes into; `main` passes `def_config` itself. */
  class Config {
    var entries: map<String, ConfigValue>

    constructor (entries: map<String, ConfigValue>)
      ensures this.entries == entries
    {
      this.entries := entries;
    }
  }

  /** The directory settings hold strings, as every value the program writes does. */
  predicate DirsAreStrings(m: map<String, ConfigValue>)
  {
    forall k :: k in m && k != ReportSizeKey ==> m[k].CStr?
  }

  /** The dictionary after the loop over the `MAIN` section: each option, upper-cased, set to its text. */
  function Overlay(m: map<String, ConfigValue>, section: seq<(String, String)>): map<String, ConfigValue>
  {
    if section == [] then m
    else
      var (k, v) := section[|section| - 1];
      Overlay(m, section[..|section| - 1])[Upper(k) := CStr(v)]
  }

  /** Exactly the upper-cased option names are added to the keys. */
  lemma {:induction false} OverlayKeys(m: map<String, ConfigValue>, section: seq<(String, String)>, k: String)
    ensures k in Overlay(m, section) <==> k in m || exists i :: 0 <= i < |section| && Upper(section[i].0) == k
  {
    if section != [] {
      var init := section[..|section| - 1];
      OverlayKeys(m, init, k);
      if exists i :: 0 <= i < |section| && Upper(section[i].0) == k {
        var i :| 0 <= i < |section| && Upper(section[i].0) == k;
        if i < |init| {
          assert init[i] == section[i];
        }
      }
    }
  }

  /** A key the section does not name keeps its value. */
  lemma {:induction false} OverlayUntouched(m: map<String, ConfigValue>, section: seq<(String, String)>, k: String)
    requires k in m
    requires forall i :: 0 <= i < |section| ==> Upper(section[i].0) != k
    ensures k in Overlay(m, section) && Overlay(m, section)[k] == m[k]
  {
    if section != [] {
      var init := section[..|section| - 1];
      assert forall i :: 0 <= i < |init| ==> init[i] == section[i];
      OverlayUntouched(m, init, k);
    }
  }

  /** An option lands under its upper-cased name with the text of its last occurrence. */
  lemma {:induction false} OverlayLast(m: map<String, ConfigValue>, section: seq<(String, String)>, i: nat)
    requires i < |section|
    requires forall j :: i < j < |section| ==> Upper(section[j].0) != Upper(section[i].0)
    ensures Upper(section[i].0) in Overlay(m, section)
    ensures Overlay(m, section)[Upper(section[i].0)] == CStr(section[i].1)
  {
    var init := section[..|section| - 1];
    if i < |init| {
      assert init[i] == section[i];
      assert forall j :: i < j < |init| ==> init[j] == section[j];
      OverlayLast(m, init, i);
    }
  }

  /** The overlay keeps the directory settings strings. */
  lemma {:induction false} OverlayKeepsDirs(m: map<String, ConfigValue>, section: seq<(String, String)>)
    requires DirsAreStrings(m)
    ensures DirsAreStrings(Overlay(m, section))
  {
    if section != [] {
      OverlayKeepsDirs(m, section[..|section| - 1]);
    }
  }

  datatype Settings = Settings(reportSize: int, reportDir: ConfigValue, logDir: ConfigValue,
                               loggingDir: ConfigValue, tsFileDir: ConfigValue)

  /** What `parse_config` returns or raises. */
  datatype ConfigOutcome = Loaded(settings: Settings) | ConfigKeyError(key: String) | ConfigValueError

  /** `int(config['REPORT_SIZE'])`. */
  function AsInt(v: ConfigValue): Option<int>
  {
    match v
    case CInt(i) => Some(i)
    case CStr(s) => PyInt(s)
  }

  /** The tuple read back from the dictionary, in the order Python evaluates it. */
  function Settle(m: map<String, ConfigValue>): ConfigOutcome
  {
    if ReportSizeKey !in m then ConfigKeyError(ReportSizeKey)
    else if AsInt(m[ReportSizeKey]).None? then ConfigValueError
    else if ReportDirKey !in m then ConfigKeyError(ReportDirKey)
    else if LogDirKey !in m then ConfigKeyError(LogDirKey)
    else if LoggingKey !in m then ConfigKeyError(LoggingKey)
    else if TsFileKey !in m then ConfigKeyError(TsFileKey)
    else Loaded(Settings(AsInt(m[ReportSizeKey]).value, m[ReportDirKey], m[LogDirKey], m[LoggingKey], m[TsFileKey]))
  }

  /** `parse_config` with no `MAIN` section (`KeyError`), or with its options. */
  function ConfigResult(m: map<String, ConfigValue>, section: Option<seq<(String, String)>>): ConfigOutcome
  {
    if section.None? then ConfigKeyError("MAIN") else Settle(Overlay(m, section.value))
  }

  /** An empty section keeps the defaults, and the defaults load. */
  lemma DefaultsLoad()
    ensures ConfigResult(DefaultConfig, Some([])) ==
            Loaded(Settings(555, CStr("./reports"), CStr("./log"), CStr("./monitoring"), CStr("./monitoring")))
  {
  }

  /** A `report_size` option written as a number becomes the report size,
    * and the other settings keep their defaults. */
  lemma ReportSizeFromFile(n: nat)
    ensures ConfigResult(DefaultConfig, Some([("report_size", NatToDecimal(n))])) ==
            Loaded(Settings(n, CStr("./reports"), CStr("./log"), CStr("./monitoring"), CStr("./monitoring")))
  {
    var section := [("report_size", NatToDecimal(n))];
    assert Upper("report_size") == ReportSizeKey;
    assert section[..0] == [];
    var m := Overlay(DefaultConfig, section);
    assert m == Overlay(DefaultConfig, section[..0])[Upper(section[0].0) := CStr(section[0].1)];
    assert m == DefaultConfig[ReportSizeKey := CStr(NatToDecimal(n))];
    PyIntOfDecimal(n);
    assert AsInt(m[ReportSizeKey]) == Some(n);
  }

  /** A `report_size` that is not a number raises `ValueError`. */
  lemma ReportSizeNotANumber()
    ensures ConfigResult(DefaultConfig, Some([("report_size", "big")])) == ConfigValueError
  {
    assert Upper("report_size") == ReportSizeKey;
    assert !PyDigitBody("big") by { assert !IsAsciiDigit('b'); }
    StripOfUnpadded("big", IsPySpace);
  }

  /** `parse_config`: the options of `MAIN` are written into `config` in place,
    * then the five settings are read back. */
  method ParseConfig(config: Config, section: Option<seq<(String, String)>>) returns (r: ConfigOutcome)
    modifies config
    ensures config.entries == (if section.None? then old(config.entries) else Overlay(old(config.entries), section.value))
    ensures r == ConfigResult(old(config.entries), section)
  {
    if section.None? {
      return ConfigKeyError("MAIN");
    }
    var options := section.value;
    for i := 0 to |options|
      invariant config.entries == Overlay(old(config.entries), options[..i])
    {
      assert options[..i + 1][..i] == options[..i];
      config.entries := config.entries[Upper(options[i].0) := CStr(options[i].1)];
    }
    assert options[..|options|] == options;
    r := Settle(config.entries);
  }

  // ---------------------------------------------------------------------
  // Which configuration file is read
  // ---------------------------------------------------------------------

  /** How `main` was called: from the command line, or with a list of arguments. */
  datatype Invocation = CommandLine(configArg: Option<String>) | Direct(configArg: Option<String>)

  /** What `configparser.read` is handed. */
  datatype ConfigSource = Files(names: seq<String>) | ReadTypeError

  /** The names `configparser.read(config_path)` tries, as `main` is written:
    * with a non-empty `--config` on the command line it hands over the
    * default dictionary, and reading iterates over its keys; an absent or
    * empty `--config` is false, so the default file is read. */
  function ConfigFilesAsWritten(inv: Invocation, defaultKeys: seq<String>, defaultPath: String): (src: ConfigSource)
    ensures inv.CommandLine? ==> src.Files?
    ensures inv.CommandLine? && (inv.configArg.None? || inv.configArg.value == []) ==> src == Files([defaultPath])
  {
    match inv
    case CommandLine(arg) => if arg.Some? && arg.value != [] then Files(defaultKeys) else Files([defaultPath])
    case Direct(arg) => if arg.Some? then Files([arg.value]) else ReadTypeError
  }

  /** The file named with `--config` is never read from the command line. */
  lemma CommandLineConfigIgnored(path: String)
    requires path !in [ReportSizeKey, ReportDirKey, LogDirKey, LoggingKey, TsFileKey]
    ensures var src := ConfigFilesAsWritten(CommandLine(Some(path)), [ReportSizeKey, ReportDirKey, LogDirKey, LoggingKey, TsFileKey], "log_analyzer.conf");
            src.Files? && path !in src.names
  {
  }

  /** The evident intent: a non-empty `--config` argument names the file. */
  function ConfigFiles(inv: Invocation, defaultPath: String): ConfigSource
  {
    match inv
    case CommandLine(arg) => Files([if arg.Some? && arg.value != [] then arg.value else defaultPath])
    case Direct(arg) => if arg.Some? then Files([arg.value]) else ReadTypeError
  }

  /** With the correction the named file is the one read, both ways of calling `main`. */
  lemma ConfigFilesNamed(path: String, defaultPath: String)
    ensures path != [] ==> ConfigFiles(CommandLine(Some(path)), defaultPath) == Files([path])
    ensures ConfigFiles(Direct(Some(path)), defaultPath) == Files([path])
    ensures ConfigFiles(CommandLine(None), defaultPath) == Files([defaultPath])
    ensures ConfigFiles(CommandLine(Some([])), defaultPath) == Files([defaultPath])
  {
  }

  // ---------------------------------------------------------------------
  // main: whether a report is produced
  // ---------------------------------------------------------------------

  /** `'report_' + str(last_log_date) + '.html'`. */
  function ReportName(date: nat): String
  {
    "report_" + NatToDecimal(date) + ".html"
  }

  /** Different dates never share a report name, so one report is never taken for another's. */
  lemma ReportNameInjective(d1: nat, d2: nat)
    requires ReportName(d1) == ReportName(d2)
    ensures d1 == d2
  {
    var a := NatToDecimal(d1);
    var b := NatToDecimal(d2);
    assert |a| == |b|;
    assert a == ReportName(d1)[7..7 + |a|];
    assert b == ReportName(d2)[7..7 + |b|];
    DecimalOfNatToDecimal(d1);
    DecimalOfNatToDecimal(d2);
  }

  /** Where `main` stops. */
  datatype Run =
    | ConfigFailed(outcome: ConfigOutcome)
    | NoLogFound
    | ReportExists(reportPath: String)
    | Generate(log: String, reportName: String, reportSize: int)

  /** The decision of `main` after `parse_config`: no log, an existing report, or go ahead. */
  function Decide(settings: Settings, listdir: String -> seq<String>, isFile: String -> bool): Run
    requires settings.reportDir.CStr? && settings.logDir.CStr?
  {
    var (lastLog, date) := LastLog(listdir(settings.logDir.s));
    if lastLog.None? then NoLogFound
    else
      var name := ReportName(date);
      var path := Paths.PyJoin(settings.reportDir.s, name);
      if isFile(path) then ReportExists(path) else Generate(lastLog.value, name, settings.reportSize)
  }

  /** A report is generated exactly when a dated log exists and its report
    * does not; the report is named after the newest log's date. */
  lemma DecideSpec(settings: Settings, listdir: String -> seq<String>, isFile: String -> bool)
    requires settings.reportDir.CStr? && settings.logDir.CStr?
    ensures var files := listdir(settings.logDir.s);
            Decide(settings, listdir, isFile).Generate? <==>
              (exists j :: 0 <= j < |files| && DateOf(files[j]) > 0)
              && !isFile(Paths.PyJoin(settings.reportDir.s, ReportName(LastLog(files).1)))
    ensures Decide(settings, listdir, isFile).Generate? ==>
              Decide(settings, listdir, isFile).reportName == ReportName(LastLog(listdir(settings.logDir.s)).1)
    ensures Decide(settings, listdir, isFile) == NoLogFound <==>
              forall j :: 0 <= j < |listdir(settings.logDir.s)| ==> DateOf(listdir(settings.logDir.s)[j]) == 0
  {
    var files := listdir(settings.logDir.s);
    LastLogSpec(files);
    if LastLog(files).0.Some? {
      var i :| 0 <= i < |files| && files[i] == LastLog(files).0.value && DateOf(files[i]) == LastLog(files).1
               && forall j :: 0 <= j < i ==> DateOf(files[j]) < LastLog(files).1;
    }
  }

  /** `main` up to the point where the report is built: the defaults are
    * overlaid in place, the newest log is found, and the run stops when its
    * report already exists. */
  method AnalyzerMain(defConfig: Config, section: Option<seq<(String, String)>>,
                      listdir: String -> seq<String>, isFile: String -> bool) returns (run: Run)
    requires DirsAreStrings(defConfig.entries)
    modifies defConfig
    ensures DirsAreStrings(defConfig.entries)
    ensures section.Some? ==> defConfig.entries == Overlay(old(defConfig.entries), section.value)
    ensures match ConfigResult(old(defConfig.entries), section)
            case Loaded(settings) => settings.reportDir.CStr? && settings.logDir.CStr? && run == Decide(settings, listdir, isFile)
            case _ => run == ConfigFailed(ConfigResult(old(defConfig.entries), section))
  {
    if section.Some? {
      OverlayKeepsDirs(defConfig.entries, section.value);
    }
    var outcome := ParseConfig(defConfig, section);
    if !outcome.Loaded? {
      return ConfigFailed(outcome);
    }
    var settings := outcome.settings;
    var lastLog, lastLogDate := FindLastLog(listdir(settings.logDir.s));
    if lastLog.None? {
      return NoLogFound;
    }
    var lastReportName := ReportName(lastLogDate);
    var path := Paths.PyJoin(settings.reportDir.s, lastReportName);
    if isFile(path) {
      return ReportExists(path);
    }
    run := Generate(lastLog.value, lastReportName, settings.reportSize);
  }
}
