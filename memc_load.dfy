/**
 * The Python installed-apps loader (W12_Concurrency/memc_load.py), one file
 * at a time and sequentially: parsing a tab-separated line, the store key,
 * the insert with its bounded connection retry, the per-file counters with
 * the 1% error-rate gate, and the name a finished file is renamed to.
 *
 * The memcache client is an oracle (`Network`): which client constructions
 * raise and what `set` does. Float parsing of lat/lon is the predicate
 * `isFloat`. Protobuf encoding is left opaque.
 */
module MemcLoad {
  import opened Wrappers
  import opened Text
  import Paths

  /** CONNECTION_RETRIES */
  const ConnectionRetries: nat := 5

  /** NORMAL_ERR_RATE = 0.01, as a percentage. */
  const NormalErrRatePercent: nat := 1

  /** lat/lon after `lat, lon = float(lat), float(lon)`: both converted, or both left as text. */
  datatype Coords = Converted(lat: String, lon: String) | Unconverted(lat: String, lon: String)

  datatype AppsInstalled = AppsInstalled(devType: String, devId: String, coords: Coords, apps: seq<int>)

  /** What `parse_appsinstalled` does with one line: a record, `None`, or an exception that escapes. */
  datatype ParseResult = Parsed(rec: AppsInstalled) | Rejected | Raises(exception: String)

  /** The tab-separated fields of the stripped line. */
  function Fields(line: String): (f: seq<String>)
    ensures |f| >= 1
  {
    Split(Strip(line, IsPySpace), '\t')
  }

  /** `int(a.strip())` succeeds on the token. */
  predicate IsIntToken(t: String) { PyInt(Strip(t, IsPySpace)).Some? }

  /** `int(a.strip())` */
  function TokenValue(t: String): int
    requires IsIntToken(t)
  {
    PyInt(Strip(t, IsPySpace)).value
  }

  /** `[int(a.strip()) for a in tokens]`: None when some `int` raises ValueError. */
  function IntTokens(tokens: seq<String>): Option<seq<int>>
  {
    if forall k :: 0 <= k < |tokens| ==> IsIntToken(tokens[k])
    then Some(seq(|tokens|, k requires 0 <= k < |tokens| => TokenValue(tokens[k])))
    else None
  }

  /**
   * `parse_appsinstalled(line)` as written. Fewer than five fields gives
   * `None`; more than five makes the tuple unpacking raise. A non-integer app
   * token sends it to the fallback list comprehension, whose first call of
   * the misspelt `a.isidigit()` raises AttributeError.
   */
  function ParseAppsInstalled(line: String, isFloat: String -> bool): ParseResult
  {
    var f := Fields(line);
    if |f| < 5 then Rejected
    else if |f| > 5 then Raises("ValueError: too many values to unpack")
    else if f[0] == [] || f[1] == [] then Rejected
    else match IntTokens(Split(f[4], ','))
      case None => Raises("AttributeError: 'str' object has no attribute 'isidigit'")
      case Some(apps) =>
        var coords := if isFloat(f[2]) && isFloat(f[3]) then Converted(f[2], f[3]) else Unconverted(f[2], f[3]);
        Parsed(AppsInstalled(f[0], f[1], coords, apps))
  }

  /** The rejections: too few fields, or an empty device type or id; more fields raise. */
  lemma ParseRejections(line: String, isFloat: String -> bool)
    ensures |Fields(line)| < 5 ==> ParseAppsInstalled(line, isFloat) == Rejected
    ensures |Fields(line)| > 5 ==> ParseAppsInstalled(line, isFloat).Raises?
    ensures |Fields(line)| == 5 && (Fields(line)[0] == [] || Fields(line)[1] == []) ==>
      ParseAppsInstalled(line, isFloat) == Rejected
    ensures ParseAppsInstalled(line, isFloat) == Rejected <==>
      |Fields(line)| < 5 || (|Fields(line)| == 5 && (Fields(line)[0] == [] || Fields(line)[1] == []))
  {
  }

  /**
   * A well-formed line: five fields, non-empty ids, every app token an
   * integer. The record carries the fields as they are and the apps in input
   * order; an unparseable lat or lon only leaves both unconverted.
   */
  lemma ParseWellFormed(line: String, isFloat: String -> bool)
    requires |Fields(line)| == 5 && Fields(line)[0] != [] && Fields(line)[1] != []
    requires var tokens := Split(Fields(line)[4], ',');
      forall k :: 0 <= k < |tokens| ==> IsIntToken(tokens[k])
    ensures var f := Fields(line);
      var r := ParseAppsInstalled(line, isFloat);
      var tokens := Split(f[4], ',');
      && r.Parsed?
      && r.rec.devType == f[0] && r.rec.devId == f[1]
      && |r.rec.apps| == |tokens|
      && (forall k :: 0 <= k < |tokens| ==> r.rec.apps[k] == TokenValue(tokens[k]))
      && (r.rec.coords.Converted? <==> isFloat(f[2]) && isFloat(f[3]))
      && r.rec.coords.lat == f[2] && r.rec.coords.lon == f[3]
  {
  }

  /** As written, one non-integer app token makes the whole call raise instead of filtering. */
  lemma ParseNonIntegerAppRaises(line: String, isFloat: String -> bool, k: nat)
    requires |Fields(line)| == 5 && Fields(line)[0] != [] && Fields(line)[1] != []
    requires k < |Split(Fields(line)[4], ',')| && !IsIntToken(Split(Fields(line)[4], ',')[k])
    ensures ParseAppsInstalled(line, isFloat).Raises?
  {
  }

  /** A concrete line that shows the misspelt fallback: "idfa\tid\t1\t2\t7,x" raises. */
  lemma ParseFallbackCounterexample(isFloat: String -> bool)
    ensures ParseAppsInstalled("idfa\tid\t1\t2\t7,x", isFloat).Raises?
  {
    CounterexampleFields();
    ParseNonIntegerAppRaises("idfa\tid\t1\t2\t7,x", isFloat, 1);
  }

  lemma CounterexampleFields()
    ensures Fields("idfa\tid\t1\t2\t7,x") == ["idfa", "id", "1", "2", "7,x"]
    ensures Split("7,x", ',') == ["7", "x"]
    ensures !IsIntToken("x")
  {
    CounterexampleLine();
    SplitJoin(["7", "x"], ',');
    assert Join(["7", "x"], ',') == "7,x";
    StripOfUnpadded("x", IsPySpace);
  }

  lemma CounterexampleLine()
    ensures Fields("idfa\tid\t1\t2\t7,x") == ["idfa", "id", "1", "2", "7,x"]
  {
    var fields := ["idfa", "id", "1", "2", "7,x"];
    assert Join(fields, '\t') == "idfa\tid\t1\t2\t7,x";
    FieldsOfJoin(fields);
  }

  /**
   * The fallback the code evidently intends (and the module's own
   * `prototest` uses): keep only the tokens `a.isdigit()` accepts.
   */
  function DigitTokens(tokens: seq<String>): (apps: seq<int>)
    ensures |apps| <= |tokens|
    ensures forall k :: 0 <= k < |apps| ==> apps[k] >= 0
  {
    if tokens == [] then []
    else if tokens[0] != [] && AllDigits(tokens[0]) then [DecimalValue(tokens[0]) as int] + DigitTokens(tokens[1..])
    else DigitTokens(tokens[1..])
  }

  /** `parse_appsinstalled` with `isdigit` spelt right: a non-integer token is dropped, never fatal. */
  function ParseAppsInstalledFixed(line: String, isFloat: String -> bool): (r: ParseResult)
    ensures |Fields(line)| == 5 ==> !r.Raises?
  {
    var f := Fields(line);
    if |f| < 5 then Rejected
    else if |f| > 5 then Raises("ValueError: too many values to unpack")
    else if f[0] == [] || f[1] == [] then Rejected
    else
      var tokens := Split(f[4], ',');
      var apps := match IntTokens(tokens) case Some(a) => a case None => DigitTokens(tokens);
      var coords := if isFloat(f[2]) && isFloat(f[3]) then Converted(f[2], f[3]) else Unconverted(f[2], f[3]);
      Parsed(AppsInstalled(f[0], f[1], coords, apps))
  }

  /** The corrected parser agrees with the code wherever the code does not raise. */
  lemma FixedAgreesWhenNoRaise(line: String, isFloat: String -> bool)
    requires !ParseAppsInstalled(line, isFloat).Raises?
    ensures ParseAppsInstalledFixed(line, isFloat) == ParseAppsInstalled(line, isFloat)
  {
  }

  /** The corrected fallback keeps the all-digit tokens, in order, and
    * nothing else: one more token adds its value exactly when it is all digits. */
  lemma {:induction false} DigitTokensAppend(tokens: seq<String>, w: String)
    ensures DigitTokens(tokens + [w])
            == DigitTokens(tokens) + (if w != [] && AllDigits(w) then [DecimalValue(w) as int] else [])
    decreases |tokens|
  {
    if tokens == [] {
      assert DigitTokens([w][1..]) == [];
    } else {
      assert (tokens + [w])[1..] == tokens[1..] + [w];
      DigitTokensAppend(tokens[1..], w);
      Assoc(if tokens[0] != [] && AllDigits(tokens[0]) then [DecimalValue(tokens[0]) as int] else [],
            DigitTokens(tokens[1..]),
            if w != [] && AllDigits(w) then [DecimalValue(w) as int] else []);
    }
  }

  // ---------------------------------------------------------------------
  // Round trip with the line format

  /** `str(a)` for each app, joined with commas. */
  function AppsText(apps: seq<int>): (tokens: seq<String>)
    ensures |tokens| == |apps|
  {
    seq(|apps|, k requires 0 <= k < |apps| => IntToDecimal(apps[k]))
  }

  /** The input line a record comes from: five tab-separated fields. */
  function FormatLine(devType: String, devId: String, lat: String, lon: String, apps: seq<int>): String
  {
    Join([devType, devId, lat, lon, Join(AppsText(apps), ',')], '\t')
  }

  /** Digits and '-' are neither tabs, commas nor whitespace. */
  lemma IntTextClean(i: int)
    ensures var s := IntToDecimal(i);
      s != [] && '\t' !in s && ',' !in s && !IsPySpace(s[|s| - 1])
  {
    var s := IntToDecimal(i);
    var d := NatToDecimal(if i < 0 then -i else i);
    assert forall k :: 0 <= k < |d| ==> IsAsciiDigit(d[k]);
    assert s[|s| - 1] == d[|d| - 1];
  }

  /** The tab-separated fields of a line read back as they were joined. */
  lemma FieldsOfJoin(fields: seq<String>)
    requires |fields| >= 1 && fields[0] != [] && fields[|fields| - 1] != []
    requires forall k :: 0 <= k < |fields| ==> '\t' !in fields[k]
    requires !IsPySpace(fields[0][0])
    requires var last := fields[|fields| - 1]; !IsPySpace(last[|last| - 1])
    ensures Fields(Join(fields, '\t')) == fields
  {
    JoinFirst(fields, '\t');
    JoinLast(fields, '\t');
    StripOfUnpadded(Join(fields, '\t'), IsPySpace);
    SplitJoin(fields, '\t');
  }

  /** `int(a.strip())` reads back a printed app id. */
  lemma TokenOfApp(i: int)
    ensures IsIntToken(IntToDecimal(i)) && TokenValue(IntToDecimal(i)) == i
  {
    IntTextClean(i);
    StripOfUnpadded(IntToDecimal(i), IsPySpace);
    PyIntOfIntToDecimal(i);
  }

  /** `int(a.strip())` reads back every printed app id. */
  lemma IntTokensOfAppsText(apps: seq<int>)
    ensures IntTokens(AppsText(apps)) == Some(apps)
  {
    var tokens := AppsText(apps);
    forall k | 0 <= k < |tokens|
      ensures IsIntToken(tokens[k]) && TokenValue(tokens[k]) == apps[k]
    {
      TokenOfApp(apps[k]);
    }
    assert seq(|tokens|, k requires 0 <= k < |tokens| => TokenValue(tokens[k])) == apps;
  }

  /** The comma-joined app ids split back into the printed ids; they hold no tab and end in a digit. */
  lemma AppsLine(apps: seq<int>)
    requires apps != []
    ensures var line := Join(AppsText(apps), ',');
      && Split(line, ',') == AppsText(apps)
      && '\t' !in line && line != [] && !IsPySpace(line[|line| - 1])
  {
    var tokens := AppsText(apps);
    forall k | 0 <= k < |tokens|
      ensures ',' !in tokens[k] && '\t' !in tokens[k]
    {
      IntTextClean(apps[k]);
    }
    SplitJoin(tokens, ',');
    JoinNoSep(tokens, ',', '\t');
    IntTextClean(apps[|apps| - 1]);
    JoinLast(tokens, ',');
  }

  /**
   * Round trip: formatting a record as a line and parsing it gives the
   * record back, when the ids are non-empty, no field holds a tab, the line
   * does not start with whitespace, and there is at least one app.
   */
  lemma ParseFormatRoundTrip(devType: String, devId: String, lat: String, lon: String,
                             apps: seq<int>, isFloat: String -> bool)
    requires devType != [] && devId != [] && apps != []
    requires '\t' !in devType && '\t' !in devId && '\t' !in lat && '\t' !in lon
    requires !IsPySpace(devType[0])
    ensures var coords := if isFloat(lat) && isFloat(lon) then Converted(lat, lon) else Unconverted(lat, lon);
      ParseAppsInstalled(FormatLine(devType, devId, lat, lon, apps), isFloat)
        == Parsed(AppsInstalled(devType, devId, coords, apps))
  {
    var appsLine := Join(AppsText(apps), ',');
    AppsLine(apps);
    FieldsOfJoin([devType, devId, lat, lon, appsLine]);
    IntTokensOfAppsText(apps);
  }

  // ---------------------------------------------------------------------
  // Store key and insert

  /** `"%s:%s" % (dev_type, dev_id)` */
  function StoreKey(rec: AppsInstalled): (key: String)
    ensures |key| == |rec.devType| + 1 + |rec.devId|
  {
    rec.devType + ":" + rec.devId
  }

  /** The key splits back at its first ':' into device type and id, when the type has no ':'. */
  lemma StoreKeySplits(rec: AppsInstalled)
    requires ':' !in rec.devType
    ensures BeforeFirst(StoreKey(rec), ':') == rec.devType
    ensures StoreKey(rec)[|rec.devType| + 1..] == rec.devId
  {
    var key := StoreKey(rec);
    BeforeFirstOfConcat(rec.devType, ':', ":" + rec.devId);
    assert key == rec.devType + (":" + rec.devId);
  }

  /** Two records with ':'-free device types share a key only if they share type and id. */
  lemma StoreKeyInjective(r1: AppsInstalled, r2: AppsInstalled)
    requires ':' !in r1.devType && ':' !in r2.devType
    requires StoreKey(r1) == StoreKey(r2)
    ensures r1.devType == r2.devType && r1.devId == r2.devId
  {
    StoreKeySplits(r1);
    StoreKeySplits(r2);
  }

  /** What `memc.set` does: stores, reports a failure by its return value, or raises. */
  datatype SetOutcome = Stored | NotStored | SetRaises

  /**
   * The memcache client for one insert: `clientOk(n)` says whether the n-th
   * `memcache.Client(...)` construction returns a client instead of raising.
   */
  datatype Network = Network(clientOk: nat -> bool, setOutcome: SetOutcome)

  /** The first attempt number below `limit`, from `from` on, whose construction succeeds. */
  function FirstClient(clientOk: nat -> bool, from: nat, limit: nat): (r: Option<nat>)
    ensures r.Some? ==> from <= r.value < limit && clientOk(r.value)
    ensures r.Some? ==> forall n :: from <= n < r.value ==> !clientOk(n)
    ensures r.None? ==> forall n :: from <= n < limit ==> !clientOk(n)
    decreases limit - from
  {
    if from >= limit then None
    else if clientOk(from) then Some(from)
    else FirstClient(clientOk, from + 1, limit)
  }

  /** `UserApps.apps` holds uint32 values (as the Go loader's generated type shows). */
  const Uint32Bound: int := 0x1_0000_0000

  /**
   * Whether the protobuf assignments at the head of `insert_appsinstalled`
   * accept the record. `lat` and `lon` are double fields, so coordinates the
   * parser left as strings raise TypeError; `apps` is a uint32 list, so an
   * app outside [0, 2^32) raises ValueError. Both happen before the dry-run
   * test.
   */
  predicate Serialisable(rec: AppsInstalled)
  {
    rec.coords.Converted? && forall k :: 0 <= k < |rec.apps| ==> 0 <= rec.apps[k] < Uint32Bound
  }

  /**
   * The result of a serialisable `insert_appsinstalled`: True in a dry run; otherwise True
   * exactly when one of the CONNECTION_RETRIES + 1 constructions succeeds
   * and `set` does not raise (its return value is not looked at).
   */
  function InsertResult(dryRun: bool, net: Network): bool
  {
    dryRun || (FirstClient(net.clientOk, 0, ConnectionRetries + 1).Some? && net.setOutcome != SetRaises)
  }

  /**
   * `insert_appsinstalled(memc_addr, appsinstalled, dry_run)`. Returns
   * whether the protobuf assignments raised, the result, the key it writes
   * under and the number of client constructions.
   */
  method InsertAppsInstalled(rec: AppsInstalled, dryRun: bool, net: Network)
    returns (raised: bool, ok: bool, key: String, attempts: nat)
    ensures raised <==> !Serialisable(rec)
    ensures key == StoreKey(rec)
    ensures !raised ==> ok == InsertResult(dryRun, net)
    ensures raised || dryRun ==> attempts == 0
    ensures !raised && !dryRun ==> 1 <= attempts <= ConnectionRetries + 1
    ensures !raised && !dryRun ==> attempts == match FirstClient(net.clientOk, 0, ConnectionRetries + 1)
                                              case Some(n) => n + 1
                                              case None => ConnectionRetries + 1
  {
    key := rec.devType + ":" + rec.devId;
    attempts := 0;
    raised, ok := false, false;
    if !rec.coords.Converted? {
      return true, false, key, attempts;
    }
    if exists k :: 0 <= k < |rec.apps| && !(0 <= rec.apps[k] < Uint32Bound) {
      return true, false, key, attempts;
    }
    if dryRun {
      return false, true, key, attempts;
    }
    var counter := 0;
    var memc := false;
    while counter <= ConnectionRetries && !memc
      invariant 0 <= counter <= ConnectionRetries + 1
      invariant !memc ==> attempts == counter && forall n :: 0 <= n < counter ==> !net.clientOk(n)
      invariant memc ==> attempts == counter + 1 && counter <= ConnectionRetries && net.clientOk(counter)
                         && forall n :: 0 <= n < counter ==> !net.clientOk(n)
      decreases ConnectionRetries + 1 - counter, !memc
    {
      memc := net.clientOk(counter);
      attempts := attempts + 1;
      if !memc {
        counter := counter + 1;
      }
    }
    if !memc {
      return false, false, key, attempts;
    }
    ok := net.setOutcome != SetRaises;
  }

  // ---------------------------------------------------------------------
  // Counting one file

  /** What `process_file` does with one line. */
  datatype LineOutcome = Blank | ParseError | UnknownType | Queued(rec: AppsInstalled) | LineRaises(exception: String)

  /**
   * The branch `process_file` takes for one line: skipped when blank, an
   * error when unparsed or when its device type has no (or an empty)
   * memcache address, queued for insert otherwise.
   */
  function Classify(line: String, deviceMemc: map<String, String>, isFloat: String -> bool): LineOutcome
  {
    var t := Strip(line, IsPySpace);
    if t == [] then Blank
    else match ParseAppsInstalled(t, isFloat)
      case Rejected => ParseError
      case Raises(e) => LineRaises(e)
      case Parsed(rec) =>
        if rec.devType !in deviceMemc || deviceMemc[rec.devType] == [] then UnknownType else Queued(rec)
  }

  /** Only blank lines are skipped. */
  lemma ClassifyBlank(line: String, deviceMemc: map<String, String>, isFloat: String -> bool)
    ensures Classify(line, deviceMemc, isFloat) == Blank <==> Strip(line, IsPySpace) == []
  {
  }

  /** A queued record has a device type with a non-empty address. */
  lemma ClassifyQueued(line: String, deviceMemc: map<String, String>, isFloat: String -> bool)
    requires Classify(line, deviceMemc, isFloat).Queued?
    ensures var rec := Classify(line, deviceMemc, isFloat).rec;
      rec.devType in deviceMemc && deviceMemc[rec.devType] != []
      && ParseAppsInstalled(line, isFloat) == Parsed(rec)
  {
    StripIdempotent(line, IsPySpace);
  }

  /** The branch taken for each line, in order. */
  function Outcomes(lines: seq<String>, deviceMemc: map<String, String>, isFloat: String -> bool): (r: seq<LineOutcome>)
    ensures |r| == |lines|
  {
    if lines == [] then [] else [Classify(lines[0], deviceMemc, isFloat)] + Outcomes(lines[1..], deviceMemc, isFloat)
  }

  lemma {:induction false} OutcomeAt(lines: seq<String>, i: nat, deviceMemc: map<String, String>, isFloat: String -> bool)
    requires i < |lines|
    ensures Outcomes(lines, deviceMemc, isFloat)[i] == Classify(lines[i], deviceMemc, isFloat)
  {
    if i > 0 {
      OutcomeAt(lines[1..], i - 1, deviceMemc, isFloat);
    }
  }

  /**
   * The counters of a file, or the exception that escapes `process_file`,
   * or `Hung`: an insert raised in a worker thread, so that thread died
   * without `task_done` and `join()` on its queue never returns.
   */
  datatype FileResult = Finished(processed: nat, errors: nat) | Crashed(exception: String) | Hung

  /**
   * The counters after the first n lines, the insert of line i answering
   * as `net(i)` says. An exception in the reading loop stops the file; a
   * raising insert leaves the loop running but the file hung.
   */
  function Tally(outcomes: seq<LineOutcome>, n: nat, dryRun: bool, net: nat -> Network): FileResult
    requires n <= |outcomes|
  {
    if n == 0 then Finished(0, 0)
    else match Tally(outcomes, n - 1, dryRun, net)
      case Crashed(e) => Crashed(e)
      case Hung => if outcomes[n - 1].LineRaises? then Crashed(outcomes[n - 1].exception) else Hung
      case Finished(p, e) =>
        match outcomes[n - 1]
        case Blank => Finished(p, e)
        case ParseError => Finished(p, e + 1)
        case UnknownType => Finished(p, e + 1)
        case LineRaises(x) => Crashed(x)
        case Queued(rec) =>
          if !Serialisable(rec) then Hung
          else if InsertResult(dryRun, net(n - 1)) then Finished(p + 1, e) else Finished(p, e + 1)
  }

  /** How one more line moves the counters. */
  lemma TallyNext(outcomes: seq<LineOutcome>, n: nat, dryRun: bool, net: nat -> Network)
    requires n < |outcomes| && Tally(outcomes, n, dryRun, net).Finished?
    ensures var t := Tally(outcomes, n, dryRun, net);
      Tally(outcomes, n + 1, dryRun, net) == match outcomes[n]
        case Blank => t
        case ParseError => Finished(t.processed, t.errors + 1)
        case UnknownType => Finished(t.processed, t.errors + 1)
        case LineRaises(x) => Crashed(x)
        case Queued(rec) =>
          if !Serialisable(rec) then Hung
          else if InsertResult(dryRun, net(n)) then Finished(t.processed + 1, t.errors) else Finished(t.processed, t.errors + 1)
  {
  }

  /** The number of the first n outcomes that are not blank lines. */
  function NonBlank(outcomes: seq<LineOutcome>, n: nat): nat
    requires n <= |outcomes|
  {
    if n == 0 then 0 else NonBlank(outcomes, n - 1) + (if outcomes[n - 1].Blank? then 0 else 1)
  }

  /** The number of the first n outcomes that are queued records. */
  function QueuedCount(outcomes: seq<LineOutcome>, n: nat): nat
    requires n <= |outcomes|
  {
    if n == 0 then 0 else QueuedCount(outcomes, n - 1) + (if outcomes[n - 1].Queued? then 1 else 0)
  }

  /** Every non-blank line is counted exactly once, as processed or as an error. */
  lemma {:induction false} TallyConservation(outcomes: seq<LineOutcome>, n: nat, dryRun: bool, net: nat -> Network)
    requires n <= |outcomes|
    requires Tally(outcomes, n, dryRun, net).Finished?
    ensures Tally(outcomes, n, dryRun, net).processed + Tally(outcomes, n, dryRun, net).errors == NonBlank(outcomes, n)
  {
    if n > 0 {
      TallyConservation(outcomes, n - 1, dryRun, net);
    }
  }

  /**
   * A dry run that finishes had only serialisable queued records, and every
   * one of them counts as processed: only parse and routing failures are
   * errors.
   */
  lemma {:induction false} TallyDryRun(outcomes: seq<LineOutcome>, n: nat, net: nat -> Network)
    requires n <= |outcomes|
    requires Tally(outcomes, n, true, net).Finished?
    ensures forall k :: 0 <= k < n && outcomes[k].Queued? ==> Serialisable(outcomes[k].rec)
    ensures Tally(outcomes, n, true, net).processed == QueuedCount(outcomes, n)
  {
    FinishedSerialisable(outcomes, n, true, net);
    if n > 0 {
      TallyDryRun(outcomes, n - 1, net);
    }
  }

  /** A file that finished had only serialisable queued records. */
  lemma {:induction false} FinishedSerialisable(outcomes: seq<LineOutcome>, n: nat, dryRun: bool, net: nat -> Network)
    requires n <= |outcomes|
    requires Tally(outcomes, n, dryRun, net).Finished?
    ensures forall k :: 0 <= k < n && outcomes[k].Queued? ==> Serialisable(outcomes[k].rec)
  {
    if n > 0 {
      FinishedSerialisable(outcomes, n - 1, dryRun, net);
    }
  }

  /**
   * A queued record the protobuf message refuses (unconverted coordinates,
   * an app outside uint32) hangs the file, dry run or not, unless a later
   * line raises in the reading loop first.
   */
  lemma {:induction false} UnserialisableHangs(outcomes: seq<LineOutcome>, k: nat, n: nat, dryRun: bool, net: nat -> Network)
    requires k < n <= |outcomes|
    requires Tally(outcomes, k, dryRun, net).Finished?
    requires outcomes[k].Queued? && !Serialisable(outcomes[k].rec)
    requires forall j :: k < j < n ==> !outcomes[j].LineRaises?
    ensures Tally(outcomes, n, dryRun, net) == Hung
    decreases n - k
  {
    if n > k + 1 {
      UnserialisableHangs(outcomes, k, n - 1, dryRun, net);
    }
  }

  /** Once a line raises, the later lines change nothing. */
  lemma {:induction false} CrashPersists(outcomes: seq<LineOutcome>, n: nat, m: nat, dryRun: bool, net: nat -> Network)
    requires n <= m <= |outcomes|
    requires Tally(outcomes, n, dryRun, net).Crashed?
    ensures Tally(outcomes, m, dryRun, net) == Tally(outcomes, n, dryRun, net)
    decreases m - n
  {
    if n < m {
      CrashPersists(outcomes, n, m - 1, dryRun, net);
    }
  }

  /** The log message `process_file` ends with. */
  datatype Verdict = NoRate | Acceptable | HighErrorRate

  /** `err_rate = errors / processed; err_rate < NORMAL_ERR_RATE`, skipped when nothing was processed. */
  function Gate(processed: nat, errors: nat): Verdict
  {
    if processed == 0 then NoRate
    else if 100 * errors < NormalErrRatePercent * processed then Acceptable
    else HighErrorRate
  }

  /** The integer gate is the rate comparison `errors / processed < 0.01`. */
  lemma GateIsRate(processed: nat, errors: nat)
    requires processed > 0
    ensures Gate(processed, errors) == Acceptable <==> (errors as real) / (processed as real) < 0.01
    ensures Gate(processed, errors) != NoRate
  {
    var p := processed as real;
    var e := errors as real;
    assert e / p < 0.01 <==> e < 0.01 * p by {
      assert (e / p) * p == e;
    }
  }

  /** The branch `process_file` takes for line i. */
  method ClassifyAt(lines: seq<String>, i: nat, deviceMemc: map<String, String>, isFloat: String -> bool)
    returns (outcome: LineOutcome)
    requires i < |lines|
    ensures outcome == Outcomes(lines, deviceMemc, isFloat)[i]
  {
    outcome := Classify(lines[i], deviceMemc, isFloat);
    OutcomeAt(lines, i, deviceMemc, isFloat);
  }

  /** The state of a file still being read: its counters, or hung once a worker died. */
  function Running(processed: nat, errors: nat, died: bool): FileResult
  {
    if died then Hung else Finished(processed, errors)
  }

  /**
   * The rest of one turn of the loop in `process_file`, once the branch for
   * line i is known: count an error, insert, or raise.
   */
  method ProcessLine(outcome: LineOutcome, ghost outcomes: seq<LineOutcome>, i: nat,
                     dryRun: bool, net: nat -> Network, processed: nat, errors: nat, died: bool)
    returns (processed': nat, errors': nat, died': bool, raised: Option<String>)
    requires i < |outcomes| && outcomes[i] == outcome
    requires Tally(outcomes, i, dryRun, net) == Running(processed, errors, died)
    ensures raised.None? ==> Tally(outcomes, i + 1, dryRun, net) == Running(processed', errors', died')
    ensures raised.Some? ==> Tally(outcomes, i + 1, dryRun, net) == Crashed(raised.value)
  {
    processed', errors', died', raised := processed, errors, died, None;
    if died {
      if outcome.LineRaises? {
        raised := Some(outcome.exception);
      }
      return;
    }
    TallyNext(outcomes, i, dryRun, net);
    match outcome {
      case Blank =>
      case ParseError =>
        errors' := errors + 1;
      case UnknownType =>
        errors' := errors + 1;
      case LineRaises(e) =>
        raised := Some(e);
      case Queued(rec) =>
        var insertRaised, ok, _, _ := InsertAppsInstalled(rec, dryRun, net(i));
        if insertRaised {
          died' := true;
        } else if ok {
          processed' := processed + 1;
        } else {
          errors' := errors + 1;
        }
    }
  }

  /**
   * `process_file(options, fn)` with the lines of the file given: returns the
   * file name, the counters (or the exception that escapes, or the hang) and
   * the verdict.
   */
  method ProcessFile(fn: String, lines: seq<String>, deviceMemc: map<String, String>,
                     isFloat: String -> bool, dryRun: bool, net: nat -> Network)
    returns (name: String, result: FileResult, verdict: Verdict)
    ensures result == Tally(Outcomes(lines, deviceMemc, isFloat), |lines|, dryRun, net)
    ensures result.Finished? ==> name == fn && verdict == Gate(result.processed, result.errors)
  {
    name := fn;
    ghost var outcomes := Outcomes(lines, deviceMemc, isFloat);
    var processed, errors, died := 0, 0, false;
    var i := 0;
    while i < |lines|
      invariant 0 <= i <= |lines|
      invariant Tally(outcomes, i, dryRun, net) == Running(processed, errors, died)
    {
      var outcome := ClassifyAt(lines, i, deviceMemc, isFloat);
      var raised;
      processed, errors, died, raised := ProcessLine(outcome, outcomes, i, dryRun, net, processed, errors, died);
      if raised.Some? {
        result := Crashed(raised.value);
        CrashPersists(outcomes, i + 1, |lines|, dryRun, net);
        verdict := NoRate;
        return;
      }
      i := i + 1;
    }
    assert Tally(outcomes, |lines|, dryRun, net) == Running(processed, errors, died);
    if died {
      result, verdict := Hung, NoRate;
      return;
    }
    result := Finished(processed, errors);
    verdict := Gate(processed, errors);
  }

  // ---------------------------------------------------------------------
  // dot_rename

  /** `os.path.join(head, "." + fn)` where `head, fn = os.path.split(path)`. */
  function DotRenameTarget(path: String): String
  {
    var (head, fn) := Paths.PySplit(path);
    Paths.PyJoin(head, "." + fn)
  }

  /**
   * The renamed file sits in the same directory: a '.' is inserted just
   * after the last '/', unless the directory part ends in a run of two or
   * more slashes, which the split collapses.
   */
  lemma DotRenameInsertsDot(path: String)
    requires var i := Paths.BaseStart(path); i < 2 || path[i - 2] != '/' || Paths.AllSlashes(path[..i])
    ensures var i := Paths.BaseStart(path); DotRenameTarget(path) == path[..i] + "." + path[i..]
  {
    var i := Paths.BaseStart(path);
    if i == 0 || Paths.AllSlashes(path[..i]) {
      DotRenameKeepsHead(path, i);
    } else {
      DotRenameOneSlash(path, i);
    }
  }

  lemma DotRenameKeepsHead(path: String, i: nat)
    requires i == Paths.BaseStart(path) && (i == 0 || Paths.AllSlashes(path[..i]))
    ensures DotRenameTarget(path) == path[..i] + "." + path[i..]
  {
    Paths.PySplitKeepsHead(path);
    Paths.PyJoinOntoDir(path[..i], "." + path[i..]);
  }

  lemma DotRenameOneSlash(path: String, i: nat)
    requires i == Paths.BaseStart(path) && i >= 2 && path[i - 2] != '/'
    ensures DotRenameTarget(path) == path[..i] + "." + path[i..]
  {
    var head, fn := path[..i - 1], "." + path[i..];
    assert DotRenameTarget(path) == Paths.PyJoin(head, fn) by {
      Paths.PySplitDropsSlash(path);
    }
    assert Paths.PyJoin(head, fn) == head + "/" + fn by {
      assert head[|head| - 1] == path[i - 2] && fn[0] == '.';
      Paths.PyJoinAddsSlash(head, fn);
    }
    assert head + "/" == path[..i];
  }
}
