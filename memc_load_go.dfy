/**
 * The Go installed-apps loader (W15_Go_MemcLoad_v2/memc_load_parallel.go),
 * one file at a time: parsing a line into a record whose app ids are
 * appended one by one as `uint32`, the insert into memcache, the per-file
 * counters with the error-rate gate, and the name a processed file is
 * renamed to.
 *
 * `strconv.ParseFloat` is the oracle `parseFloat`; what `Set` returns for the
 * i-th line is the oracle `setOk(i)`. `device_memc` maps device types to Go
 * `interface{}` values (`Iface`), and `servers` is the set of device types
 * that have a non-nil `*memcache.Client`.
 */
module MemcLoadGo {
  import opened Wrappers
  import opened Text
  import Paths

  /** NORMAL_ERR_RATE = 0.01, as a percentage. */
  const NormalErrRatePercent: nat := 1

  /** A record; `apps` holds `uint32` values. */
  datatype AppsInstalled = AppsInstalled(devType: String, devId: String, lat: real, lon: real, apps: seq<nat>)

  /** The error `parse_appsinstalled` returns. */
  datatype ParseError = WrongFieldCount | MissingId | BadFloat(text: String)

  datatype ParseResult = Ok(rec: AppsInstalled) | Err(error: ParseError)

  // ---------------------------------------------------------------------
  // Parsing

  /** `strings.Split(strings.TrimSpace(line), "\t")` */
  function LineParts(line: String): (parts: seq<String>)
    ensures |parts| >= 1
  {
    Split(Strip(line, IsGoSpace), '\t')
  }

  /** What the loop body appends for one token: `uint32(x)` when `strconv.Atoi` accepts it, nothing otherwise. */
  function AppOf(token: String): (app: seq<nat>)
    ensures |app| <= 1
  {
    match Atoi(token)
    case Some(x) => [ToUint32(x)]
    case None => []
  }

  /** The apps slice after the loop has run over `tokens`. */
  function AppsOf(tokens: seq<String>): seq<nat>
    decreases |tokens|
  {
    if tokens == [] then [] else AppsOf(tokens[..|tokens| - 1]) + AppOf(tokens[|tokens| - 1])
  }

  /** `parse_appsinstalled(line)`: the checks in source order, then the record. */
  function ParseLine(line: String, parseFloat: String -> Option<real>): ParseResult
  {
    var parts := LineParts(line);
    if |parts| != 5 then Err(WrongFieldCount)
    else if parts[0] == [] || parts[1] == [] then Err(MissingId)
    else if parseFloat(parts[2]).None? then Err(BadFloat(parts[2]))
    else if parseFloat(parts[3]).None? then Err(BadFloat(parts[3]))
    else Ok(AppsInstalled(parts[0], parts[1], parseFloat(parts[2]).value, parseFloat(parts[3]).value,
                          AppsOf(Split(parts[4], ','))))
  }

  /** `parse_appsinstalled`, appending to `apps` token by token. */
  method ParseAppsInstalled(line: String, parseFloat: String -> Option<real>) returns (r: ParseResult)
    ensures r == ParseLine(line, parseFloat)
  {
    var parts := LineParts(line);
    if |parts| != 5 {
      return Err(WrongFieldCount);
    }
    var devType, devId := parts[0], parts[1];
    if devType == [] || devId == [] {
      return Err(MissingId);
    }
    var lat, lon, rawApps := parts[2], parts[3], parts[4];
    var latNum := parseFloat(lat);
    if latNum.None? {
      return Err(BadFloat(lat));
    }
    var lonNum := parseFloat(lon);
    if lonNum.None? {
      return Err(BadFloat(lon));
    }
    var tokens := Split(rawApps, ',');
    var apps: seq<nat> := [];
    var i := 0;
    while i < |tokens|
      invariant i <= |tokens|
      invariant apps == AppsOf(tokens[..i])
    {
      assert tokens[..i + 1][..i] == tokens[..i];
      var x := Atoi(tokens[i]);
      if x.Some? {
        apps := apps + [ToUint32(x.value)];
      }
      i := i + 1;
    }
    assert tokens[..i] == tokens;
    r := Ok(AppsInstalled(devType, devId, latNum.value, lonNum.value, apps));
  }

  /** The error cases, each iff its condition: wrong field count, then a missing id, then an unparseable lat or lon. */
  lemma ParseLineErrors(line: String, parseFloat: String -> Option<real>)
    ensures var parts := LineParts(line);
      && (ParseLine(line, parseFloat) == Err(WrongFieldCount) <==> |parts| != 5)
      && (ParseLine(line, parseFloat) == Err(MissingId) <==> |parts| == 5 && (parts[0] == [] || parts[1] == []))
      && (ParseLine(line, parseFloat).Err? && ParseLine(line, parseFloat).error.BadFloat? <==>
            |parts| == 5 && parts[0] != [] && parts[1] != []
            && (parseFloat(parts[2]).None? || parseFloat(parts[3]).None?))
  {
  }

  /** A record is produced exactly when there are five fields, both ids are set and both floats parse; app tokens never reject. */
  lemma ParseLineOk(line: String, parseFloat: String -> Option<real>)
    ensures var parts := LineParts(line);
      var r := ParseLine(line, parseFloat);
      && (r.Ok? <==> |parts| == 5 && parts[0] != [] && parts[1] != []
                     && parseFloat(parts[2]).Some? && parseFloat(parts[3]).Some?)
      && (r.Ok? ==> r.rec.devType == parts[0] && r.rec.devId == parts[1]
                    && Some(r.rec.lat) == parseFloat(parts[2]) && Some(r.rec.lon) == parseFloat(parts[3])
                    && r.rec.apps == AppsOf(Split(parts[4], ',')))
  {
  }

  /** The apps of a concatenation are the apps of each part in order: dropped tokens do not disturb the others. */
  lemma {:induction false} AppsOfConcat(a: seq<String>, b: seq<String>)
    ensures AppsOf(a + b) == AppsOf(a) + AppsOf(b)
    decreases |b|
  {
    if b == [] {
      assert a + b == a;
    } else {
      var b', last := b[..|b| - 1], b[|b| - 1];
      assert (a + b)[..|a + b| - 1] == a + b';
      assert (a + b)[|a + b| - 1] == last;
      AppsOfConcat(a, b');
      calc {
        AppsOf(a + b);
        AppsOf(a + b') + AppOf(last);
        (AppsOf(a) + AppsOf(b')) + AppOf(last);
        AppsOf(a) + (AppsOf(b') + AppOf(last));
        AppsOf(a) + AppsOf(b);
      }
    }
  }

  /** A token `Atoi` refuses contributes nothing. */
  lemma AppsOfDropsBadToken(a: seq<String>, t: String, b: seq<String>)
    requires Atoi(t).None?
    ensures AppsOf(a + [t] + b) == AppsOf(a) + AppsOf(b)
  {
    assert AppsOf([t]) == [] by {
      assert [t][..0] == [];
      assert AppOf(t) == [];
    }
    calc {
      AppsOf(a + [t] + b);
      { AppsOfConcat(a + [t], b); }
      AppsOf(a + [t]) + AppsOf(b);
      { AppsOfConcat(a, [t]); }
      AppsOf(a) + AppsOf([t]) + AppsOf(b);
    }
  }

  /** Every app id fits in 32 bits. */
  lemma {:induction false} AppsOfBounded(tokens: seq<String>)
    ensures forall k :: 0 <= k < |AppsOf(tokens)| ==> AppsOf(tokens)[k] < 0x1_0000_0000
    decreases |tokens|
  {
    if tokens != [] {
      AppsOfBounded(tokens[..|tokens| - 1]);
    }
  }

  /** When every token is an integer, each one yields its value truncated to 32 bits, in order. */
  lemma {:induction false} AppsOfAllIntegers(tokens: seq<String>)
    requires forall k :: 0 <= k < |tokens| ==> Atoi(tokens[k]).Some?
    ensures |AppsOf(tokens)| == |tokens|
    ensures forall k :: 0 <= k < |tokens| ==> AppsOf(tokens)[k] == ToUint32(Atoi(tokens[k]).value)
    decreases |tokens|
  {
    if tokens != [] {
      AppsOfAllIntegers(tokens[..|tokens| - 1]);
    }
  }

  /** `uint32(x)` of a negative id wraps: "-1" becomes 4294967295. */
  lemma NegativeAppWraps()
    ensures AppOf("-1") == [0xFFFF_FFFF]
  {
    assert SplitSign("-1") == (true, "1");
    assert DecimalValue("1") == 1 by { assert DecimalValue("1") == DigitValue('1'); }
  }

  /** `strconv.Atoi` reads back a printed natural number that fits an `int`. */
  lemma AtoiOfDecimal(n: nat)
    requires n <= GoIntMax
    ensures Atoi(NatToDecimal(n)) == Some(n)
  {
    var s := NatToDecimal(n);
    DecimalOfNatToDecimal(n);
    assert SplitSign(s) == (false, s) by { assert IsAsciiDigit(s[0]); }
  }

  /** The printed ids of `uint32` apps read back as the apps. */
  lemma {:induction false} AppsOfPrinted(apps: seq<nat>, tokens: seq<String>)
    requires |tokens| == |apps|
    requires forall k :: 0 <= k < |apps| ==> apps[k] < 0x1_0000_0000 && tokens[k] == NatToDecimal(apps[k])
    ensures AppsOf(tokens) == apps
    decreases |apps|
  {
    if apps != [] {
      var n := |apps|;
      var last := apps[n - 1];
      assert AppsOf(tokens[..n - 1]) == apps[..n - 1] by {
        AppsOfPrinted(apps[..n - 1], tokens[..n - 1]);
      }
      assert tokens[n - 1] == NatToDecimal(last);
      AppOfPrinted(last);
      assert AppsOf(tokens) == AppsOf(tokens[..n - 1]) + AppOf(tokens[n - 1]);
      assert apps == apps[..n - 1] + [last];
    }
  }

  /** A printed `uint32` id is read back as one app, itself. */
  lemma AppOfPrinted(app: nat)
    requires app < 0x1_0000_0000
    ensures AppOf(NatToDecimal(app)) == [app]
  {
    AtoiOfDecimal(app);
  }

  /** The line a record of `uint32` apps is printed as. */
  function FormatLine(devType: String, devId: String, lat: String, lon: String, apps: seq<nat>): String
  {
    Join([devType, devId, lat, lon, Join(seq(|apps|, k requires 0 <= k < |apps| => NatToDecimal(apps[k])), ',')], '\t')
  }

  /** The comma-joined ids split back into the printed ids, hold no tab and end in a digit. */
  lemma PrintedApps(apps: seq<nat>)
    requires apps != []
    ensures var tokens := seq(|apps|, k requires 0 <= k < |apps| => NatToDecimal(apps[k]));
      var line := Join(tokens, ',');
      && Split(line, ',') == tokens
      && '\t' !in line && line != [] && IsAsciiDigit(line[|line| - 1])
  {
    var tokens := seq(|apps|, k requires 0 <= k < |apps| => NatToDecimal(apps[k]));
    forall k | 0 <= k < |tokens|
      ensures ',' !in tokens[k] && '\t' !in tokens[k]
    {
      assert AllDigits(tokens[k]);
    }
    SplitJoin(tokens, ',');
    JoinNoSep(tokens, ',', '\t');
    JoinLast(tokens, ',');
  }

  /**
   * Round trip: a printed record with non-empty, tab-free ids, floats the
   * oracle accepts and at least one `uint32` app parses back to itself.
   */
  lemma ParseFormatRoundTrip(devType: String, devId: String, lat: String, lon: String, apps: seq<nat>,
                             parseFloat: String -> Option<real>)
    requires devType != [] && devId != [] && apps != []
    requires '\t' !in devType && '\t' !in devId && '\t' !in lat && '\t' !in lon
    requires !IsGoSpace(devType[0])
    requires parseFloat(lat).Some? && parseFloat(lon).Some?
    requires forall k :: 0 <= k < |apps| ==> apps[k] < 0x1_0000_0000
    ensures ParseLine(FormatLine(devType, devId, lat, lon, apps), parseFloat)
      == Ok(AppsInstalled(devType, devId, parseFloat(lat).value, parseFloat(lon).value, apps))
  {
    var tokens := seq(|apps|, k requires 0 <= k < |apps| => NatToDecimal(apps[k]));
    var appsLine := Join(tokens, ',');
    PrintedApps(apps);
    PartsOfJoin([devType, devId, lat, lon, appsLine]);
    AppsOfPrinted(apps, tokens);
  }

  /** The tab-separated parts of a joined line read back as they were joined. */
  lemma PartsOfJoin(fields: seq<String>)
    requires |fields| >= 1 && fields[0] != [] && fields[|fields| - 1] != []
    requires forall k :: 0 <= k < |fields| ==> '\t' !in fields[k]
    requires !IsGoSpace(fields[0][0])
    requires var last := fields[|fields| - 1]; !IsGoSpace(last[|last| - 1])
    ensures LineParts(Join(fields, '\t')) == fields
  {
    JoinFirst(fields, '\t');
    JoinLast(fields, '\t');
    StripOfUnpadded(Join(fields, '\t'), IsGoSpace);
    SplitJoin(fields, '\t');
  }

  // ---------------------------------------------------------------------
  // Insert

  /** `fmt.Sprintf("%s:%s", dev_type, dev_id)` */
  function Key(rec: AppsInstalled): (key: String)
    ensures |key| == |rec.devType| + 1 + |rec.devId|
  {
    rec.devType + ":" + rec.devId
  }

  /** The key splits back at its first ':' into device type and id, when the type has no ':'. */
  lemma KeySplits(rec: AppsInstalled)
    requires ':' !in rec.devType
    ensures BeforeFirst(Key(rec), ':') == rec.devType
    ensures Key(rec)[|rec.devType| + 1..] == rec.devId
  {
    BeforeFirstOfConcat(rec.devType, ':', ":" + rec.devId);
    assert Key(rec) == rec.devType + (":" + rec.devId);
  }

  /** Records with ':'-free device types share a key only if they share type and id. */
  lemma KeyInjective(r1: AppsInstalled, r2: AppsInstalled)
    requires ':' !in r1.devType && ':' !in r2.devType
    requires Key(r1) == Key(r2)
    ensures r1.devType == r2.devType && r1.devId == r2.devId
  {
    KeySplits(r1);
    KeySplits(r2);
  }

  /** `insert_appsinstalled` returns a boolean, or panics when `Set` is called on a nil client. */
  datatype InsertOutcome = Inserted(ok: bool) | NilClientPanic

  /** `insert_appsinstalled(mc, rec, dry_run)`; `hasClient` says `mc` is not nil, `setOk` that `Set` returned no error. */
  function Insert(hasClient: bool, dryRun: bool, setOk: bool): InsertOutcome
  {
    if dryRun then Inserted(true)
    else if !hasClient then NilClientPanic
    else Inserted(setOk)
  }

  /** A dry run always succeeds without `Set`; otherwise the insert fails exactly when `Set` errs, and a nil client panics. */
  lemma InsertCases(hasClient: bool, dryRun: bool, setOk: bool)
    ensures dryRun ==> Insert(hasClient, dryRun, setOk) == Inserted(true)
    ensures Insert(hasClient, dryRun, setOk) == Inserted(false) <==> !dryRun && hasClient && !setOk
    ensures Insert(hasClient, dryRun, setOk) == NilClientPanic <==> !dryRun && !hasClient
  {
  }

  // ---------------------------------------------------------------------
  // Counting one file

  /** A Go `interface{}` value as `device_memc` holds it. */
  datatype Iface = INil | IStr(s: String) | IInt(i: int)

  /** The index expression `device_memc[dev_type]`: the zero value nil for a missing key. */
  function Lookup(deviceMemc: map<String, Iface>, devType: String): Iface
  {
    if devType in deviceMemc then deviceMemc[devType] else INil
  }

  /** What the loop sees for one scanned line. */
  datatype LineOutcome = Blank | Malformed | Record(rec: AppsInstalled)

  /** The loop body's view of a line: trimmed and skipped if empty, else parsed. */
  function Classify(line: String, parseFloat: String -> Option<real>): LineOutcome
  {
    var t := Strip(line, IsGoSpace);
    if t == [] then Blank
    else match ParseLine(t, parseFloat)
      case Err(_) => Malformed
      case Ok(rec) => Record(rec)
  }

  function Outcomes(lines: seq<String>, parseFloat: String -> Option<real>): (r: seq<LineOutcome>)
    ensures |r| == |lines|
  {
    if lines == [] then [] else [Classify(lines[0], parseFloat)] + Outcomes(lines[1..], parseFloat)
  }

  lemma {:induction false} OutcomeAt(lines: seq<String>, i: nat, parseFloat: String -> Option<real>)
    requires i < |lines|
    ensures Outcomes(lines, parseFloat)[i] == Classify(lines[i], parseFloat)
  {
    if i > 0 {
      OutcomeAt(lines[1..], i - 1, parseFloat);
    }
  }

  /** The configuration of one run: `device_memc`, the device types with a client, `dry`, and `Set`'s answer per line. */
  datatype Env = Env(deviceMemc: map<String, Iface>, servers: set<String>, dryRun: bool, setOk: nat -> bool)

  datatype FileResult = Finished(processed: nat, errors: nat) | Panicked

  /**
   * The counters after the first n outcomes, as written: a malformed line
   * and the unknown-type branch do `ln_errors += ln_errors`, the unknown
   * test is `memc_addr == 0`, and the insert uses `memc_servers[dev_type]`.
   */
  function Tally(outcomes: seq<LineOutcome>, n: nat, env: Env): FileResult
    requires n <= |outcomes|
  {
    if n == 0 then Finished(0, 0)
    else match Tally(outcomes, n - 1, env)
      case Panicked => Panicked
      case Finished(p, e) =>
        match outcomes[n - 1]
        case Blank => Finished(p, e)
        case Malformed => Finished(p, e + e)
        case Record(rec) =>
          if Lookup(env.deviceMemc, rec.devType) == IInt(0) then Finished(p, e + e)
          else match Insert(rec.devType in env.servers, env.dryRun, env.setOk(n - 1))
            case NilClientPanic => Panicked
            case Inserted(ok) => if ok then Finished(p + 1, e) else Finished(p, e + 1)
  }

  /** Outcomes that insert and fail. */
  function FailedInserts(outcomes: seq<LineOutcome>, n: nat, env: Env): nat
    requires n <= |outcomes|
  {
    if n == 0 then 0
    else FailedInserts(outcomes, n - 1, env)
         + (if outcomes[n - 1].Record? && !env.dryRun && !env.setOk(n - 1) then 1 else 0)
  }

  /** Non-blank outcomes. */
  function NonBlank(outcomes: seq<LineOutcome>, n: nat): nat
    requires n <= |outcomes|
  {
    if n == 0 then 0 else NonBlank(outcomes, n - 1) + (if outcomes[n - 1].Blank? then 0 else 1)
  }

  /** `device_memc` as `main_func` builds it: every value is a string. */
  predicate StringValued(deviceMemc: map<String, Iface>)
  {
    forall t :: t in deviceMemc ==> deviceMemc[t].IStr?
  }

  /** `memc_addr == 0` compares an interface holding a string (or nil) with an int: it is never true. */
  lemma UnknownTypeTestNeverFires(deviceMemc: map<String, Iface>, devType: String)
    requires StringValued(deviceMemc)
    ensures Lookup(deviceMemc, devType) != IInt(0)
  {
  }

  /**
   * As written, malformed lines are never counted: when every device type
   * has a client and no insert fails, the error counter ends at 0 whatever
   * the file holds.
   */
  lemma {:induction false} TallyIgnoresMalformed(outcomes: seq<LineOutcome>, n: nat, env: Env)
    requires n <= |outcomes|
    requires StringValued(env.deviceMemc)
    requires forall k :: 0 <= k < n && outcomes[k].Record? ==> outcomes[k].rec.devType in env.servers
    requires FailedInserts(outcomes, n, env) == 0
    ensures Tally(outcomes, n, env).Finished? && Tally(outcomes, n, env).errors == 0
  {
    if n > 0 {
      TallyIgnoresMalformed(outcomes, n - 1, env);
      if outcomes[n - 1].Record? {
        UnknownTypeTestNeverFires(env.deviceMemc, outcomes[n - 1].rec.devType);
      }
    }
  }

  /** As written, a record of a type with no client is counted as processed in a dry run and panics otherwise. */
  lemma {:induction false} UnknownTypeSlipsThrough(outcomes: seq<LineOutcome>, n: nat, env: Env)
    requires 0 < n <= |outcomes|
    requires StringValued(env.deviceMemc)
    requires outcomes[n - 1].Record? && outcomes[n - 1].rec.devType !in env.servers
    requires Tally(outcomes, n - 1, env).Finished?
    ensures env.dryRun ==>
      Tally(outcomes, n, env) == Finished(Tally(outcomes, n - 1, env).processed + 1, Tally(outcomes, n - 1, env).errors)
    ensures !env.dryRun ==> Tally(outcomes, n, env) == Panicked
  {
    UnknownTypeTestNeverFires(env.deviceMemc, outcomes[n - 1].rec.devType);
  }

  /** A panic ends the file: later lines change nothing. */
  lemma {:induction false} PanicPersists(outcomes: seq<LineOutcome>, n: nat, m: nat, env: Env)
    requires n <= m <= |outcomes|
    requires Tally(outcomes, n, env) == Panicked
    ensures Tally(outcomes, m, env) == Panicked
    decreases m
  {
    if m > n {
      PanicPersists(outcomes, n, m - 1, env);
    }
  }

  /**
   * The counting the code evidently intends (and the Python loader does):
   * a malformed line and a record whose device type has no configured
   * address each add 1 to the errors.
   */
  function TallyFixed(outcomes: seq<LineOutcome>, n: nat, env: Env): FileResult
    requires n <= |outcomes|
  {
    if n == 0 then Finished(0, 0)
    else match TallyFixed(outcomes, n - 1, env)
      case Panicked => Panicked
      case Finished(p, e) =>
        match outcomes[n - 1]
        case Blank => Finished(p, e)
        case Malformed => Finished(p, e + 1)
        case Record(rec) =>
          if !Configured(env.deviceMemc, rec.devType) then Finished(p, e + 1)
          else match Insert(rec.devType in env.servers, env.dryRun, env.setOk(n - 1))
            case NilClientPanic => Panicked
            case Inserted(ok) => if ok then Finished(p + 1, e) else Finished(p, e + 1)
  }

  /** The device type has a non-empty address string, as Python's `if not memc_addr` tests. */
  predicate Configured(deviceMemc: map<String, Iface>, devType: String)
  {
    Lookup(deviceMemc, devType).IStr? && Lookup(deviceMemc, devType).s != []
  }

  /**
   * With the corrected counting and a client for every configured type (as
   * `main_func` builds them), nothing panics and every non-blank line is
   * counted exactly once, as processed or as an error.
   */
  lemma {:induction false} TallyFixedConservation(outcomes: seq<LineOutcome>, n: nat, env: Env)
    requires n <= |outcomes|
    requires env.deviceMemc.Keys <= env.servers
    ensures TallyFixed(outcomes, n, env).Finished?
    ensures TallyFixed(outcomes, n, env).processed + TallyFixed(outcomes, n, env).errors == NonBlank(outcomes, n)
  {
    if n > 0 {
      TallyFixedConservation(outcomes, n - 1, env);
    }
  }

  /** The discrepancy on a concrete file: one good record and one malformed line, in a dry run. */
  lemma MalformedLineCounterexample(rec: AppsInstalled, env: Env)
    requires env.dryRun && Configured(env.deviceMemc, rec.devType) && StringValued(env.deviceMemc)
    ensures Tally([Record(rec), Malformed], 2, env) == Finished(1, 0)
    ensures Gate(1, 0) == Acceptable
    ensures TallyFixed([Record(rec), Malformed], 2, env) == Finished(1, 1)
    ensures Gate(1, 1) == HighErrorRate
  {
    UnknownTypeTestNeverFires(env.deviceMemc, rec.devType);
    var outcomes := [Record(rec), Malformed];
    assert Tally(outcomes, 1, env) == Finished(1, 0);
    assert TallyFixed(outcomes, 1, env) == Finished(1, 0);
  }

  /** The discrepancy for an unknown device type: not counted as an error, and a panic outside a dry run. */
  lemma UnknownTypeCounterexample(rec: AppsInstalled, env: Env)
    requires !env.dryRun && StringValued(env.deviceMemc)
    requires rec.devType !in env.deviceMemc && env.deviceMemc.Keys <= env.servers && rec.devType !in env.servers
    ensures Tally([Record(rec)], 1, env) == Panicked
    ensures TallyFixed([Record(rec)], 1, env) == Finished(0, 1)
  {
  }

  datatype Verdict = Acceptable | HighErrorRate

  /**
   * `float64(ln_errors) / float64(processed) < NORMAL_ERR_RATE`. With
   * nothing processed the quotient is NaN (0/0) or +Inf, and the
   * comparison is false.
   */
  function Gate(processed: nat, errors: nat): Verdict
  {
    if processed == 0 then HighErrorRate
    else if 100 * errors < NormalErrRatePercent * processed then Acceptable
    else HighErrorRate
  }

  /** The gate accepts exactly when something was processed and the rate is below 1%. */
  lemma GateIsRate(processed: nat, errors: nat)
    ensures Gate(processed, errors) == Acceptable <==>
      processed > 0 && (errors as real) / (processed as real) < 0.01
  {
    if processed > 0 {
      var p := processed as real;
      var e := errors as real;
      assert e / p < 0.01 <==> e < 0.01 * p by {
        assert (e / p) * p == e;
      }
    }
  }

  /** The step of the counters for outcome i. */
  method CountLine(outcome: LineOutcome, ghost outcomes: seq<LineOutcome>, i: nat, env: Env,
                   processed: nat, errors: nat)
    returns (processed': nat, errors': nat, panicked: bool)
    requires i < |outcomes| && outcomes[i] == outcome
    requires Tally(outcomes, i, env) == Finished(processed, errors)
    ensures panicked ==> Tally(outcomes, i + 1, env) == Panicked
    ensures !panicked ==> Tally(outcomes, i + 1, env) == Finished(processed', errors')
  {
    processed', errors', panicked := processed, errors, false;
    match outcome
    case Blank =>
    case Malformed =>
      errors' := errors + errors;
    case Record(rec) =>
      var memcAddr := Lookup(env.deviceMemc, rec.devType);
      if memcAddr == IInt(0) {
        errors' := errors + errors;
      } else {
        var r := Insert(rec.devType in env.servers, env.dryRun, env.setOk(i));
        if r.NilClientPanic? {
          panicked := true;
        } else if r.ok {
          processed' := processed + 1;
        } else {
          errors' := errors + 1;
        }
      }
  }

  /** The branch the loop takes for line i. */
  method ClassifyAt(lines: seq<String>, i: nat, parseFloat: String -> Option<real>) returns (outcome: LineOutcome)
    requires i < |lines|
    ensures outcome == Outcomes(lines, parseFloat)[i]
  {
    OutcomeAt(lines, i, parseFloat);
    var line := Strip(lines[i], IsGoSpace);
    if line == [] {
      return Blank;
    }
    var parsed := ParseAppsInstalled(line, parseFloat);
    if parsed.Err? {
      return Malformed;
    }
    return Record(parsed.rec);
  }

  /**
   * `process_one_file` over the scanned lines: the final counters (or the
   * panic) are those of `Tally`, and a finished file gets the gate's
   * verdict.
   */
  method ProcessOneFile(lines: seq<String>, parseFloat: String -> Option<real>, env: Env)
    returns (result: FileResult, verdict: Option<Verdict>)
    ensures result == Tally(Outcomes(lines, parseFloat), |lines|, env)
    ensures result.Finished? ==> verdict == Some(Gate(result.processed, result.errors))
    ensures result.Panicked? ==> verdict == None
  {
    ghost var outcomes := Outcomes(lines, parseFloat);
    var processed, errors := 0, 0;
    var i := 0;
    while i < |lines|
      invariant i <= |lines|
      invariant Tally(outcomes, i, env) == Finished(processed, errors)
    {
      var outcome := ClassifyAt(lines, i, parseFloat);
      var panicked;
      processed, errors, panicked := CountLine(outcome, outcomes, i, env, processed, errors);
      if panicked {
        PanicPersists(outcomes, i + 1, |lines|, env);
        return Panicked, None;
      }
      i := i + 1;
    }
    result := Finished(processed, errors);
    verdict := Some(Gate(processed, errors));
  }

  // ---------------------------------------------------------------------
  // dot_rename

  /** `filepath.Join(head, "." + old_fn)` for `head, old_fn := filepath.Split(path)`. */
  function DotRenameTarget(path: String): String
  {
    var (head, name) := Paths.GoSplit(path);
    Paths.GoJoin(head, "." + name)
  }

  /** A path whose components are plain, except for an empty first one that marks a root. */
  predicate CleanComponents(comps: seq<String>)
  {
    forall k :: 0 <= k < |comps| ==> Paths.Plain(comps[k]) || (k == 0 && comps[k] == [])
  }

  /**
   * For a clean path `dir/name`, the target is the same directory with
   * `"." + name` as its last component.
   */
  lemma DotRenameTargetOfClean(dir: seq<String>, name: String)
    requires CleanComponents(dir) && Paths.Plain(name) && '/' !in name
    requires forall k :: 0 <= k < |dir| ==> '/' !in dir[k]
    ensures DotRenameTarget(Join(dir + [name], '/')) == Join(dir + ["." + name], '/')
  {
    if dir == [] {
      assert dir + [name] == [name];
      assert dir + ["." + name] == ["." + name];
      DotRenameBareName(name);
    } else {
      SplitAtName(dir, name);
      CleanDoubledSlash(dir, name);
    }
  }

  /** A name without a directory gets the dot in front. */
  lemma DotRenameBareName(name: String)
    requires Paths.Plain(name) && '/' !in name
    ensures DotRenameTarget(name) == "." + name
  {
    assert Paths.BaseStart(name) == 0 by { BaseStartOfName([], name); }
    assert Paths.GoSplit(name) == ([], name);
    DottedPlain(name);
    Paths.GoCleanOfComponents(["." + name]);
    Paths.NonEmptyAll(["." + name]);
  }

  /** A dot in front of a plain name gives a plain name. */
  lemma DottedPlain(name: String)
    requires Paths.Plain(name) && '/' !in name
    ensures Paths.Plain("." + name) && '/' !in "." + name
  {
    var dotted := "." + name;
    assert |dotted| >= 2;
    assert dotted[1..] == name;
    assert ".."[1..] == ".";
  }

  /** `filepath.Split` of `dir/name` gives `dir/` and `name`. */
  lemma SplitAtName(dir: seq<String>, name: String)
    requires dir != [] && '/' !in name
    ensures Paths.GoSplit(Join(dir + [name], '/')) == (Join(dir, '/') + "/", name)
  {
    var head := Join(dir, '/') + "/";
    JoinAppend(dir, '/', name);
    assert Join(dir + [name], '/') == head + name;
    BaseStartOfName(head, name);
    assert (head + name)[..|head|] == head;
  }

  /** Joining `dir/` with `"." + name` leaves a doubled '/', which cleaning removes. */
  lemma CleanDoubledSlash(dir: seq<String>, name: String)
    requires dir != [] && CleanComponents(dir) && Paths.Plain(name) && '/' !in name
    requires forall k :: 0 <= k < |dir| ==> '/' !in dir[k]
    ensures Paths.GoClean(Join(dir, '/') + "/" + "/" + ("." + name)) == Join(dir + ["." + name], '/')
  {
    var dotted := "." + name;
    DottedPlain(name);
    DoubledSlashJoin(dir, dotted);
    DoubledSlashComponents(dir, dotted);
    Paths.GoCleanOfComponents(dir + ["", dotted]);
    DoubledSlashNonEmpty(dir, dotted);
  }

  lemma DoubledSlashJoin(dir: seq<String>, dotted: String)
    requires dir != []
    ensures Join(dir, '/') + "/" + "/" + dotted == Join(dir + ["", dotted], '/')
  {
    JoinAppend(dir, '/', "");
    JoinAppend(dir + [""], '/', dotted);
    assert dir + ["", dotted] == dir + [""] + [dotted];
  }

  lemma DoubledSlashComponents(dir: seq<String>, dotted: String)
    requires CleanComponents(dir) && Paths.Plain(dotted) && '/' !in dotted
    requires forall k :: 0 <= k < |dir| ==> '/' !in dir[k]
    ensures var comps := dir + ["", dotted];
      forall k :: 0 <= k < |comps| ==> '/' !in comps[k] && (comps[k] == [] || Paths.Plain(comps[k]))
  {
    var comps := dir + ["", dotted];
    forall k | 0 <= k < |comps|
      ensures '/' !in comps[k] && (comps[k] == [] || Paths.Plain(comps[k]))
    {
      if k < |dir| {
        assert comps[k] == dir[k];
      }
    }
  }

  lemma DoubledSlashNonEmpty(dir: seq<String>, dotted: String)
    requires dir != [] && CleanComponents(dir) && dotted != []
    ensures (if dir[0] == [] then "/" else "") + Join(Paths.NonEmpty(dir + ["", dotted]), '/')
      == Join(dir + [dotted], '/')
  {
    NonEmptyDoubled(dir, dotted);
    if dir[0] == [] {
      RootedJoin(dir, dotted);
    } else {
      Paths.NonEmptyAll(dir);
    }
  }

  lemma NonEmptyDoubled(dir: seq<String>, dotted: String)
    requires dotted != []
    ensures Paths.NonEmpty(dir + ["", dotted]) == Paths.NonEmpty(dir) + [dotted]
  {
    Paths.NonEmptyConcat(dir, ["", dotted]);
    assert Paths.NonEmpty(["", dotted]) == Paths.NonEmpty([dotted]);
    Paths.NonEmptyAll([dotted]);
  }

  /** A rooted path: the empty first component becomes the leading '/'. */
  lemma RootedJoin(dir: seq<String>, x: String)
    requires dir != [] && dir[0] == [] && CleanComponents(dir)
    ensures "/" + Join(Paths.NonEmpty(dir) + [x], '/') == Join(dir + [x], '/')
  {
    assert Paths.NonEmpty(dir) == dir[1..] by {
      Paths.NonEmptyAll(dir[1..]);
    }
    var rest := dir[1..] + [x];
    assert dir + [x] == [dir[0]] + rest;
    assert (dir + [x])[1..] == rest;
  }

  /** The base name starts just after the last '/'. */
  lemma {:induction false} BaseStartOfName(head: String, name: String)
    requires head == [] || head[|head| - 1] == '/'
    requires '/' !in name
    ensures Paths.BaseStart(head + name) == |head|
    decreases |name|
  {
    if name == [] {
      assert head + name == head;
    } else {
      var shorter := name[..|name| - 1];
      assert (head + name)[..|head + name| - 1] == head + shorter;
      BaseStartOfName(head, shorter);
    }
  }

  /**
   * `process_file_and_rename`: the file is renamed whatever its error rate;
   * only a panic while counting stops the rename.
   */
  method ProcessFileAndRename(path: String, lines: seq<String>, parseFloat: String -> Option<real>, env: Env)
    returns (result: FileResult, renamedTo: Option<String>)
    ensures result == Tally(Outcomes(lines, parseFloat), |lines|, env)
    ensures result.Finished? ==> renamedTo == Some(DotRenameTarget(path))
    ensures result.Panicked? ==> renamedTo == None
  {
    var verdict;
    result, verdict := ProcessOneFile(lines, parseFloat, env);
    if result.Panicked? {
      return result, None;
    }
    renamedTo := Some(DotRenameTarget(path));
  }
}
