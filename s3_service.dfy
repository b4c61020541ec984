/**
 * The output matcher and the upload result of S3Service: a trigger file
 * name is parsed back into a descriptor, each listed output object is
 * tested against the pattern that descriptor calls for, and the latest
 * modification time of the matches is reported. The regular expressions of
 * the source are written out as predicates over strings: literal pieces,
 * digit runs of fixed or unbounded length, and one two-way alternation.
 */
module S3Service {
  import opened Wrappers
  import opened Strings
  import opened Sequences

  /** An entry of an object-store listing (`S3FileInfo`); `lastModified` is a timestamp. */
  datatype ObjectInfo = ObjectInfo(key: string, lastModified: int, size: int, etag: string)

  /** What `parseTriggerFileName` extracts from a trigger file name. */
  datatype Descriptor =
    | Bulk(kind: string, date: string)
    | Single(kind: string, siteId: string, date: string)
    | Range(kind: string, siteId: string, startDate: string, endDate: string)
    | Monthly(siteId: string, yearMonth: string)

  /** `OutputFileMatch`: the trigger, its matching outputs and the latest modification time among them. */
  datatype MatchResult = MatchResult(
    triggerFileName: string,
    outputFiles: seq<ObjectInfo>,
    serviceType: string,
    generatedAt: Option<int>)

  const EodService := "GSAP-EOD"
  const MonthlyService := "GSAP-Monthly"

  // -----------------------------------------------------------------------
  // Parsing a trigger name
  // -----------------------------------------------------------------------

  /** `replace(/^Generate_/, '')` followed by `replace(/\.txt$/, '')`. */
  function TriggerBaseName(name: string): (base: string)
    ensures |base| <= |name|
    ensures var prefix := if StartsWith(name, "Generate_") then "Generate_" else "";
            var suffix := if EndsWith(name[|prefix|..], ".txt") then ".txt" else "";
            name == prefix + base + suffix
    ensures !StartsWith(name, "Generate_") && !EndsWith(name, ".txt") ==> base == name
  {
    var a := if StartsWith(name, "Generate_") then name[9..] else name;
    if EndsWith(a, ".txt") then a[..|a| - 4] else a
  }

  /** Stripping undoes the trigger name's fixed prefix and suffix. */
  lemma TriggerBaseNameOfTrigger(base: string)
    ensures TriggerBaseName("Generate_" + base + ".txt") == base
  {
    var name := "Generate_" + base + ".txt";
    assert name[..9] == "Generate_";
    var a := name[9..];
    assert a == base + ".txt";
    assert a[|a| - 4..] == ".txt";
    assert a[..|a| - 4] == base;
  }

  /**
   * `parseTriggerFileName`. The base name is split on `_`; fewer than three
   * parts, or a service type other than GSAP-EOD and GSAP-Monthly, gives no
   * descriptor. For GSAP-EOD a second part `BULK` makes a bulk descriptor;
   * otherwise a third part holding `-` is a range between its first two
   * `-` pieces, and any other third part a single date. Parts after the
   * third are ignored.
   */
  function ParseTrigger(name: string, serviceType: string): (d: Option<Descriptor>)
    ensures d.Some? ==> serviceType == EodService || serviceType == MonthlyService
    ensures d.Some? <==>
      (serviceType == EodService || serviceType == MonthlyService) && |Split(TriggerBaseName(name), '_')| >= 3
    ensures d.Some? && serviceType == MonthlyService ==>
      d.value == Monthly(Split(TriggerBaseName(name), '_')[1], Split(TriggerBaseName(name), '_')[2])
    ensures d.Some? && serviceType == EodService ==> !d.value.Monthly?
  {
    var parts := Split(TriggerBaseName(name), '_');
    if serviceType == EodService then
      if |parts| < 3 then None
      else if parts[1] == "BULK" then Some(Bulk(parts[0], parts[2]))
      else if '-' in parts[2] then
        SplitAtSeparator(parts[2], '-');
        var dates := Split(parts[2], '-');
        Some(Range(parts[0], parts[1], dates[0], dates[1]))
      else Some(Single(parts[0], parts[1], parts[2]))
    else if serviceType == MonthlyService then
      if |parts| < 3 then None else Some(Monthly(parts[1], parts[2]))
    else None
  }

  /** The trigger file whose base name is `parts` joined with `_`. */
  function TriggerNameOf(parts: seq<string>): string {
    "Generate_" + Join(parts, '_') + ".txt"
  }

  /** The base name of such a trigger splits back into the same parts. */
  lemma TriggerNameParts(parts: seq<string>)
    requires |parts| >= 1
    requires forall i :: 0 <= i < |parts| ==> '_' !in parts[i]
    ensures Split(TriggerBaseName(TriggerNameOf(parts)), '_') == parts
  {
    TriggerBaseNameOfTrigger(Join(parts, '_'));
    SplitJoin(parts, '_');
  }

  /** An end-of-day trigger whose second part is `BULK` is a bulk request for its type and third part. */
  lemma ParseEodBulk(parts: seq<string>)
    requires |parts| >= 3 && parts[1] == "BULK"
    requires forall i :: 0 <= i < |parts| ==> '_' !in parts[i]
    ensures ParseTrigger(TriggerNameOf(parts), EodService) == Some(Bulk(parts[0], parts[2]))
  {
    TriggerNameParts(parts);
  }

  /**
   * An end-of-day trigger for a site whose third part is dates joined by
   * `-` is a range between the first two of those dates; further dates and
   * further parts are ignored.
   */
  lemma ParseEodRange(parts: seq<string>, dates: seq<string>)
    requires |parts| >= 3 && parts[1] != "BULK"
    requires forall i :: 0 <= i < |parts| ==> '_' !in parts[i]
    requires |dates| >= 2 && parts[2] == Join(dates, '-')
    requires forall i :: 0 <= i < |dates| ==> '-' !in dates[i]
    ensures ParseTrigger(TriggerNameOf(parts), EodService) == Some(Range(parts[0], parts[1], dates[0], dates[1]))
  {
    TriggerNameParts(parts);
    SplitJoin(dates, '-');
    assert parts[2][|dates[0]|] == '-';
  }

  /** An end-of-day trigger for a site whose third part has no `-` is a single-date request. */
  lemma ParseEodSingle(parts: seq<string>)
    requires |parts| >= 3 && parts[1] != "BULK" && '-' !in parts[2]
    requires forall i :: 0 <= i < |parts| ==> '_' !in parts[i]
    ensures ParseTrigger(TriggerNameOf(parts), EodService) == Some(Single(parts[0], parts[1], parts[2]))
  {
    TriggerNameParts(parts);
  }

  // -----------------------------------------------------------------------
  // The output-name patterns
  // -----------------------------------------------------------------------

  /** `\d{8}T\d{6}`: the generation timestamp inside an end-of-day output name. */
  predicate IsTimestamp(t: string) {
    |t| == 15 && AllDigits(t[..8]) && t[8] == 'T' && AllDigits(t[9..])
  }

  /** `\d+`: a non-empty run of digits. */
  predicate IsDigitRun(s: string) {
    |s| >= 1 && AllDigits(s)
  }

  /** The name the batch process gives an end-of-day output: `{type}_{site}_{timestamp}_{date}.txt`. */
  function EodOutputName(kind: string, site: string, stamp: string, date: string): string {
    kind + "_" + site + "_" + stamp + "_" + date + ".txt"
  }

  /** The name the batch process gives a monthly output: `FuelMonthEndDips_{id}_{yyyymm}{dd}.xml`. */
  function MonthlyOutputName(id: string, yearMonth: string, day: string): string {
    "FuelMonthEndDips_" + id + "_" + yearMonth + day + ".xml"
  }

  /** `_\d{8}T\d{6}_{date}\.txt$`: what follows the site in an end-of-day output name. */
  predicate IsEodTail(t: string, date: string) {
    && |t| == 17 + |date| + 4
    && t[0] == '_' && IsTimestamp(t[1..16]) && t[16] == '_'
    && t[17..] == date + ".txt"
  }

  /** `^{kind}_{siteId}_\d{8}T\d{6}_{date}\.txt$` */
  predicate MatchesSite(n: string, kind: string, siteId: string, date: string) {
    var p := kind + "_" + siteId;
    StartsWith(n, p) && IsEodTail(n[|p|..], date)
  }

  /** `^{kind}_\d+_\d{8}T\d{6}_{date}\.txt$`: the digit run ends where the next `_` begins. */
  predicate MatchesBulk(n: string, kind: string, date: string) {
    var p := kind + "_";
    StartsWith(n, p) &&
    var rest := n[|p|..];
    var k := LeadingDigits(rest);
    k >= 1 && IsEodTail(rest[k..], date)
  }

  /** `^{kind}_{siteId}_\d{8}T\d{6}_({startDate}|{endDate})\.txt$` */
  predicate MatchesRange(n: string, kind: string, siteId: string, startDate: string, endDate: string) {
    MatchesSite(n, kind, siteId, startDate) || MatchesSite(n, kind, siteId, endDate)
  }

  /** `yearMonth.substring(0, 4) + yearMonth.substring(4, 6)` */
  function YearMonthPrefix(yearMonth: string): (ym: string)
    ensures ym == yearMonth[..if |yearMonth| < 6 then |yearMonth| else 6]
  {
    SubstringAdjacent(yearMonth, 0, 4, 6);
    Substring(yearMonth, 0, 4) + Substring(yearMonth, 4, 6)
  }

  /** `_{ym}\d{2}\.xml$`: what follows the id in a monthly output name. */
  predicate IsMonthlyTail(t: string, ym: string) {
    && |t| == 1 + |ym| + 2 + 4
    && t[0] == '_' && t[1..1 + |ym|] == ym
    && AllDigits(t[1 + |ym|..3 + |ym|]) && t[3 + |ym|..] == ".xml"
  }

  /** `^FuelMonthEndDips_\d+_{year}{month}\d{2}\.xml$` */
  predicate MatchesMonthly(n: string, yearMonth: string) {
    var p := "FuelMonthEndDips_";
    StartsWith(n, p) &&
    var rest := n[|p|..];
    var k := LeadingDigits(rest);
    k >= 1 && IsMonthlyTail(rest[k..], YearMonthPrefix(yearMonth))
  }

  /**
   * `isMatchingOutputFile`. A descriptor of the other service kind cannot
   * come out of `ParseTrigger` for the same service type; it is refused here
   * (for GSAP-Monthly with an end-of-day descriptor the source would read an
   * undefined `yearMonth`).
   */
  predicate IsMatchingOutputFile(fileName: string, info: Option<Descriptor>, serviceType: string) {
    match info
    case None => false
    case Some(d) =>
      if serviceType == EodService then
        match d
        case Bulk(kind, date) => MatchesBulk(fileName, kind, date)
        case Single(kind, site, date) => MatchesSite(fileName, kind, site, date)
        case Range(kind, site, a, b) => MatchesRange(fileName, kind, site, a, b)
        case Monthly(_, _) => false
      else if serviceType == MonthlyService then
        d.Monthly? && MatchesMonthly(fileName, d.yearMonth)
      else false
  }

  // -----------------------------------------------------------------------
  // The patterns accept exactly the names the batch process writes
  // -----------------------------------------------------------------------

  /** Splits an end-of-day output name after its site. */
  lemma EodOutputNameShape(kind: string, site: string, stamp: string, date: string)
    requires |stamp| == 15
    ensures var n := EodOutputName(kind, site, stamp, date);
      var p := kind + "_" + site;
      && StartsWith(n, p)
      && n[|p|..] == "_" + stamp + "_" + date + ".txt"
  {
    var p := kind + "_" + site;
    var t := "_" + stamp + "_" + date + ".txt";
    assert EodOutputName(kind, site, stamp, date) == p + t;
    StartsWithConcat(p, t);
    assert (p + t)[|p|..] == t;
  }

  lemma EodTailOf(stamp: string, date: string, d: string)
    requires |stamp| == 15
    ensures IsEodTail("_" + stamp + "_" + date + ".txt", d) <==> IsTimestamp(stamp) && date == d
  {
    var t := "_" + stamp + "_" + date + ".txt";
    assert t[1..16] == stamp;
    assert t[16] == '_';
    assert t[17..] == date + ".txt";
    if |t| == 17 + |d| + 4 && t[17..] == d + ".txt" {
      assert date == (date + ".txt")[..|date|] == (d + ".txt")[..|d|] == d;
    }
  }

  /** A single pattern accepts an output name exactly when its timestamp is well-formed and its business date is the trigger's. */
  lemma {:induction false} SingleMatchesExactly(kind: string, site: string, stamp: string, date: string, d: string)
    requires |stamp| == 15
    ensures MatchesSite(EodOutputName(kind, site, stamp, date), kind, site, d) <==> IsTimestamp(stamp) && date == d
  {
    EodOutputNameShape(kind, site, stamp, date);
    EodTailOf(stamp, date, d);
  }

  /** Everything a single pattern accepts is such an output name. */
  lemma {:induction false} SingleMatchIsOutputName(n: string, kind: string, site: string, date: string)
    requires MatchesSite(n, kind, site, date)
    ensures IsTimestamp(n[|kind| + |site| + 2..|kind| + |site| + 17])
    ensures n == EodOutputName(kind, site, n[|kind| + |site| + 2..|kind| + |site| + 17], date)
  {
    var p := kind + "_" + site;
    var t := n[|p|..];
    var stamp := t[1..16];
    assert n == p + t;
    assert t == "_" + stamp + "_" + date + ".txt";
    assert stamp == n[|kind| + |site| + 2..|kind| + |site| + 17];
  }

  /** The range pattern accepts an output only when its business date is the start or the end date: dates strictly between are not matched. */
  lemma {:induction false} RangeMatchesBoundariesOnly(kind: string, site: string, stamp: string, date: string, a: string, b: string)
    requires IsTimestamp(stamp)
    ensures MatchesRange(EodOutputName(kind, site, stamp, date), kind, site, a, b) <==> date == a || date == b
  {
    SingleMatchesExactly(kind, site, stamp, date, a);
    SingleMatchesExactly(kind, site, stamp, date, b);
  }

  /** The bulk pattern accepts an output name with any site made only of digits, with the trigger's type and date. */
  lemma {:induction false} BulkMatchesAnyDigitSite(kind: string, site: string, stamp: string, date: string, d: string)
    requires IsDigitRun(site) && |stamp| == 15
    ensures MatchesBulk(EodOutputName(kind, site, stamp, date), kind, d) <==> IsTimestamp(stamp) && date == d
  {
    var n := EodOutputName(kind, site, stamp, date);
    var p := kind + "_";
    var t := "_" + stamp + "_" + date + ".txt";
    assert n == p + (site + t);
    StartsWithConcat(p, site + t);
    assert n[|p|..] == site + t;
    LeadingDigitsOfConcat(site, t);
    assert (site + t)[|site|..] == t;
    EodTailOf(stamp, date, d);
  }

  /** Everything the bulk pattern accepts is an output name whose site is a digit run. */
  lemma {:induction false} BulkMatchIsOutputName(n: string, kind: string, date: string)
    requires MatchesBulk(n, kind, date)
    ensures exists site, stamp :: IsDigitRun(site) && IsTimestamp(stamp) && n == EodOutputName(kind, site, stamp, date)
  {
    var p := kind + "_";
    var rest := n[|p|..];
    var k := LeadingDigits(rest);
    var site := rest[..k];
    var t := rest[k..];
    var stamp := t[1..16];
    assert t == "_" + stamp + "_" + date + ".txt";
    assert n == p + site + t;
    assert IsDigitRun(site);
    assert n == EodOutputName(kind, site, stamp, date);
  }

  lemma MonthlyTailOf(ym: string, day: string, w: string)
    requires |day| == 2
    ensures IsMonthlyTail("_" + ym + day + ".xml", w) <==> AllDigits(day) && ym == w
  {
    var t := "_" + ym + day + ".xml";
    assert t[1..1 + |ym|] == ym;
    assert t[1 + |ym|..3 + |ym|] == day;
    assert t[3 + |ym|..] == ".xml";
  }

  /** A monthly output name splits after its id. */
  lemma MonthlyOutputNameShape(id: string, ym: string, day: string, want: string)
    requires IsDigitRun(id) && |day| == 2
    ensures MatchesMonthly(MonthlyOutputName(id, ym, day), want) <==> AllDigits(day) && ym == YearMonthPrefix(want)
  {
    var n := MonthlyOutputName(id, ym, day);
    var p := "FuelMonthEndDips_";
    var t := "_" + ym + day + ".xml";
    assert n == p + (id + t);
    StartsWithConcat(p, id + t);
    assert n[|p|..] == id + t;
    LeadingDigitsOfConcat(id, t);
    assert (id + t)[|id|..] == t;
    MonthlyTailOf(ym, day, YearMonthPrefix(want));
  }

  /** The monthly pattern accepts an output of any numeric id and any two-digit day within the trigger's year and month, and no other month. */
  lemma {:induction false} MonthlyMatchesItsMonthOnly(id: string, ym: string, day: string, want: string)
    requires IsDigitRun(id) && |day| == 2 && AllDigits(day)
    requires |want| == 6
    ensures MatchesMonthly(MonthlyOutputName(id, ym, day), want) <==> ym == want
  {
    MonthlyOutputNameShape(id, ym, day, want);
    assert YearMonthPrefix(want) == want[..6] == want;
  }

  // -----------------------------------------------------------------------
  // Filtering the listing and taking the latest time
  // -----------------------------------------------------------------------

  /** `key.split('/').pop() || ''`: the object's base name. */
  function BaseName(key: string): string {
    AfterLast(key, '/')
  }

  /** The listed objects whose base name matches, in listing order. */
  function FilterMatching(files: seq<ObjectInfo>, info: Option<Descriptor>, serviceType: string): (r: seq<ObjectInfo>)
    ensures IsSubsequence(r, files)
    ensures forall f :: f in r <==> f in files && IsMatchingOutputFile(BaseName(f.key), info, serviceType)
    ensures forall f :: multiset(r)[f] == (if IsMatchingOutputFile(BaseName(f.key), info, serviceType)
      then multiset(files)[f] else 0)
    decreases |files|
  {
    if files == [] then []
    else
      var rest := FilterMatching(files[1..], info, serviceType);
      assert files == [files[0]] + files[1..];
      assert multiset(files) == multiset([files[0]]) + multiset(files[1..]);
      if IsMatchingOutputFile(BaseName(files[0].key), info, serviceType) then
        SubsequenceKeep(rest, files[0], files[1..]);
        assert multiset([files[0]] + rest) == multiset([files[0]]) + multiset(rest);
        [files[0]] + rest
      else
        SubsequenceSkip(rest, files[0], files[1..]);
        rest
  }

  /** `findMatchingOutputFiles`: nothing matches an unparseable trigger. */
  function FindMatchingOutputFiles(files: seq<ObjectInfo>, triggerFileName: string, serviceType: string): (r: seq<ObjectInfo>)
    ensures IsSubsequence(r, files)
    ensures ParseTrigger(triggerFileName, serviceType).None? ==> r == []
    ensures forall f :: f in r <==>
      f in files && IsMatchingOutputFile(BaseName(f.key), ParseTrigger(triggerFileName, serviceType), serviceType)
    ensures forall f :: multiset(r)[f] == (if ParseTrigger(triggerFileName, serviceType).Some?
        && IsMatchingOutputFile(BaseName(f.key), ParseTrigger(triggerFileName, serviceType), serviceType)
      then multiset(files)[f] else 0)
  {
    var info := ParseTrigger(triggerFileName, serviceType);
    if info.None? then [] else FilterMatching(files, info, serviceType)
  }

  /** The `reduce` of `monitorOutputFiles`: keep the later of the running value and each file's time. */
  function LatestFrom(latest: int, files: seq<ObjectInfo>): (m: int)
    ensures m >= latest
    ensures forall i :: 0 <= i < |files| ==> files[i].lastModified <= m
    ensures m == latest || exists i :: 0 <= i < |files| && files[i].lastModified == m
    decreases |files|
  {
    if files == [] then latest
    else
      var next := if files[0].lastModified > latest then files[0].lastModified else latest;
      var m := LatestFrom(next, files[1..]);
      assert forall i :: 1 <= i < |files| ==> files[i] == files[1..][i - 1];
      m
  }

  /** `generatedAt`: the latest modification time of the matches, absent exactly when there are none. */
  function GeneratedAt(matches: seq<ObjectInfo>): (g: Option<int>)
    ensures g.None? <==> matches == []
    ensures g.Some? ==> forall i :: 0 <= i < |matches| ==> matches[i].lastModified <= g.value
    ensures g.Some? ==> exists i :: 0 <= i < |matches| && matches[i].lastModified == g.value
  {
    if matches == [] then None else Some(LatestFrom(matches[0].lastModified, matches))
  }

  /**
   * `monitorOutputFiles`, given the listing of the export path: the matches
   * and their latest time, with the trigger and service type echoed.
   */
  function MonitorOutputFiles(listed: seq<ObjectInfo>, triggerFileName: string, serviceType: string): (r: MatchResult)
    ensures r.triggerFileName == triggerFileName && r.serviceType == serviceType
    ensures IsSubsequence(r.outputFiles, listed)
    ensures forall f :: f in r.outputFiles <==>
      f in listed && IsMatchingOutputFile(BaseName(f.key), ParseTrigger(triggerFileName, serviceType), serviceType)
    ensures forall f :: multiset(r.outputFiles)[f] == (if ParseTrigger(triggerFileName, serviceType).Some?
        && IsMatchingOutputFile(BaseName(f.key), ParseTrigger(triggerFileName, serviceType), serviceType)
      then multiset(listed)[f] else 0)
    ensures r.generatedAt.None? <==> r.outputFiles == []
    ensures r.generatedAt.Some? ==> forall i :: 0 <= i < |r.outputFiles| ==> r.outputFiles[i].lastModified <= r.generatedAt.value
    ensures r.generatedAt.Some? ==> exists i :: 0 <= i < |r.outputFiles| && r.outputFiles[i].lastModified == r.generatedAt.value
  {
    var matches := FindMatchingOutputFiles(listed, triggerFileName, serviceType);
    MatchResult(triggerFileName, matches, serviceType, GeneratedAt(matches))
  }

  /** An unparseable trigger gives an empty match and no time, without an error. */
  lemma UnparseableTriggerMatchesNothing(listed: seq<ObjectInfo>, triggerFileName: string, serviceType: string)
    requires ParseTrigger(triggerFileName, serviceType).None?
    ensures MonitorOutputFiles(listed, triggerFileName, serviceType).outputFiles == []
    ensures MonitorOutputFiles(listed, triggerFileName, serviceType).generatedAt.None?
  {
  }

  /** A trigger base name with fewer than three `_` parts, or an unknown service type, gives no descriptor. */
  lemma ShortOrUnknownTriggerIsUnparseable(name: string, serviceType: string)
    requires |Split(TriggerBaseName(name), '_')| < 3 || (serviceType != EodService && serviceType != MonthlyService)
    ensures ParseTrigger(name, serviceType).None?
  {
  }

  // -----------------------------------------------------------------------
  // The upload result
  // -----------------------------------------------------------------------

  /** What the object store did with the upload: stored it, or threw an error with an optional message. */
  datatype StoreOutcome = Stored | StoreFailed(message: Option<string>)

  /** `FileUploadResponse` */
  datatype UploadResponse = UploadResponse(
    success: bool,
    fileName: string,
    s3Path: string,
    uploadedAt: int,
    error: Option<string>)

  /** The object key an upload writes: `{importPath}/{fileName}`. */
  function UploadKey(importPath: string, fileName: string): string {
    importPath + "/" + fileName
  }

  /** `error.message || fallback`: a thrown message, unless it is absent or empty. */
  function MessageOr(message: Option<string>, fallback: string): (e: string)
    ensures message.Some? && message.value != "" ==> e == message.value
    ensures message.None? || message.value == "" ==> e == fallback
  {
    if message.Some? && message.value != "" then message.value else fallback
  }

  /** `error.message || 'Upload failed'`: never empty. */
  function UploadErrorText(message: Option<string>): (e: string)
    ensures e != ""
    ensures message.Some? && message.value != "" ==> e == message.value
    ensures message.None? || message.value == "" ==> e == "Upload failed"
  {
    MessageOr(message, "Upload failed")
  }

  /**
   * `uploadTriggerFile`, given what the store did and the clock. The path is
   * built from the inputs, so it is the same on success and on failure.
   */
  function UploadTriggerFile(bucketName: string, fileName: string, importPath: string, outcome: StoreOutcome, now: int): (r: UploadResponse)
    ensures r.success <==> outcome.Stored?
    ensures r.fileName == fileName && r.uploadedAt == now
    ensures r.s3Path == "s3://" + bucketName + "/" + UploadKey(importPath, fileName)
    ensures r.success ==> r.error.None?
    ensures !r.success ==> r.error.Some? && r.error.value != ""
    ensures outcome.StoreFailed? ==> r.error == Some(UploadErrorText(outcome.message))
  {
    match outcome
    case Stored => UploadResponse(true, fileName, "s3://" + bucketName + "/" + UploadKey(importPath, fileName), now, None)
    case StoreFailed(message) =>
      UploadResponse(false, fileName, "s3://" + bucketName + "/" + importPath + "/" + fileName, now, Some(UploadErrorText(message)))
  }

  /** Success or failure, the reported path names the same object, and its last segment is the trigger name. */
  lemma UploadPathIndependentOfOutcome(bucketName: string, fileName: string, importPath: string, o1: StoreOutcome, o2: StoreOutcome, now: int)
    requires '/' !in fileName
    ensures UploadTriggerFile(bucketName, fileName, importPath, o1, now).s3Path
         == UploadTriggerFile(bucketName, fileName, importPath, o2, now).s3Path
    ensures BaseName(UploadTriggerFile(bucketName, fileName, importPath, o1, now).s3Path) == fileName
  {
    var r := UploadTriggerFile(bucketName, fileName, importPath, o1, now);
    assert r.s3Path == "s3://" + bucketName + "/" + importPath + ['/'] + fileName;
    AfterLastOfConcat("s3://" + bucketName + "/" + importPath, fileName, '/');
  }
}
