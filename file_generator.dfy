/**
 * The trigger-file codec (FileGeneratorService): a GSAP end-of-day or
 * monthly request becomes a file name, a file body and the object key it is
 * uploaded under. Nothing here has state; an unknown generation type is the
 * one error, thrown as "Unknown generation type: ...".
 */
module FileGenerator {
  import opened Wrappers
  import opened Strings

  /**
   * A GSAP end-of-day request (`GSAPEODRequest`). The generation type is
   * kept as the string the client sent, so that a value outside
   * single/range/bulk can reach the generator's error branch.
   */
  datatype EodRequest = EodRequest(
    serviceType: string,
    generationType: string,
    siteId: Option<string>,
    date: Option<string>,
    startDate: Option<string>,
    endDate: Option<string>,
    bulkSites: Option<seq<string>>,
    sftpUser: string,
    bucketName: string)

  /** A GSAP monthly request (`GSAPMonthlyRequest`). */
  datatype MonthlyRequest = MonthlyRequest(
    siteId: string,
    year: string,
    month: string,
    sftpUser: string,
    bucketName: string)

  /** What the generator hands back: the name, the body and the destination key. */
  datatype GeneratedFile = GeneratedFile(fileName: string, content: string, s3Path: string)

  const TriggerPrefix := "Generate_"
  const TriggerSuffix := ".txt"
  const MonthlyKind := "FuelMonthEndDips"

  /** How a template literal prints an optional field: an absent one reads `undefined`. */
  function Render(field: Option<string>): string {
    match field
    case Some(v) => v
    case None => "undefined"
  }

  /** The end-of-day trigger name, by generation type; any other type is an error. */
  function EodFileName(r: EodRequest): (name: Result<string, string>)
    ensures name.Failure? <==> r.generationType !in {"single", "range", "bulk"}
    ensures name.Failure? ==> name.error == "Unknown generation type: " + r.generationType
    ensures name.Success? ==>
      StartsWith(name.value, TriggerPrefix + r.serviceType + "_") && EndsWith(name.value, TriggerSuffix)
  {
    var head := TriggerPrefix + r.serviceType + "_";
    if r.generationType == "single" then
      Success(head + Render(r.siteId) + "_" + Render(r.date) + TriggerSuffix)
    else if r.generationType == "range" then
      Success(head + Render(r.siteId) + "_" + Render(r.startDate) + "-" + Render(r.endDate) + TriggerSuffix)
    else if r.generationType == "bulk" then
      Success(head + "BULK_" + Render(r.date) + TriggerSuffix)
    else
      Failure("Unknown generation type: " + r.generationType)
  }

  /** The end-of-day body: the bulk sites one per line, as given; empty for every other request. */
  function EodContent(r: EodRequest): (content: string)
    ensures r.generationType != "bulk" || r.bulkSites.None? || r.bulkSites == Some([]) ==> content == ""
  {
    if r.generationType == "bulk" && r.bulkSites.Some? && |r.bulkSites.value| > 0 then
      Join(r.bulkSites.value, '\n')
    else
      ""
  }

  /** `generateGSAPEODFile`: the name is built first, so an unknown type fails before anything else. */
  function GenerateEodFile(r: EodRequest): (f: Result<GeneratedFile, string>)
    ensures f.Failure? <==> EodFileName(r).Failure?
    ensures f.Failure? ==> f.error == EodFileName(r).error
    ensures f.Success? ==>
      && f.value.fileName == EodFileName(r).value
      && f.value.content == EodContent(r)
      && f.value.s3Path == r.sftpUser + "/Import/EODSales/" + f.value.fileName
  {
    match EodFileName(r)
    case Failure(e) => Failure(e)
    case Success(name) => Success(GeneratedFile(name, EodContent(r), r.sftpUser + "/Import/EODSales/" + name))
  }

  /** `month.padStart(2, '0')` */
  function PaddedMonth(month: string): (m: string)
    ensures |month| >= 2 ==> m == month
    ensures |month| < 2 ==> |m| == 2 && m[2 - |month|..] == month && forall i :: 0 <= i < 2 - |month| ==> m[i] == '0'
  {
    PadStart(month, 2, '0')
  }

  /** The monthly trigger name: site, year and the zero-padded month. */
  function MonthlyFileName(r: MonthlyRequest): string {
    TriggerPrefix + MonthlyKind + "_" + r.siteId + "_" + r.year + PaddedMonth(r.month) + TriggerSuffix
  }

  /** `generateGSAPMonthlyFile`: the monthly trigger is empty and goes under the user's FuelMonthEndDips import folder. */
  function GenerateMonthlyFile(r: MonthlyRequest): (f: GeneratedFile)
    ensures f.content == ""
    ensures f.s3Path == r.sftpUser + "/Import/FuelMonthEndDips/" + f.fileName
    ensures f.fileName == MonthlyFileName(r)
  {
    var name := MonthlyFileName(r);
    GeneratedFile(name, "", r.sftpUser + "/Import/FuelMonthEndDips/" + name)
  }

  // -----------------------------------------------------------------------
  // Properties of the codec
  // -----------------------------------------------------------------------

  /** The bulk body read back line by line gives exactly the requested sites, in order. */
  lemma BulkContentLines(r: EodRequest)
    requires r.generationType == "bulk" && r.bulkSites.Some? && |r.bulkSites.value| > 0
    requires forall i :: 0 <= i < |r.bulkSites.value| ==> '\n' !in r.bulkSites.value[i]
    ensures Split(EodContent(r), '\n') == r.bulkSites.value
  {
    SplitJoin(r.bulkSites.value, '\n');
  }

  /** The three-site example: the body is the sites joined by newlines. */
  lemma BulkContentExample(r: EodRequest)
    requires r.generationType == "bulk" && r.bulkSites == Some(["a", "b", "c"])
    ensures EodContent(r) == "a\nb\nc"
  {
  }

  /** A one-digit month gains a leading zero: "4" pads to "04". */
  lemma PaddedMonthExample()
    ensures PaddedMonth("4") == "04"
    ensures PaddedMonth("11") == "11"
  {
  }

  /** The destination key ends in the file name: its last path segment is the trigger name. */
  lemma EodKeyEndsInFileName(r: EodRequest)
    requires GenerateEodFile(r).Success?
    requires '/' !in GenerateEodFile(r).value.fileName
    ensures AfterLast(GenerateEodFile(r).value.s3Path, '/') == GenerateEodFile(r).value.fileName
  {
    var f := GenerateEodFile(r).value;
    assert f.s3Path == r.sftpUser + "/Import/EODSales" + ['/'] + f.fileName;
    AfterLastOfConcat(r.sftpUser + "/Import/EODSales", f.fileName, '/');
  }
}
