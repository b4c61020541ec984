/**
 * The GSAP monthly page: the form for a FuelMonthEndDips trigger, its name
 * and destination previews, the "Current Month" and "Previous Month" quick
 * fills, the validity rule of the upload button, and the history entry
 * written after the upload. The clock enters as its readings: the year, the
 * zero-based month of `getMonth()`, and the millisecond value.
 */
module GsapMonthlyPage {
  import opened Wrappers
  import opened Strings
  import opened FileGenerator
  import opened S3Service
  import opened CloudServiceController
  import opened UploadHistory
  import opened HistoryPage
  import TriggerPipeline

  /** The form's state: every field a string, as the inputs hold them. */
  datatype MonthlyForm = MonthlyForm(
    siteId: string,
    year: string,
    month: string,
    sftpUser: string,
    bucketName: string)

  const EmptyMonthlyForm := MonthlyForm("", "", "", "", "")
  const MonthlyGenerationType := "monthly"

  /** `generateFileName`: empty until site, year and month are filled in, else the monthly trigger name. */
  function PreviewFileName(f: MonthlyForm): (name: string)
    ensures name == "" <==> f.siteId == "" || f.year == "" || f.month == ""
    ensures name != "" ==> StartsWith(name, TriggerPrefix + MonthlyKind + "_") && EndsWith(name, TriggerSuffix)
  {
    if f.siteId == "" || f.year == "" || f.month == "" then ""
    else
      var head := TriggerPrefix + MonthlyKind + "_";
      var body := f.siteId + "_" + f.year + PadStart(f.month, 2, '0');
      StartsWithConcat(head, body + TriggerSuffix);
      EndsWithConcat(head + body, TriggerSuffix);
      head + (body + TriggerSuffix)
  }

  /** `getS3Path`: the FuelMonthEndDips import folder, with placeholders for an empty bucket or user. */
  function MonthlyS3Path(f: MonthlyForm): (p: string)
    ensures f.bucketName != "" && f.sftpUser != "" ==>
      p == "s3://" + f.bucketName + "/" + f.sftpUser + "/Import/FuelMonthEndDips/"
    ensures f.bucketName != "" && f.sftpUser == "" ==> p == "s3://" + f.bucketName + "/" + "sftp-user" + "/Import/FuelMonthEndDips/"
    ensures f.bucketName == "" && f.sftpUser != "" ==> p == "s3://" + "bucket-name" + "/" + f.sftpUser + "/Import/FuelMonthEndDips/"
    ensures f.bucketName == "" && f.sftpUser == "" ==> p == "s3://" + "bucket-name" + "/" + "sftp-user" + "/Import/FuelMonthEndDips/"
  {
    "s3://" + OrElse(f.bucketName, "bucket-name") + "/" + OrElse(f.sftpUser, "sftp-user") + "/Import/FuelMonthEndDips/"
  }

  /** `isFormValid`: all five fields filled in. */
  predicate IsFormValid(f: MonthlyForm) {
    f.siteId != "" && f.year != "" && f.month != "" && f.sftpUser != "" && f.bucketName != ""
  }

  /** The request body: the five fields as they stand. */
  function BuildRequest(f: MonthlyForm): (r: MonthlyRequest)
    ensures r.siteId == f.siteId && r.year == f.year && r.month == f.month
    ensures r.sftpUser == f.sftpUser && r.bucketName == f.bucketName
  {
    MonthlyRequest(f.siteId, f.year, f.month, f.sftpUser, f.bucketName)
  }

  /**
   * The "Previous Month" button: one month back from the given one-based
   * month, so that January goes to December of the year before.
   */
  function PreviousMonth(year: int, month: int): (r: (int, int))
    requires 1 <= month <= 12
    ensures 1 <= r.1 <= 12
    ensures r.0 * 12 + r.1 == year * 12 + month - 1
  {
    var lastMonth := month - 1;
    (if lastMonth == 0 then year - 1 else year, if lastMonth == 0 then 12 else lastMonth)
  }

  /** The history entry of a successful upload: filed under GSAP-Monthly, with the site always recorded. */
  function SuccessItem(f: MonthlyForm, r: UploadResponse, now: int): (item: HistoryItem)
    ensures item.serviceType == MonthlyService && item.success && item.error.None?
    ensures item.fileName == r.fileName && item.s3Path == r.s3Path && item.uploadedAt == r.uploadedAt
    ensures item.generationType == Some(MonthlyGenerationType) && item.siteId == Some(f.siteId)
    ensures item.bucketName == f.bucketName && item.sftpUser == f.sftpUser
  {
    HistoryItem(IntToString(now), r.fileName, MonthlyService, r.s3Path, r.uploadedAt, true, None,
                f.bucketName, f.sftpUser, Some(MonthlyGenerationType), Some(f.siteId))
  }

  /** The history entry of a failed attempt: the previewed name and path, the error, the current time. */
  function FailureItem(f: MonthlyForm, message: string, now: int): (item: HistoryItem)
    ensures item.serviceType == MonthlyService && !item.success && item.error == Some(message)
    ensures item.fileName == PreviewFileName(f) && item.s3Path == MonthlyS3Path(f) + PreviewFileName(f)
    ensures item.uploadedAt == now
    ensures item.generationType == Some(MonthlyGenerationType) && item.siteId == Some(f.siteId)
  {
    HistoryItem(IntToString(now), PreviewFileName(f), MonthlyService, MonthlyS3Path(f) + PreviewFileName(f),
                now, false, Some(message), f.bucketName, f.sftpUser, Some(MonthlyGenerationType), Some(f.siteId))
  }

  // -----------------------------------------------------------------------
  // How the page agrees with the backend and the history page
  // -----------------------------------------------------------------------

  /** The button is enabled exactly when the backend's field check passes for the request sent. */
  lemma FormValidIffFieldsAccepted(f: MonthlyForm)
    ensures IsFormValid(f) <==> MonthlyFieldsPresent(BuildRequest(f))
  {
  }

  /** Once site, year and month are filled in, the preview is the name the backend generates. */
  lemma PreviewIsGeneratedName(f: MonthlyForm)
    requires f.siteId != "" && f.year != "" && f.month != ""
    ensures PreviewFileName(f) == GenerateMonthlyFile(BuildRequest(f)).fileName
  {
  }

  /** For a valid form, the path written on failure is the one the backend reports for that upload. */
  lemma FailurePathIsBackendPath(f: MonthlyForm, outcome: StoreOutcome, now: int)
    requires IsFormValid(f)
    ensures MonthlyS3Path(f) + PreviewFileName(f)
         == UploadTriggerFile(f.bucketName, PreviewFileName(f), f.sftpUser + "/Import/FuelMonthEndDips", outcome, now).s3Path
  {
    FailurePathOf(f.bucketName, f.sftpUser, PreviewFileName(f), outcome, now);
  }

  lemma FailurePathOf(bucket: string, user: string, name: string, outcome: StoreOutcome, now: int)
    ensures "s3://" + bucket + "/" + user + "/Import/FuelMonthEndDips/" + name
         == UploadTriggerFile(bucket, name, user + "/Import/FuelMonthEndDips", outcome, now).s3Path
  {
    MonthlyImportKey(user, name);
    var head := "s3://" + bucket + "/";
    assert head + user + "/Import/FuelMonthEndDips/" + name == head + (user + "/Import/FuelMonthEndDips/" + name);
  }

  /** A month the quick fills write (`(m).toString()`, 1 to 12) pads to its two decimal digits. */
  lemma QuickFillMonthPadsToTwoDigits(m: int)
    requires 1 <= m <= 12
    ensures PaddedMonth(IntToString(m)) == [DigitChar(m / 10), DigitChar(m % 10)]
  {
    if m < 10 {
      assert m / 10 == 0 && m % 10 == m;
      assert IntToString(m) == [DigitChar(m)];
      var p := PaddedMonth([DigitChar(m)]);
      assert p[1..] == [DigitChar(m)] && p[0] == '0' == DigitChar(0);
      assert p == [p[0]] + p[1..];
    } else {
      assert m / 10 == 1 && m % 10 == m - 10;
      assert NatToString(1) == [DigitChar(1)];
      assert IntToString(m) == NatToString(1) + [DigitChar(m % 10)];
    }
  }

  /**
   * A form filled with a quick-fill month and a site and year without an
   * underscore sends a trigger the output monitor parses back to that site
   * and the year followed by the two-digit month.
   */
  lemma {:induction false} QuickFillFormRoundTrips(f: MonthlyForm, m: int)
    requires 1 <= m <= 12 && f.month == IntToString(m)
    requires '_' !in f.siteId && '_' !in f.year
    ensures ParseTrigger(GenerateMonthlyFile(BuildRequest(f)).fileName, MonthlyService)
         == Some(Monthly(f.siteId, f.year + [DigitChar(m / 10), DigitChar(m % 10)]))
  {
    QuickFillMonthPadsToTwoDigits(m);
    assert '_' !in f.month by {
      assert AllDigits(f.month);
    }
    TriggerPipeline.MonthlyTriggerRoundTrip(BuildRequest(f));
  }

  /** Unlike the end-of-day page's entry, a monthly entry is listed under its history filter. */
  lemma UploadIsListedAsMonthly(f: MonthlyForm, r: UploadResponse, message: string, now: int)
    ensures Kept(SuccessItem(f, r, now), "", MonthlyService, AllStatuses)
    ensures Kept(FailureItem(f, message, now), "", MonthlyService, AllStatuses)
  {
  }

  // -----------------------------------------------------------------------
  // The page
  // -----------------------------------------------------------------------

  class MonthlyPage {
    var form: MonthlyForm
    var uploadResult: Option<UploadResult>
    const storage: HistoryStorage

    constructor (storage: HistoryStorage)
      ensures this.storage == storage && form == EmptyMonthlyForm && uploadResult.None?
    {
      this.storage := storage;
      form := EmptyMonthlyForm;
      uploadResult := None;
    }

    /** "Current Month": the clock's year and one-based month as decimal text. */
    method UseCurrentMonth(clockYear: int, clockMonth0: int)
      requires 0 <= clockMonth0 < 12
      modifies this
      ensures form == old(form).(year := IntToString(clockYear), month := IntToString(clockMonth0 + 1))
      ensures uploadResult == old(uploadResult)
    {
      form := form.(year := IntToString(clockYear), month := IntToString(clockMonth0 + 1));
    }

    /** "Previous Month": the month before the clock's, as decimal text. */
    method UsePreviousMonth(clockYear: int, clockMonth0: int)
      requires 0 <= clockMonth0 < 12
      modifies this
      ensures form == old(form).(year := IntToString(PreviousMonth(clockYear, clockMonth0 + 1).0),
                                 month := IntToString(PreviousMonth(clockYear, clockMonth0 + 1).1))
      ensures uploadResult == old(uploadResult)
    {
      var lastMonth := clockMonth0 + 1 - 1;
      var year := if lastMonth == 0 then clockYear - 1 else clockYear;
      var month := if lastMonth == 0 then 12 else lastMonth;
      form := form.(year := IntToString(year), month := IntToString(month));
    }

    /** "Clear Form": site, year and month emptied; user and bucket kept. */
    method ClearForm()
      modifies this
      ensures form == old(form).(siteId := "", year := "", month := "")
      ensures uploadResult == old(uploadResult)
    {
      form := form.(siteId := "", year := "", month := "");
    }

    /**
     * `handleGenerateAndUpload`, given whether a profile is active and how
     * the backend call ended: returns the request sent, if any.
     */
    method GenerateAndUpload(hasProfile: bool, call: Call<UploadResponse>, now: int)
      returns (sent: Option<MonthlyRequest>)
      modifies this, storage
      ensures form == old(form)
      ensures sent == if hasProfile then Some(BuildRequest(form)) else None
      ensures !hasProfile ==>
        uploadResult == Some(UploadFailed(NoActiveProfile)) && storage.items == old(storage.items)
      ensures hasProfile && call.Returned? ==>
        && uploadResult == Some(Uploaded(call.value))
        && storage.items == if call.value.success then Prepend(SuccessItem(form, call.value, now), old(storage.items))
                            else old(storage.items)
      ensures hasProfile && call.Threw? ==>
        && uploadResult == Some(UploadFailed(call.message.GetOr(UploadFallback)))
        && storage.items == Prepend(FailureItem(form, call.message.GetOr(UploadFallback), now), old(storage.items))
    {
      if !hasProfile {
        uploadResult := Some(UploadFailed(NoActiveProfile));
        return None;
      }
      uploadResult := None;
      sent := Some(BuildRequest(form));
      match call
      case Returned(result) =>
        uploadResult := Some(Uploaded(result));
        if result.success {
          storage.Record(SuccessItem(form, result, now));
        }
      case Threw(message) =>
        var error := message.GetOr(UploadFallback);
        uploadResult := Some(UploadFailed(error));
        storage.Record(FailureItem(form, error, now));
    }
  }
}
