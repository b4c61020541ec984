/**
 * The GSAP end-of-day page: the form, the file-name and destination
 * previews, the validity rule that enables the upload button, the request
 * the form sends, and the history entry written after the upload. The
 * clock enters as two readings: `isoNow` (the ISO text of `new Date()`) and
 * `now` (its millisecond value).
 */
module GsapEodPage {
  import opened Wrappers
  import opened Strings
  import opened Sequences
  import opened FileGenerator
  import opened S3Service
  import opened CloudServiceController
  import opened UploadHistory
  import opened HistoryPage
  import TriggerPipeline

  /** The form's state; the generation and service types are kept as the strings the selects hold. */
  datatype EodForm = EodForm(
    generationType: string,
    serviceType: string,
    siteId: string,
    date: string,
    startDate: string,
    endDate: string,
    bulkSites: string,
    sftpUser: string,
    bucketName: string)

  /** Today's date as `YYYYMMDD`: the date part of the ISO time with its dashes removed. */
  function Today(isoNow: string): (d: string)
    ensures '-' !in d
  {
    RemoveAll(Split(isoNow, 'T')[0], '-')
  }

  /** The ISO time `YYYY-MM-DDT...` gives `YYYYMMDD`. */
  lemma TodayOfIsoTime(year: string, month: string, day: string, time: string)
    requires '-' !in year && '-' !in month && '-' !in day
    requires 'T' !in year && 'T' !in month && 'T' !in day
    ensures Today(year + "-" + month + "-" + day + "T" + time) == year + month + day
  {
    var date := year + "-" + month + "-" + day;
    assert 'T' !in date;
    SplitConcat(date, time, 'T');
    SplitNoSeparator(date, 'T');
    DashedDate(year, month, day);
  }

  /** Removing the dashes of `YYYY-MM-DD` leaves `YYYYMMDD`. */
  lemma DashedDate(year: string, month: string, day: string)
    requires '-' !in year && '-' !in month && '-' !in day
    ensures RemoveAll(year + "-" + month + "-" + day, '-') == year + month + day
  {
    assert RemoveAll("-", '-') == "";
    RemoveAllConcat(year, "-", '-');
    assert RemoveAll(year + "-", '-') == year;
    RemoveAllConcat(year + "-", month, '-');
    assert RemoveAll(year + "-" + month, '-') == year + month;
    RemoveAllConcat(year + "-" + month, "-", '-');
    assert RemoveAll(year + "-" + month + "-", '-') == year + month;
    RemoveAllConcat(year + "-" + month + "-", day, '-');
  }

  /** A date input's value as stored: every dash removed. */
  function DateInput(value: string): (d: string)
    ensures '-' !in d
    ensures '-' !in value ==> d == value
    ensures IsSubsequence(d, value) && multiset(d) == multiset(value)['-' := 0]
  {
    RemoveAllKeepsTheRest(value, '-');
    RemoveAll(value, '-')
  }

  /** `generateFileName`: the trigger-name templates, an empty date standing for today. */
  function PreviewFileName(f: EodForm, today: string): (name: string)
    ensures name == "" <==> f.generationType !in {"single", "range", "bulk"}
    ensures name != "" ==> StartsWith(name, TriggerPrefix + f.serviceType + "_") && EndsWith(name, TriggerSuffix)
  {
    var head := TriggerPrefix + f.serviceType + "_";
    var name :=
      if f.generationType == "single" then
        head + f.siteId + "_" + OrElse(f.date, today) + TriggerSuffix
      else if f.generationType == "range" then
        head + (f.siteId + "_" + OrElse(f.startDate, today) + "-" + OrElse(f.endDate, today)) + TriggerSuffix
      else if f.generationType == "bulk" then
        head + ("BULK_" + OrElse(f.date, today)) + TriggerSuffix
      else "";
    assert name != "" ==> StartsWith(name, head) && EndsWith(name, TriggerSuffix) by {
      if f.generationType == "single" {
        StartsWithConcat(head, f.siteId + "_" + OrElse(f.date, today) + TriggerSuffix);
        EndsWithConcat(head + f.siteId + "_" + OrElse(f.date, today), TriggerSuffix);
      } else if f.generationType == "range" {
        StartsWithConcat(head, (f.siteId + "_" + OrElse(f.startDate, today) + "-" + OrElse(f.endDate, today)) + TriggerSuffix);
        EndsWithConcat(head + (f.siteId + "_" + OrElse(f.startDate, today) + "-" + OrElse(f.endDate, today)), TriggerSuffix);
      } else if f.generationType == "bulk" {
        StartsWithConcat(head, ("BULK_" + OrElse(f.date, today)) + TriggerSuffix);
        EndsWithConcat(head + ("BULK_" + OrElse(f.date, today)), TriggerSuffix);
      }
    }
    name
  }

  /** An empty date field is filled with today in every template. */
  lemma PreviewOfEmptyDates(f: EodForm, today: string)
    ensures f.generationType == "single" && f.date == "" ==>
      PreviewFileName(f, today) == "Generate_" + f.serviceType + "_" + f.siteId + "_" + today + ".txt"
    ensures f.generationType == "range" && f.startDate == "" && f.endDate == "" ==>
      PreviewFileName(f, today) == "Generate_" + f.serviceType + "_" + f.siteId + "_" + today + "-" + today + ".txt"
    ensures f.generationType == "range" && f.startDate == "" && f.endDate != "" ==>
      PreviewFileName(f, today) == "Generate_" + f.serviceType + "_" + f.siteId + "_" + today + "-" + f.endDate + ".txt"
    ensures f.generationType == "range" && f.startDate != "" && f.endDate == "" ==>
      PreviewFileName(f, today) == "Generate_" + f.serviceType + "_" + f.siteId + "_" + f.startDate + "-" + today + ".txt"
    ensures f.generationType == "bulk" && f.date == "" ==>
      PreviewFileName(f, today) == "Generate_" + f.serviceType + "_BULK_" + today + ".txt"
  {
    var head := TriggerPrefix + f.serviceType + "_";
    if f.generationType == "range" {
      var start := OrElse(f.startDate, today);
      var end := OrElse(f.endDate, today);
      assert PreviewFileName(f, today) == head + f.siteId + "_" + start + "-" + end + TriggerSuffix;
    } else if f.generationType == "bulk" {
      assert PreviewFileName(f, today) == head + ("BULK_" + OrElse(f.date, today)) + TriggerSuffix;
      assert head + ("BULK_" + OrElse(f.date, today)) == "Generate_" + f.serviceType + "_BULK_" + OrElse(f.date, today);
    }
  }

  /** `getS3Path`: the import folder, with placeholders for an empty bucket or user. */
  function EodS3Path(f: EodForm): (p: string)
    ensures f.bucketName != "" && f.sftpUser != "" ==>
      p == "s3://" + f.bucketName + "/" + f.sftpUser + "/Import/EODSales/"
    ensures f.bucketName != "" && f.sftpUser == "" ==> p == "s3://" + f.bucketName + "/" + "sftp-user" + "/Import/EODSales/"
    ensures f.bucketName == "" && f.sftpUser != "" ==> p == "s3://" + "bucket-name" + "/" + f.sftpUser + "/Import/EODSales/"
    ensures f.bucketName == "" && f.sftpUser == "" ==> p == "s3://" + "bucket-name" + "/" + "sftp-user" + "/Import/EODSales/"
  {
    "s3://" + OrElse(f.bucketName, "bucket-name") + "/" + OrElse(f.sftpUser, "sftp-user") + "/Import/EODSales/"
  }

  /** `isFormValid`: user and bucket, then the fields of the chosen type; bulk needs some non-blank text. */
  predicate IsFormValid(f: EodForm) {
    && f.sftpUser != "" && f.bucketName != ""
    && (if f.generationType == "single" then f.siteId != "" && f.date != ""
        else if f.generationType == "range" then f.siteId != "" && f.startDate != "" && f.endDate != ""
        else if f.generationType == "bulk" then f.date != "" && Trim(f.bulkSites) != ""
        else false)
  }

  predicate NonBlankLine(line: string) {
    Trim(line) != ""
  }

  /** `bulkSites.split('\n').filter(site => site.trim())`: the lines that are not blank, untrimmed, in order. */
  function BulkSiteList(text: string): (sites: seq<string>)
    ensures IsSubsequence(sites, Split(text, '\n'))
    ensures forall s :: s in sites <==> s in Split(text, '\n') && Trim(s) != ""
    ensures forall s :: multiset(sites)[s] == if Trim(s) != "" then multiset(Split(text, '\n'))[s] else 0
    ensures sites == [] <==> Trim(text) == ""
  {
    var parts := Split(text, '\n');
    var sites := Filter(parts, NonBlankLine);
    JoinSplit(text, '\n');
    assert sites == [] <==> Trim(text) == "" by {
      if Trim(text) == "" {
        if sites != [] {
          var p := sites[0];
          assert p in parts && Trim(p) != "";
          var i :| 0 <= i < |parts| && parts[i] == p;
          var k :| 0 <= k < |p| && !IsSpace(p[k]);
          JoinKeepsPieceCharacters(parts, '\n', i, k);
          assert false;
        }
      } else {
        if sites == [] {
          forall i | 0 <= i < |parts| ensures Blank(parts[i]) {
            assert parts[i] in parts;
            assert parts[i] !in sites;
          }
          JoinOfBlankIsBlank(parts, '\n');
          assert false;
        }
      }
    }
    sites
  }

  /** The request body: the common fields, plus only those the chosen type uses. */
  function BuildRequest(f: EodForm): (r: EodRequest)
    ensures r.serviceType == f.serviceType && r.generationType == f.generationType
    ensures r.sftpUser == f.sftpUser && r.bucketName == f.bucketName
    ensures r.siteId.Some? <==> f.generationType in {"single", "range"}
    ensures r.date.Some? <==> f.generationType in {"single", "bulk"}
    ensures r.startDate.Some? <==> f.generationType == "range"
    ensures r.endDate.Some? <==> f.generationType == "range"
    ensures r.bulkSites.Some? <==> f.generationType == "bulk"
  {
    var t := f.generationType;
    EodRequest(
      f.serviceType, t,
      if t == "single" || t == "range" then Some(f.siteId) else None,
      if t == "single" || t == "bulk" then Some(f.date) else None,
      if t == "range" then Some(f.startDate) else None,
      if t == "range" then Some(f.endDate) else None,
      if t == "bulk" then Some(BulkSiteList(f.bulkSites)) else None,
      f.sftpUser, f.bucketName)
  }

  /** `...(siteId && { siteId })`: the site is recorded only when the field is not empty. */
  function RecordedSite(f: EodForm): Option<string> {
    if f.siteId != "" then Some(f.siteId) else None
  }

  /** The history entry of a successful upload as the page writes it: the form's service type, `EODSales` or `POSSales`. */
  function SuccessItemAsWritten(f: EodForm, r: UploadResponse, now: int): (item: HistoryItem)
    ensures item.serviceType == f.serviceType && item.success
  {
    HistoryItem(IntToString(now), r.fileName, f.serviceType, r.s3Path, r.uploadedAt, true, None,
                f.bucketName, f.sftpUser, Some(f.generationType), RecordedSite(f))
  }

  /** The history entry of a successful upload, filed under the end-of-day service the history page filters on. */
  function SuccessItem(f: EodForm, r: UploadResponse, now: int): (item: HistoryItem)
    ensures item.serviceType == EodService && item.success
    ensures item.fileName == r.fileName && item.s3Path == r.s3Path && item.uploadedAt == r.uploadedAt
    ensures item == SuccessItemAsWritten(f, r, now).(serviceType := EodService)
  {
    HistoryItem(IntToString(now), r.fileName, EodService, r.s3Path, r.uploadedAt, true, None,
                f.bucketName, f.sftpUser, Some(f.generationType), RecordedSite(f))
  }

  /** The history entry of a failed attempt as the page writes it: again the form's service type. */
  function FailureItemAsWritten(f: EodForm, today: string, message: string, now: int): (item: HistoryItem)
    ensures item.serviceType == f.serviceType && !item.success && item.error == Some(message)
    ensures item.fileName == PreviewFileName(f, today)
    ensures item.s3Path == EodS3Path(f) + PreviewFileName(f, today)
  {
    HistoryItem(IntToString(now), PreviewFileName(f, today), f.serviceType, EodS3Path(f) + PreviewFileName(f, today),
                now, false, Some(message), f.bucketName, f.sftpUser, Some(f.generationType), RecordedSite(f))
  }

  /**
   * The history entry of a failed attempt, filed under the end-of-day
   * service: the previewed name and path, the error, the current time.
   */
  function FailureItem(f: EodForm, today: string, message: string, now: int): (item: HistoryItem)
    ensures item.serviceType == EodService && !item.success && item.error == Some(message)
    ensures item.fileName == PreviewFileName(f, today)
    ensures item.s3Path == EodS3Path(f) + PreviewFileName(f, today)
    ensures item == FailureItemAsWritten(f, today, message, now).(serviceType := EodService)
  {
    HistoryItem(IntToString(now), PreviewFileName(f, today), EodService, EodS3Path(f) + PreviewFileName(f, today),
                now, false, Some(message), f.bucketName, f.sftpUser, Some(f.generationType), RecordedSite(f))
  }

  // -----------------------------------------------------------------------
  // How the page agrees with the backend
  // -----------------------------------------------------------------------

  /** For a form of a known type and service, the button is enabled exactly when the backend's field checks pass. */
  lemma FormValidIffFieldsAccepted(f: EodForm)
    requires f.serviceType != "" && f.generationType in {"single", "range", "bulk"}
    ensures IsFormValid(f) <==> EodFieldError(BuildRequest(f)).None?
  {
  }

  /** The preview of a valid form is the name the backend generates for the request it sends. */
  lemma ValidPreviewIsGeneratedName(f: EodForm, today: string)
    requires IsFormValid(f)
    ensures GenerateEodFile(BuildRequest(f)).Success?
    ensures PreviewFileName(f, today) == GenerateEodFile(BuildRequest(f)).value.fileName
  {
    PreviewIsEodFileName(f, today);
  }

  /** The preview of a valid form is the backend's trigger name for the request. */
  lemma PreviewIsEodFileName(f: EodForm, today: string)
    requires IsFormValid(f)
    ensures EodFileName(BuildRequest(f)) == Success(PreviewFileName(f, today))
  {
    var r := BuildRequest(f);
    if f.generationType == "single" {
      assert r.siteId == Some(f.siteId) && r.date == Some(f.date);
    } else if f.generationType == "range" {
      assert r.siteId == Some(f.siteId) && r.startDate == Some(f.startDate) && r.endDate == Some(f.endDate);
      RangeRegroup(TriggerPrefix + f.serviceType + "_", f.siteId, f.startDate, f.endDate, TriggerSuffix);
    } else {
      assert r.date == Some(f.date);
      BulkRegroup(TriggerPrefix + f.serviceType + "_", f.date, TriggerSuffix);
    }
  }

  /** The range preview's grouping of its pieces does not change the name. */
  lemma RangeRegroup(head: string, site: string, start: string, end: string, suffix: string)
    ensures head + (site + "_" + start + "-" + end) + suffix == head + site + "_" + start + "-" + end + suffix
  {
  }

  /** Likewise for the bulk preview. */
  lemma BulkRegroup(head: string, date: string, suffix: string)
    ensures head + ("BULK_" + date) + suffix == head + "BULK_" + date + suffix
  {
  }

  /** For a valid form, the path written on failure is the one the backend reports for that upload. */
  lemma FailurePathIsBackendPath(f: EodForm, today: string, outcome: StoreOutcome, now: int)
    requires IsFormValid(f)
    ensures EodS3Path(f) + PreviewFileName(f, today)
         == UploadTriggerFile(f.bucketName, PreviewFileName(f, today), f.sftpUser + "/Import/EODSales", outcome, now).s3Path
  {
  }

  /**
   * A valid range form whose fields hold no underscore, and whose site is
   * not BULK, sends a trigger the output monitor parses back into exactly
   * that range: the dash-free date inputs keep the one dash the name puts
   * between the two dates.
   */
  lemma {:induction false} RangeFormRoundTrips(f: EodForm)
    requires IsFormValid(f) && f.generationType == "range"
    requires '_' !in f.serviceType && '_' !in f.siteId && '_' !in f.startDate && '_' !in f.endDate
    requires f.siteId != "BULK"
    requires '-' !in f.startDate && '-' !in f.endDate
    ensures ParseTrigger(GenerateEodFile(BuildRequest(f)).value.fileName, EodService)
         == Some(Range(f.serviceType, f.siteId, f.startDate, f.endDate))
  {
    TriggerPipeline.RangeTriggerRoundTrip(BuildRequest(f));
  }

  /** `Generate_EODSales_BULK_{date}.txt` for the bulk form, with the sites one per line in the body. */
  lemma {:induction false} BulkFormSendsItsSites(f: EodForm)
    requires IsFormValid(f) && f.generationType == "bulk"
    ensures GenerateEodFile(BuildRequest(f)).Success?
    ensures GenerateEodFile(BuildRequest(f)).value.content == Join(BulkSiteList(f.bulkSites), '\n')
  {
    assert BulkSiteList(f.bulkSites) != [];
  }

  // -----------------------------------------------------------------------
  // The history entry (see Findings in the README)
  // -----------------------------------------------------------------------

  /**
   * As written, no end-of-day entry, successful or failed, is listed under
   * the history page's GSAP-EOD filter nor counted there.
   */
  lemma AsWrittenUploadIsNotListedAsEod(f: EodForm, r: UploadResponse, today: string, message: string, now: int)
    requires f.serviceType == "EODSales" || f.serviceType == "POSSales"
    ensures Visible([SuccessItemAsWritten(f, r, now)], "", EodService, AllStatuses) == []
    ensures EodCount([SuccessItemAsWritten(f, r, now)]) == 0
    ensures Visible([FailureItemAsWritten(f, today, message, now)], "", EodService, AllStatuses) == []
    ensures EodCount([FailureItemAsWritten(f, today, message, now)]) == 0
  {
    var item := SuccessItemAsWritten(f, r, now);
    assert item.serviceType != EodService;
    assert !Kept(item, "", EodService, AllStatuses);
    var failed := FailureItemAsWritten(f, today, message, now);
    assert failed.serviceType != EodService;
    assert !Kept(failed, "", EodService, AllStatuses);
  }

  /** The corrected entry heads the history and is listed first under the GSAP-EOD filter. */
  lemma {:induction false} UploadIsListedAsEod(f: EodForm, r: UploadResponse, now: int, history: seq<HistoryItem>)
    ensures Visible(Prepend(SuccessItem(f, r, now), history), "", EodService, AllStatuses)[0] == SuccessItem(f, r, now)
    ensures EodCount([SuccessItem(f, r, now)]) == 1
  {
    var item := SuccessItem(f, r, now);
    var h := Prepend(item, history);
    assert h == [item] + h[1..];
    assert Kept(item, "", EodService, AllStatuses);
    assert Filter(h, (x: HistoryItem) => Kept(x, "", EodService, AllStatuses))
        == [item] + Filter(h[1..], (x: HistoryItem) => Kept(x, "", EodService, AllStatuses));
    assert Filter([item], (x: HistoryItem) => x.serviceType == EodService) == [item];
  }

  // -----------------------------------------------------------------------
  // The page
  // -----------------------------------------------------------------------

  class EodPage {
    var form: EodForm
    var uploadResult: Option<UploadResult>
    const storage: HistoryStorage

    constructor (storage: HistoryStorage)
      ensures this.storage == storage && uploadResult.None?
      ensures form == EodForm("single", "EODSales", "", "", "", "", "", "", "")
    {
      this.storage := storage;
      form := EodForm("single", "EODSales", "", "", "", "", "", "", "");
      uploadResult := None;
    }

    method SetDate(value: string)
      modifies this
      ensures form == old(form).(date := DateInput(value)) && uploadResult == old(uploadResult)
    {
      form := form.(date := RemoveAll(value, '-'));
    }

    method SetStartDate(value: string)
      modifies this
      ensures form == old(form).(startDate := DateInput(value)) && uploadResult == old(uploadResult)
    {
      form := form.(startDate := RemoveAll(value, '-'));
    }

    method SetEndDate(value: string)
      modifies this
      ensures form == old(form).(endDate := DateInput(value)) && uploadResult == old(uploadResult)
    {
      form := form.(endDate := RemoveAll(value, '-'));
    }

    /**
     * `handleGenerateAndUpload`, given whether a profile is active and how
     * the backend call ended: returns the request sent, if any. A returned
     * response is shown and, when it reports success, recorded; a thrown
     * error is shown and recorded as a failure.
     */
    method GenerateAndUpload(hasProfile: bool, call: Call<UploadResponse>, isoNow: string, now: int)
      returns (sent: Option<EodRequest>)
      modifies this, storage
      ensures form == old(form)
      ensures sent == if hasProfile then Some(BuildRequest(form)) else None
      ensures !hasProfile ==>
        uploadResult == Some(UploadFailed(NoActiveProfile)) && storage.items == old(storage.items)
      ensures hasProfile && call.Returned? ==>
        && uploadResult == Some(Uploaded(call.value))
        && storage.items == if call.value.success then Prepend(SuccessItem(form, call.value, now), old(storage.items))
                            else old(storage.items)
      ensures hasProfile && call.Threw? ==>
        && uploadResult == Some(UploadFailed(call.message.GetOr(UploadFallback)))
        && storage.items == Prepend(FailureItem(form, Today(isoNow), call.message.GetOr(UploadFallback), now), old(storage.items))
    {
      if !hasProfile {
        uploadResult := Some(UploadFailed(NoActiveProfile));
        return None;
      }
      uploadResult := None;
      sent := Some(BuildRequest(form));
      match call
      case Returned(result) =>
        uploadResult := Some(Uploaded(result));
        if result.success {
          storage.Record(SuccessItem(form, result, now));
        }
      case Threw(message) =>
        var error := message.GetOr(UploadFallback);
        uploadResult := Some(UploadFailed(error));
        storage.Record(FailureItem(form, Today(isoNow), error, now));
    }
  }
}
