/**
 * The output-monitor page: a monitoring configuration, the matching outputs
 * of one trigger, the listing of the whole export folder with its sort
 * switch (none, newest first, oldest first), and the file viewer with its
 * close and download actions. Each backend call enters as how it ended.
 */
module OutputsPage {
  import opened Wrappers
  import opened Strings
  import opened Sorting
  import opened S3Service
  import opened CloudServiceController

  /** `MonitoringConfig`: which service, bucket, user and trigger to watch. */
  datatype MonitoringConfig = MonitoringConfig(
    serviceType: string,
    bucketName: string,
    sftpUser: string,
    triggerFileName: string)

  const InitialConfig := MonitoringConfig(EodService, "", "", "")

  datatype SortOrder = NoSort | Desc | Asc

  const ContentErrorPrefix := "Error loading file content: "
  const UnknownError := "Unknown error"
  const DefaultDownloadName := "file.txt"

  /** `handleSort`: none, then newest first, then oldest first, then none again. */
  function NextSortOrder(o: SortOrder): (n: SortOrder)
    ensures n != o
    ensures o == NoSort ==> n == Desc
    ensures o == Desc ==> n == Asc
    ensures o == Asc ==> n == NoSort
  {
    match o
    case NoSort => Desc
    case Desc => Asc
    case Asc => NoSort
  }

  function LastModified(f: ObjectInfo): int {
    f.lastModified
  }

  function NegatedLastModified(f: ObjectInfo): int {
    -f.lastModified
  }

  /** `getSortedFiles`: the listing as it is, or a sorted copy by modification time. */
  function SortedFiles(files: seq<ObjectInfo>, o: SortOrder): (r: seq<ObjectInfo>)
    ensures multiset(r) == multiset(files) && |r| == |files|
    ensures o == NoSort ==> r == files
    ensures o == Asc ==> forall i, j :: 0 <= i < j < |r| ==> r[i].lastModified <= r[j].lastModified
    ensures o == Desc ==> forall i, j :: 0 <= i < j < |r| ==> r[i].lastModified >= r[j].lastModified
  {
    match o
    case NoSort => files
    case Asc => SortBy(files, LastModified)
    case Desc =>
      var r := SortBy(files, NegatedLastModified);
      assert forall i, j :: 0 <= i < j < |r| ==> NegatedLastModified(r[i]) <= NegatedLastModified(r[j]);
      r
  }

  /** The folder the "list all" button asks for: the end-of-day export folder, else the monthly one. */
  function ExportPathFor(c: MonitoringConfig): (p: string)
    ensures c.serviceType == EodService ==> p == c.sftpUser + "/Export/EODSales"
    ensures c.serviceType != EodService ==> p == c.sftpUser + "/Export/FuelMonthEndDips"
  {
    if c.serviceType == EodService then c.sftpUser + "/Export/EODSales"
    else c.sftpUser + "/Export/FuelMonthEndDips"
  }

  /** What the monitor shows when the call fails: the trigger with no outputs and no generation time. */
  function NoMatch(c: MonitoringConfig): (m: MatchResult)
    ensures m.triggerFileName == c.triggerFileName && m.serviceType == c.serviceType
    ensures m.outputFiles == [] && m.generatedAt.None?
  {
    MatchResult(c.triggerFileName, [], c.serviceType, None)
  }

  /** The viewer's text after a failed download. */
  function ContentError(message: Option<string>): (t: string)
    ensures StartsWith(t, ContentErrorPrefix)
    ensures message.None? ==> t == ContentErrorPrefix + UnknownError
    ensures message.Some? ==> t == ContentErrorPrefix + message.value
  {
    StartsWithConcat(ContentErrorPrefix, message.GetOr(UnknownError));
    ContentErrorPrefix + message.GetOr(UnknownError)
  }

  /** `selectedFile.split('/').pop() || 'file.txt'`: the last path segment, or a default when it is empty. */
  function DownloadName(selected: string): (name: string)
    ensures name != ""
    ensures '/' !in selected && selected != "" ==> name == selected
  {
    assert '/' !in selected ==> AfterLast(selected, '/') == selected by {
      if '/' !in selected { AfterLastNoSeparator(selected, '/'); }
    }
    OrElse(AfterLast(selected, '/'), DefaultDownloadName)
  }

  /** A selection ending in `/` has an empty last segment and downloads under the default name. */
  lemma {:induction false} DownloadOfFolderIsDefault(folder: string)
    ensures DownloadName(folder + "/") == DefaultDownloadName
  {
    AfterLastOfConcat(folder, "", '/');
    assert folder + "/" == folder + ['/'] + "";
  }

  // -----------------------------------------------------------------------
  // Properties
  // -----------------------------------------------------------------------

  /** Three clicks of the sort button bring the listing back to its original order. */
  lemma SortCycleHasPeriodThree(o: SortOrder)
    ensures NextSortOrder(NextSortOrder(NextSortOrder(o))) == o
    ensures NextSortOrder(NextSortOrder(o)) != o
  {
  }

  /** Sorting an already sorted listing the same way changes nothing. */
  lemma {:induction false} SortingIsIdempotent(files: seq<ObjectInfo>, o: SortOrder)
    ensures SortedFiles(SortedFiles(files, o), o) == SortedFiles(files, o)
  {
    var r := SortedFiles(files, o);
    match o
    case NoSort =>
    case Asc =>
      assert SortedBy(r, LastModified);
      SortSorted(r, LastModified);
    case Desc =>
      assert SortedBy(r, NegatedLastModified);
      SortSorted(r, NegatedLastModified);
  }

  /** For both services the page asks for the export folder the backend's monitor reads. */
  lemma PageExportPathIsBackendExportPath(c: MonitoringConfig)
    requires c.serviceType == EodService || c.serviceType == MonthlyService
    ensures ExportPath(c.serviceType, c.sftpUser) == Some(ExportPathFor(c))
  {
  }

  /** The folder the page asks for is never empty, so with a bucket and credentials the listing is not refused. */
  lemma ListRequestPassesGuards(c: MonitoringConfig, creds: AwsCredentials)
    requires c.bucketName != ""
    ensures ListDecision(c.bucketName, ExportPathFor(c), Some(creds)) == Proceed(ExportPathFor(c))
  {
    assert |ExportPathFor(c)| > 0;
  }

  /** A file selected from the listing is downloaded under its own name. */
  lemma {:induction false} DownloadKeepsFileName(folder: string, name: string)
    requires name != "" && '/' !in name
    ensures DownloadName(folder + "/" + name) == name
  {
    AfterLastOfConcat(folder, name, '/');
  }

  // -----------------------------------------------------------------------
  // The page
  // -----------------------------------------------------------------------

  class OutputMonitor {
    var config: MonitoringConfig
    var outputMatch: Option<MatchResult>
    var allFiles: seq<ObjectInfo>
    var selectedFile: Option<string>
    var fileContent: Option<string>
    var isLoadingContent: bool
    var showModal: bool
    var sortOrder: SortOrder

    constructor ()
      ensures config == InitialConfig && outputMatch.None? && allFiles == []
      ensures selectedFile.None? && fileContent.None? && !isLoadingContent && !showModal
      ensures sortOrder == NoSort
    {
      config := InitialConfig;
      outputMatch := None;
      allFiles := [];
      selectedFile := None;
      fileContent := None;
      isLoadingContent := false;
      showModal := false;
      sortOrder := NoSort;
    }

    /** The outputs table is rendered only for a trigger file with a match. */
    predicate OutputsTableShown()
      reads this
    {
      config.triggerFileName != "" && outputMatch.Some?
    }

    /** The listing table is rendered only without a trigger file, and only when the listing is not empty. */
    predicate ListingTableShown()
      reads this
    {
      config.triggerFileName == "" && |allFiles| > 0
    }

    /** The page never renders both tables, and a rendered table has one row per file it lists. */
    lemma OneTableAtATime()
      ensures !(OutputsTableShown() && ListingTableShown())
      ensures ListingTableShown() ==> |ShownFiles()| == |allFiles| > 0
      ensures OutputsTableShown() ==> |ShownOutputs()| == |outputMatch.value.outputFiles|
    {
      if ListingTableShown() {
        assert |multiset(ShownFiles())| == |multiset(allFiles)|;
      }
      if OutputsTableShown() {
        assert |multiset(ShownOutputs())| == |multiset(outputMatch.value.outputFiles)|;
      }
    }

    /** The listing as its table shows it, whenever that table is rendered. */
    function ShownFiles(): (r: seq<ObjectInfo>)
      reads this
      ensures multiset(r) == multiset(allFiles)
      ensures sortOrder == NoSort ==> r == allFiles
      ensures sortOrder == Asc ==> forall i, j :: 0 <= i < j < |r| ==> r[i].lastModified <= r[j].lastModified
      ensures sortOrder == Desc ==> forall i, j :: 0 <= i < j < |r| ==> r[i].lastModified >= r[j].lastModified
    {
      SortedFiles(allFiles, sortOrder)
    }

    /** The matched outputs as their table shows them, in the same sort order, whenever that table is rendered; none before a match. */
    function ShownOutputs(): (r: seq<ObjectInfo>)
      reads this
      ensures outputMatch.None? ==> r == []
      ensures outputMatch.Some? ==> multiset(r) == multiset(outputMatch.value.outputFiles)
      ensures outputMatch.Some? && sortOrder == NoSort ==> r == outputMatch.value.outputFiles
      ensures sortOrder == Asc ==> forall i, j :: 0 <= i < j < |r| ==> r[i].lastModified <= r[j].lastModified
      ensures sortOrder == Desc ==> forall i, j :: 0 <= i < j < |r| ==> r[i].lastModified >= r[j].lastModified
    {
      if outputMatch.None? then [] else SortedFiles(outputMatch.value.outputFiles, sortOrder)
    }

    /**
     * `monitorOutputFiles`: with a profile and every field filled in, the
     * backend's answer is shown, or on failure the trigger with no outputs;
     * otherwise nothing happens. Returns whether the call was made.
     */
    method Monitor(hasProfile: bool, call: Call<MatchResult>) returns (called: bool)
      modifies this
      ensures called <==> hasProfile && config.bucketName != "" && config.sftpUser != "" && config.triggerFileName != ""
      ensures !called ==> outputMatch == old(outputMatch)
      ensures called && call.Returned? ==> outputMatch == Some(call.value)
      ensures called && call.Threw? ==> outputMatch == Some(NoMatch(config))
      ensures config == old(config) && allFiles == old(allFiles) && selectedFile == old(selectedFile)
      ensures fileContent == old(fileContent) && isLoadingContent == old(isLoadingContent)
      ensures showModal == old(showModal) && sortOrder == old(sortOrder)
    {
      if !hasProfile || config.bucketName == "" || config.sftpUser == "" || config.triggerFileName == "" {
        return false;
      }
      match call {
        case Returned(result) => outputMatch := Some(result);
        case Threw(_) => outputMatch := Some(NoMatch(config));
      }
      return true;
    }

    /**
     * `listAllOutputFiles`: with a profile, a bucket and a user, the export
     * folder of the service is listed; a failure empties the listing.
     * Returns the folder asked for, if any.
     */
    method ListAll(hasProfile: bool, call: Call<seq<ObjectInfo>>) returns (asked: Option<string>)
      modifies this
      ensures asked.Some? <==> hasProfile && config.bucketName != "" && config.sftpUser != ""
      ensures asked.Some? ==> asked.value == ExportPathFor(config)
      ensures asked.None? ==> allFiles == old(allFiles)
      ensures asked.Some? ==> allFiles == if call.Returned? then call.value else []
      ensures config == old(config) && outputMatch == old(outputMatch) && selectedFile == old(selectedFile)
      ensures fileContent == old(fileContent) && isLoadingContent == old(isLoadingContent)
      ensures showModal == old(showModal) && sortOrder == old(sortOrder)
    {
      if !hasProfile || config.bucketName == "" || config.sftpUser == "" {
        return None;
      }
      var exportPath := if config.serviceType == EodService then config.sftpUser + "/Export/EODSales"
                        else config.sftpUser + "/Export/FuelMonthEndDips";
      match call {
        case Returned(files) => allFiles := files;
        case Threw(_) => allFiles := [];
      }
      return Some(exportPath);
    }

    /**
     * `viewFileContent`: with a profile and a bucket, the viewer opens on
     * the file and shows its content, or the error; otherwise nothing
     * happens. Returns whether the download was asked for.
     */
    method ViewFileContent(hasProfile: bool, filePath: string, call: Call<FileContent>) returns (called: bool)
      modifies this
      ensures called <==> hasProfile && config.bucketName != ""
      ensures !called ==> selectedFile == old(selectedFile) && fileContent == old(fileContent)
                          && showModal == old(showModal) && isLoadingContent == old(isLoadingContent)
      ensures called ==> selectedFile == Some(filePath) && showModal && !isLoadingContent
      ensures called && call.Returned? ==> fileContent == Some(call.value.content)
      ensures called && call.Threw? ==> fileContent == Some(ContentError(call.message))
      ensures config == old(config) && outputMatch == old(outputMatch) && allFiles == old(allFiles)
      ensures sortOrder == old(sortOrder)
    {
      if !hasProfile || config.bucketName == "" {
        return false;
      }
      isLoadingContent := true;
      selectedFile := Some(filePath);
      showModal := true;
      fileContent := None;
      match call {
        case Returned(result) => fileContent := Some(result.content);
        case Threw(message) => fileContent := Some(ContentErrorPrefix + message.GetOr(UnknownError));
      }
      isLoadingContent := false;
      return true;
    }

    /** `handleSort` */
    method ToggleSort()
      modifies this
      ensures sortOrder == NextSortOrder(old(sortOrder))
      ensures config == old(config) && outputMatch == old(outputMatch) && allFiles == old(allFiles)
      ensures selectedFile == old(selectedFile) && fileContent == old(fileContent)
      ensures isLoadingContent == old(isLoadingContent) && showModal == old(showModal)
    {
      sortOrder := NextSortOrder(sortOrder);
    }

    /** `closeModal`: the viewer closes and forgets its file. */
    method CloseModal()
      modifies this
      ensures !showModal && selectedFile.None? && fileContent.None? && !isLoadingContent
      ensures config == old(config) && outputMatch == old(outputMatch) && allFiles == old(allFiles)
      ensures sortOrder == old(sortOrder)
    {
      showModal := false;
      selectedFile := None;
      fileContent := None;
      isLoadingContent := false;
    }

    /** `downloadFile`: the name the file is saved under, when the viewer holds a file with some content. */
    method Download() returns (name: Option<string>)
      ensures name.Some? <==> Present(fileContent) && Present(selectedFile)
      ensures name.Some? ==> name.value == DownloadName(selectedFile.value)
    {
      if Present(fileContent) && Present(selectedFile) {
        var parts := Split(selectedFile.value, '/');
        var last := parts[|parts| - 1];
        name := Some(if last != "" then last else DefaultDownloadName);
      } else {
        name := None;
      }
    }
  }
}
