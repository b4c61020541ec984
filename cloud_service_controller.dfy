/**
 * The request handlers of CloudServiceController as decisions. Each handler
 * runs a chain of early returns: missing fields are a 400, no active
 * credentials a 401, and (for monitoring) an unknown service type another
 * 400; only then does it pick the object-store path it works on. What the
 * store and the generator then do is passed in, and an exception they
 * raise becomes a 500 carrying its message.
 *
 * A required string field that is absent from the JSON body or the query
 * is represented by the empty string: both are falsy and fail the same
 * guard.
 */
module CloudServiceController {
  import opened Wrappers
  import opened Strings
  import opened FileGenerator
  import opened S3Service

  /** The credentials the middleware attaches to the request. */
  datatype AwsCredentials = AwsCredentials(
    accessKeyId: string,
    secretAccessKey: string,
    region: string,
    sessionToken: Option<string>)

  /** What a handler answers: a 200 with a body, or an error status with a message. */
  datatype Reply<+T> = Ok(body: T) | Err(status: nat, error: string)

  /** Where a handler stands once its guards have run: turned away, or cleared to work on an object-store path. */
  datatype Decision = Reject(status: nat, error: string) | Proceed(path: string)

  /** A call into the object store: it returned a value, or it threw with an optional message. */
  datatype Call<+T> = Returned(value: T) | Threw(message: Option<string>)

  /** The object the upload handlers ask the store to write. */
  datatype PutObject = PutObject(bucket: string, key: string, content: string, contentType: string)

  /** `FileContentResponse` */
  datatype FileContent = FileContent(fileName: string, content: string, contentType: string, size: int)

  const MissingEodFields := "Missing required fields: serviceType, generationType, sftpUser, bucketName"
  const SingleNeeds := "Single generation type requires siteId and date"
  const RangeNeeds := "Range generation type requires siteId, startDate, and endDate"
  const BulkNeeds := "Bulk generation type requires bulkSites array and date"
  const MissingMonthlyFields := "Missing required fields: siteId, year, month, sftpUser, bucketName"
  const NoCredentialsForUpload := "No active AWS credentials. Please set an active AWS profile."
  const NoCredentials := "No active AWS credentials"
  const MissingMonitorParams := "Missing required query parameters: serviceType, bucketName, sftpUser, triggerFileName"
  const InvalidServiceType := "Invalid service type. Must be GSAP-EOD or GSAP-Monthly"
  const MissingContentParams := "Missing required query parameters: bucketName, filePath"
  const MissingListParams := "Missing required query parameters: bucketName, exportPath"
  const InternalError := "Internal server error"

  // -----------------------------------------------------------------------
  // Generating an end-of-day trigger
  // -----------------------------------------------------------------------

  /** The four fields every end-of-day request needs. */
  predicate EodRequiredPresent(b: EodRequest) {
    b.serviceType != "" && b.generationType != "" && b.sftpUser != "" && b.bucketName != ""
  }

  /** The fields its generation type needs; an unrecognised type needs none here. */
  predicate EodTypeFieldsPresent(b: EodRequest) {
    && (b.generationType == "single" ==> Present(b.siteId) && Present(b.date))
    && (b.generationType == "range" ==> Present(b.siteId) && Present(b.startDate) && Present(b.endDate))
    && (b.generationType == "bulk" ==> b.bulkSites.Some? && |b.bulkSites.value| > 0 && Present(b.date))
  }

  /** The first failing field check of an end-of-day request, in the handler's order. */
  function EodFieldError(b: EodRequest): (e: Option<string>)
    ensures e.None? <==> EodRequiredPresent(b) && EodTypeFieldsPresent(b)
    ensures !EodRequiredPresent(b) ==> e == Some(MissingEodFields)
    ensures EodRequiredPresent(b) && e.Some? ==>
      e.value == (if b.generationType == "single" then SingleNeeds
                  else if b.generationType == "range" then RangeNeeds else BulkNeeds)
  {
    if !EodRequiredPresent(b) then Some(MissingEodFields)
    else if b.generationType == "single" && !(Present(b.siteId) && Present(b.date)) then Some(SingleNeeds)
    else if b.generationType == "range" && !(Present(b.siteId) && Present(b.startDate) && Present(b.endDate)) then Some(RangeNeeds)
    else if b.generationType == "bulk" && !(b.bulkSites.Some? && |b.bulkSites.value| > 0 && Present(b.date)) then Some(BulkNeeds)
    else None
  }

  /** The guards of `generateGSAPEODFile`: fields (400), then credentials (401), then the import folder. */
  function EodDecision(b: EodRequest, creds: Option<AwsCredentials>): (d: Decision)
    ensures d.Reject? ==> d.status == 400 || d.status == 401
    ensures d.Reject? && d.status == 400 <==> EodFieldError(b).Some?
    ensures d.Reject? && d.status == 401 <==> EodFieldError(b).None? && creds.None?
    ensures d.Reject? && d.status == 400 ==> d.error == EodFieldError(b).value
    ensures d.Reject? && d.status == 401 ==> d.error == NoCredentialsForUpload
    ensures d.Proceed? ==> d.path == b.sftpUser + "/Import/EODSales"
  {
    match EodFieldError(b)
    case Some(e) => Reject(400, e)
    case None =>
      if creds.None? then Reject(401, NoCredentialsForUpload)
      else Proceed(b.sftpUser + "/Import/EODSales")
  }

  /** The object an end-of-day request has the store write, once its guards pass and its type is known. */
  function EodPut(b: EodRequest, creds: Option<AwsCredentials>): (p: Option<PutObject>)
    ensures p.Some? <==> EodDecision(b, creds).Proceed? && GenerateEodFile(b).Success?
    ensures p.Some? ==> p.value == PutObject(
      b.bucketName, EodDecision(b, creds).path + "/" + GenerateEodFile(b).value.fileName,
      GenerateEodFile(b).value.content, "text/plain")
  {
    match EodDecision(b, creds)
    case Reject(_, _) => None
    case Proceed(path) =>
      match GenerateEodFile(b)
      case Failure(_) => None
      case Success(f) => Some(PutObject(b.bucketName, path + "/" + f.fileName, f.content, "text/plain"))
  }

  /**
   * `generateGSAPEODFile`, given what the store did and the clock. An
   * unrecognised generation type passes the field checks and fails in the
   * generator, which the handler reports as a 500 with the generator's
   * message. A store failure is not an error status: it is a 200 whose body
   * says `success: false`.
   */
  function GenerateEod(b: EodRequest, creds: Option<AwsCredentials>, outcome: StoreOutcome, now: int): (r: Reply<UploadResponse>)
    ensures r.Err? && r.status == 400 <==> EodFieldError(b).Some?
    ensures r.Err? && r.status == 401 <==> EodFieldError(b).None? && creds.None?
    ensures r.Err? && r.status == 500 <==>
      EodDecision(b, creds).Proceed? && b.generationType !in {"single", "range", "bulk"}
    ensures r.Err? && r.status == 500 ==> r.error == "Unknown generation type: " + b.generationType
    ensures r.Err? ==> r.status in {400, 401, 500}
    ensures r.Ok? <==> EodPut(b, creds).Some?
    ensures r.Ok? ==> r.body == UploadTriggerFile(b.bucketName, GenerateEodFile(b).value.fileName,
                                                  b.sftpUser + "/Import/EODSales", outcome, now)
  {
    match EodDecision(b, creds)
    case Reject(status, e) => Err(status, e)
    case Proceed(path) =>
      match GenerateEodFile(b)
      case Failure(e) => Err(500, MessageOr(Some(e), InternalError))
      case Success(f) => Ok(UploadTriggerFile(b.bucketName, f.fileName, path, outcome, now))
  }

  /** The controller writes the trigger exactly where the generator says it belongs, and reports that place. */
  lemma EodUploadKeyIsGeneratorPath(b: EodRequest, creds: Option<AwsCredentials>, outcome: StoreOutcome, now: int)
    requires EodPut(b, creds).Some?
    ensures EodPut(b, creds).value.key == GenerateEodFile(b).value.s3Path
    ensures GenerateEod(b, creds, outcome, now).body.s3Path
         == "s3://" + b.bucketName + "/" + GenerateEodFile(b).value.s3Path
  {
  }

  /** A request whose fields fail is a 400 with or without credentials: the credential check comes second. */
  lemma EodFieldsCheckedBeforeCredentials(b: EodRequest, c1: Option<AwsCredentials>, c2: Option<AwsCredentials>)
    requires EodFieldError(b).Some?
    ensures EodDecision(b, c1) == EodDecision(b, c2)
  {
  }

  /** A complete request of a known type with credentials is always uploaded. */
  lemma CompleteEodRequestIsUploaded(b: EodRequest, creds: AwsCredentials)
    requires EodRequiredPresent(b) && EodTypeFieldsPresent(b)
    requires b.generationType in {"single", "range", "bulk"}
    ensures EodPut(b, Some(creds)).Some?
  {
  }

  // -----------------------------------------------------------------------
  // Generating a monthly trigger
  // -----------------------------------------------------------------------

  predicate MonthlyFieldsPresent(b: MonthlyRequest) {
    b.siteId != "" && b.year != "" && b.month != "" && b.sftpUser != "" && b.bucketName != ""
  }

  /** The guards of `generateGSAPMonthlyFile`: fields (400), credentials (401), then the import folder. */
  function MonthlyDecision(b: MonthlyRequest, creds: Option<AwsCredentials>): (d: Decision)
    ensures d == Reject(400, MissingMonthlyFields) <==> !MonthlyFieldsPresent(b)
    ensures d == Reject(401, NoCredentialsForUpload) <==> MonthlyFieldsPresent(b) && creds.None?
    ensures d.Proceed? <==> MonthlyFieldsPresent(b) && creds.Some?
    ensures d.Proceed? ==> d.path == b.sftpUser + "/Import/FuelMonthEndDips"
  {
    if !MonthlyFieldsPresent(b) then Reject(400, MissingMonthlyFields)
    else if creds.None? then Reject(401, NoCredentialsForUpload)
    else Proceed(b.sftpUser + "/Import/FuelMonthEndDips")
  }

  /** The object a monthly request has the store write: always an empty body. */
  function MonthlyPut(b: MonthlyRequest, creds: Option<AwsCredentials>): (p: Option<PutObject>)
    ensures p.Some? <==> MonthlyDecision(b, creds).Proceed?
    ensures p.Some? ==> p.value.content == "" && p.value.bucket == b.bucketName
    ensures p.Some? ==> p.value.key == GenerateMonthlyFile(b).s3Path
  {
    match MonthlyDecision(b, creds)
    case Reject(_, _) => None
    case Proceed(path) =>
      var f := GenerateMonthlyFile(b);
      Some(PutObject(b.bucketName, path + "/" + f.fileName, f.content, "text/plain"))
  }

  /** The generator's monthly key is the upload key of the import folder and the name. */
  lemma MonthlyImportKey(sftpUser: string, fileName: string)
    ensures sftpUser + "/Import/FuelMonthEndDips/" + fileName == UploadKey(sftpUser + "/Import/FuelMonthEndDips", fileName)
  {
    assert "/Import/FuelMonthEndDips" + "/" == "/Import/FuelMonthEndDips/";
    calc {
      UploadKey(sftpUser + "/Import/FuelMonthEndDips", fileName);
      (sftpUser + "/Import/FuelMonthEndDips") + "/" + fileName;
      sftpUser + ("/Import/FuelMonthEndDips" + "/") + fileName;
    }
  }

  /** `generateGSAPMonthlyFile`, given what the store did and the clock; the monthly generator cannot fail. */
  function GenerateMonthly(b: MonthlyRequest, creds: Option<AwsCredentials>, outcome: StoreOutcome, now: int): (r: Reply<UploadResponse>)
    ensures r.Err? <==> MonthlyDecision(b, creds).Reject?
    ensures r.Ok? ==>
      r.body == UploadTriggerFile(b.bucketName, MonthlyFileName(b), b.sftpUser + "/Import/FuelMonthEndDips", outcome, now)
    ensures r.Err? ==> r == Err(MonthlyDecision(b, creds).status, MonthlyDecision(b, creds).error)
    ensures r.Ok? ==> r.body.fileName == MonthlyFileName(b)
    ensures r.Ok? ==> r.body.s3Path == "s3://" + b.bucketName + "/" + GenerateMonthlyFile(b).s3Path
    ensures r.Ok? ==> (r.body.success <==> outcome.Stored?)
  {
    match MonthlyDecision(b, creds)
    case Reject(status, e) => Err(status, e)
    case Proceed(path) =>
      MonthlyImportKey(b.sftpUser, GenerateMonthlyFile(b).fileName);
      Ok(UploadTriggerFile(b.bucketName, GenerateMonthlyFile(b).fileName, path, outcome, now))
  }

  // -----------------------------------------------------------------------
  // Monitoring, reading and listing outputs
  // -----------------------------------------------------------------------

  /** The export folder of a service type; any other type has none. */
  function ExportPath(serviceType: string, sftpUser: string): (p: Option<string>)
    ensures p.Some? <==> serviceType == EodService || serviceType == MonthlyService
    ensures serviceType == EodService ==> p == Some(sftpUser + "/Export/EODSales")
    ensures serviceType == MonthlyService ==> p == Some(sftpUser + "/Export/FuelMonthEndDips")
  {
    if serviceType == EodService then Some(sftpUser + "/Export/EODSales")
    else if serviceType == MonthlyService then Some(sftpUser + "/Export/FuelMonthEndDips")
    else None
  }

  /** The guards of `monitorOutputFiles`: parameters (400), credentials (401), service type (400), then the export folder. */
  function MonitorDecision(serviceType: string, bucketName: string, sftpUser: string, triggerFileName: string,
                           creds: Option<AwsCredentials>): (d: Decision)
    ensures (serviceType == "" || bucketName == "" || sftpUser == "" || triggerFileName == "") ==>
      d == Reject(400, MissingMonitorParams)
    ensures d == Reject(401, NoCredentials) <==>
      serviceType != "" && bucketName != "" && sftpUser != "" && triggerFileName != "" && creds.None?
    ensures d == Reject(400, InvalidServiceType) <==>
      serviceType != "" && bucketName != "" && sftpUser != "" && triggerFileName != "" && creds.Some?
      && ExportPath(serviceType, sftpUser).None?
    ensures d.Proceed? <==>
      bucketName != "" && triggerFileName != "" && sftpUser != "" && creds.Some? && ExportPath(serviceType, sftpUser).Some?
    ensures d.Proceed? ==> d.path == ExportPath(serviceType, sftpUser).value
  {
    if serviceType == "" || bucketName == "" || sftpUser == "" || triggerFileName == "" then Reject(400, MissingMonitorParams)
    else if creds.None? then Reject(401, NoCredentials)
    else match ExportPath(serviceType, sftpUser)
      case None => Reject(400, InvalidServiceType)
      case Some(p) => Proceed(p)
  }

  /** `monitorOutputFiles`, given what listing the export folder returned. */
  function Monitor(serviceType: string, bucketName: string, sftpUser: string, triggerFileName: string,
                   creds: Option<AwsCredentials>, listing: Call<seq<ObjectInfo>>): (r: Reply<MatchResult>)
    ensures MonitorDecision(serviceType, bucketName, sftpUser, triggerFileName, creds).Reject? ==>
      r == Err(MonitorDecision(serviceType, bucketName, sftpUser, triggerFileName, creds).status,
               MonitorDecision(serviceType, bucketName, sftpUser, triggerFileName, creds).error)
    ensures MonitorDecision(serviceType, bucketName, sftpUser, triggerFileName, creds).Proceed? ==>
      match listing
      case Returned(files) => r == Ok(MonitorOutputFiles(files, triggerFileName, serviceType))
      case Threw(m) => r == Err(500, MessageOr(m, InternalError))
  {
    match MonitorDecision(serviceType, bucketName, sftpUser, triggerFileName, creds)
    case Reject(status, e) => Err(status, e)
    case Proceed(_) =>
      match listing
      case Returned(files) => Ok(MonitorOutputFiles(files, triggerFileName, serviceType))
      case Threw(m) => Err(500, MessageOr(m, InternalError))
  }

  /** A monitoring request the guards let through always has a service type the matcher knows. */
  lemma MonitoredServiceTypeIsKnown(serviceType: string, bucketName: string, sftpUser: string, triggerFileName: string,
                                    creds: Option<AwsCredentials>)
    requires MonitorDecision(serviceType, bucketName, sftpUser, triggerFileName, creds).Proceed?
    ensures serviceType == EodService || serviceType == MonthlyService
  {
  }

  /** The guards of `getFileContent`: parameters (400), credentials (401); the path is the requested file. */
  function ContentDecision(bucketName: string, filePath: string, creds: Option<AwsCredentials>): (d: Decision)
    ensures d == Reject(400, MissingContentParams) <==> bucketName == "" || filePath == ""
    ensures d == Reject(401, NoCredentials) <==> bucketName != "" && filePath != "" && creds.None?
    ensures d.Proceed? <==> bucketName != "" && filePath != "" && creds.Some?
    ensures d.Proceed? ==> d.path == filePath
  {
    if bucketName == "" || filePath == "" then Reject(400, MissingContentParams)
    else if creds.None? then Reject(401, NoCredentials)
    else Proceed(filePath)
  }

  /** `getFileContent`, given what the download returned. */
  function GetFileContent(bucketName: string, filePath: string, creds: Option<AwsCredentials>,
                          download: Call<FileContent>): (r: Reply<FileContent>)
    ensures ContentDecision(bucketName, filePath, creds).Reject? ==>
      r == Err(ContentDecision(bucketName, filePath, creds).status, ContentDecision(bucketName, filePath, creds).error)
    ensures ContentDecision(bucketName, filePath, creds).Proceed? ==>
      match download
      case Returned(c) => r == Ok(c)
      case Threw(m) => r == Err(500, MessageOr(m, InternalError))
  {
    match ContentDecision(bucketName, filePath, creds)
    case Reject(status, e) => Err(status, e)
    case Proceed(_) =>
      match download
      case Returned(c) => Ok(c)
      case Threw(m) => Err(500, MessageOr(m, InternalError))
  }

  /** The guards of `listOutputFiles`: parameters (400), credentials (401); the path is the requested folder. */
  function ListDecision(bucketName: string, exportPath: string, creds: Option<AwsCredentials>): (d: Decision)
    ensures d == Reject(400, MissingListParams) <==> bucketName == "" || exportPath == ""
    ensures d == Reject(401, NoCredentials) <==> bucketName != "" && exportPath != "" && creds.None?
    ensures d.Proceed? <==> bucketName != "" && exportPath != "" && creds.Some?
    ensures d.Proceed? ==> d.path == exportPath
  {
    if bucketName == "" || exportPath == "" then Reject(400, MissingListParams)
    else if creds.None? then Reject(401, NoCredentials)
    else Proceed(exportPath)
  }

  /** `listOutputFiles`, given what the listing returned: the files unchanged, wrapped as `{ files }`. */
  function ListOutputFiles(bucketName: string, exportPath: string, creds: Option<AwsCredentials>,
                           listing: Call<seq<ObjectInfo>>): (r: Reply<seq<ObjectInfo>>)
    ensures ListDecision(bucketName, exportPath, creds).Reject? ==>
      r == Err(ListDecision(bucketName, exportPath, creds).status, ListDecision(bucketName, exportPath, creds).error)
    ensures ListDecision(bucketName, exportPath, creds).Proceed? ==>
      match listing
      case Returned(files) => r == Ok(files)
      case Threw(m) => r == Err(500, MessageOr(m, InternalError))
  {
    match ListDecision(bucketName, exportPath, creds)
    case Reject(status, e) => Err(status, e)
    case Proceed(_) =>
      match listing
      case Returned(files) => Ok(files)
      case Threw(m) => Err(500, MessageOr(m, InternalError))
  }
}
