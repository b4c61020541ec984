/**
 * The upload history the two generator pages append to and the history
 * page reads: the `cloudServiceUploadHistory` browser-storage entry, a list
 * with the newest upload first and at most 100 entries. An absent entry
 * reads as the empty list.
 */
module UploadHistory {
  import opened Wrappers
  import opened S3Service

  /** One recorded upload (`UploadHistoryItem`); the upload time is a clock reading. */
  datatype HistoryItem = HistoryItem(
    id: string,
    fileName: string,
    serviceType: string,
    s3Path: string,
    uploadedAt: int,
    success: bool,
    error: Option<string>,
    bucketName: string,
    sftpUser: string,
    generationType: Option<string>,
    siteId: Option<string>)

  const MaxHistory: nat := 100

  /** What a generator page shows after an attempt: the backend's answer, or a message of its own. */
  datatype UploadResult = Uploaded(response: UploadResponse) | UploadFailed(error: string)

  const NoActiveProfile := "No active AWS profile selected. Please configure an AWS profile first."
  const UploadFallback := "Failed to generate and upload file"

  /** `existing.unshift(item)` followed by `existing.slice(0, 100)`. */
  function Prepend(item: HistoryItem, history: seq<HistoryItem>): (r: seq<HistoryItem>)
    ensures |r| == if |history| < MaxHistory then |history| + 1 else MaxHistory
    ensures r[0] == item
    ensures r[1..] == history[..|r| - 1]
  {
    var all := [item] + history;
    var r := if |all| <= MaxHistory then all else all[..MaxHistory];
    assert r[1..] == history[..|r| - 1];
    r
  }

  /** While the history has room, recording loses nothing. */
  lemma PrependWithRoom(item: HistoryItem, history: seq<HistoryItem>)
    requires |history| < MaxHistory
    ensures Prepend(item, history) == [item] + history
  {
    assert Prepend(item, history)[1..] == history;
  }

  /** Of two uploads recorded one after the other, the later is listed first and the earlier right behind it. */
  lemma {:induction false} LaterUploadListedFirst(a: HistoryItem, b: HistoryItem, history: seq<HistoryItem>)
    ensures Prepend(b, Prepend(a, history))[0] == b
    ensures Prepend(b, Prepend(a, history))[1] == a
    ensures Prepend(b, Prepend(a, history))[2..] == history[..|Prepend(b, Prepend(a, history))| - 2]
  {
    var once := Prepend(a, history);
    var twice := Prepend(b, once);
    assert twice[1..] == once[..|twice| - 1];
    assert twice[1] == once[0];
    assert twice[2..] == once[1..|twice| - 1];
    assert once[1..|twice| - 1] == once[1..][..|twice| - 2];
  }

  /** The history after recording each of `items` in turn. */
  function RecordAll(items: seq<HistoryItem>, history: seq<HistoryItem>): seq<HistoryItem>
    decreases |items|
  {
    if items == [] then history else Prepend(items[|items| - 1], RecordAll(items[..|items| - 1], history))
  }

  /** The history never holds more than 100 entries, however many uploads are recorded. */
  lemma {:induction false} HistoryStaysBounded(items: seq<HistoryItem>, history: seq<HistoryItem>)
    requires |history| <= MaxHistory
    ensures |RecordAll(items, history)| <= MaxHistory
    ensures items != [] ==> RecordAll(items, history)[0] == items[|items| - 1]
    decreases |items|
  {
    if items != [] {
      HistoryStaysBounded(items[..|items| - 1], history);
    }
  }

  /** The storage entry itself. */
  class HistoryStorage {
    var items: seq<HistoryItem>

    constructor (stored: seq<HistoryItem>)
      ensures items == stored
    {
      items := stored;
    }

    /** Read, put the new item first, keep the first 100, write back. */
    method Record(item: HistoryItem)
      modifies this
      ensures items == Prepend(item, old(items))
    {
      var existing := [item] + items;
      if |existing| > MaxHistory {
        existing := existing[..MaxHistory];
      }
      items := existing;
    }

    /** `localStorage.removeItem` */
    method Clear()
      modifies this
      ensures items == []
    {
      items := [];
    }
  }
}
