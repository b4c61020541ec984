/**
 * The upload-history page: the stored history shown newest first, narrowed
 * by a search term, a service filter and a status filter, with the
 * success/failure counts, and a clear button that empties storage.
 */
module HistoryPage {
  import opened Wrappers
  import opened Strings
  import opened Sequences
  import opened Sorting
  import opened S3Service
  import opened UploadHistory

  const AllServices := "all"
  const AllStatuses := "all"
  const SuccessStatus := "success"

  /** The case-insensitive substring test of the search box. */
  predicate Mentions(field: string, term: string) {
    Includes(ToLower(field), ToLower(term))
  }

  /** The search test: file name, bucket, SFTP user, or a present, non-empty site id. */
  predicate MatchesSearch(item: HistoryItem, term: string) {
    || Mentions(item.fileName, term)
    || Mentions(item.bucketName, term)
    || Mentions(item.sftpUser, term)
    || (Present(item.siteId) && Mentions(item.siteId.value, term))
  }

  /** The status test for a filter other than `all`: `success` keeps successes, anything else failures. */
  predicate MatchesStatus(item: HistoryItem, status: string) {
    if status == SuccessStatus then item.success else !item.success
  }

  /** Whether an item survives all three filters; a filter that is off keeps everything. */
  predicate Kept(item: HistoryItem, term: string, service: string, status: string) {
    && (term == "" || MatchesSearch(item, term))
    && (service == AllServices || item.serviceType == service)
    && (status == AllStatuses || MatchesStatus(item, status))
  }

  /** The list the page shows: the history items that pass the filters, in history order. */
  function Visible(items: seq<HistoryItem>, term: string, service: string, status: string): (r: seq<HistoryItem>)
    ensures IsSubsequence(r, items)
    ensures forall x :: x in r <==> x in items && Kept(x, term, service, status)
    ensures forall x :: multiset(r)[x] == if Kept(x, term, service, status) then multiset(items)[x] else 0
  {
    Filter(items, (x: HistoryItem) => Kept(x, term, service, status))
  }

  /** `filterHistory`: the search, service and status filters applied one after another, each only when set. */
  method FilterHistory(items: seq<HistoryItem>, term: string, service: string, status: string)
    returns (filtered: seq<HistoryItem>)
    ensures filtered == Visible(items, term, service, status)
  {
    var bySearch: HistoryItem -> bool := (x: HistoryItem) => term == "" || MatchesSearch(x, term);
    var byService: HistoryItem -> bool := (x: HistoryItem) => service == AllServices || x.serviceType == service;
    var byStatus: HistoryItem -> bool := (x: HistoryItem) => status == AllStatuses || MatchesStatus(x, status);
    var searchAndService: HistoryItem -> bool := (x: HistoryItem) => bySearch(x) && byService(x);
    var all: HistoryItem -> bool := (x: HistoryItem) => searchAndService(x) && byStatus(x);

    filtered := items;
    if term != "" {
      FilterSameTest(items, (x: HistoryItem) => MatchesSearch(x, term), bySearch);
      filtered := Filter(filtered, (x: HistoryItem) => MatchesSearch(x, term));
    } else {
      FilterKeepsAll(items, bySearch);
    }
    assert filtered == Filter(items, bySearch);

    if service != AllServices {
      FilterSameTest(filtered, (x: HistoryItem) => x.serviceType == service, byService);
      filtered := Filter(filtered, (x: HistoryItem) => x.serviceType == service);
    } else {
      FilterKeepsAll(filtered, byService);
    }
    FilterTwice(items, bySearch, byService, searchAndService);
    assert filtered == Filter(items, searchAndService);

    if status != AllStatuses {
      FilterSameTest(filtered, (x: HistoryItem) => MatchesStatus(x, status), byStatus);
      filtered := Filter(filtered, (x: HistoryItem) => MatchesStatus(x, status));
    } else {
      FilterKeepsAll(filtered, byStatus);
    }
    FilterTwice(items, searchAndService, byStatus, all);
    FilterSameTest(items, all, (x: HistoryItem) => Kept(x, term, service, status));
  }

  predicate Succeeded(item: HistoryItem) {
    item.success
  }

  predicate Failed(item: HistoryItem) {
    !item.success
  }

  /** The "Successful" count. */
  function SuccessCount(items: seq<HistoryItem>): nat {
    |Filter(items, Succeeded)|
  }

  /** The "Failed" count. */
  function FailedCount(items: seq<HistoryItem>): nat {
    |Filter(items, Failed)|
  }

  /** The "GSAP-EOD" count: the items recorded under that service type. */
  function EodCount(items: seq<HistoryItem>): nat {
    |Filter(items, (x: HistoryItem) => x.serviceType == EodService)|
  }

  function NegatedUploadTime(item: HistoryItem): int {
    -item.uploadedAt
  }

  /** The loaded history: the stored items reordered newest upload first. */
  function NewestFirst(items: seq<HistoryItem>): (r: seq<HistoryItem>)
    ensures multiset(r) == multiset(items)
    ensures forall i, j :: 0 <= i < j < |r| ==> r[i].uploadedAt >= r[j].uploadedAt
  {
    var r := SortBy(items, NegatedUploadTime);
    assert forall i, j :: 0 <= i < j < |r| ==> NegatedUploadTime(r[i]) <= NegatedUploadTime(r[j]);
    r
  }

  // -----------------------------------------------------------------------
  // Properties
  // -----------------------------------------------------------------------

  /** With no search term and both filters on `all`, the page shows the whole history. */
  lemma NoFilterShowsEverything(items: seq<HistoryItem>)
    ensures Visible(items, "", AllServices, AllStatuses) == items
  {
    FilterKeepsAll(items, (x: HistoryItem) => Kept(x, "", AllServices, AllStatuses));
  }

  /** Every item is counted once: the successful and the failed counts add up to the total. */
  lemma CountsAddUp(items: seq<HistoryItem>)
    ensures SuccessCount(items) + FailedCount(items) == |items|
  {
    FilterCountsAddUp(items, Succeeded, Failed);
  }

  /** The success filter and the failure filter split the visible list between them. */
  lemma StatusFiltersSplitTheList(items: seq<HistoryItem>, term: string, service: string)
    ensures |Visible(items, term, service, SuccessStatus)| + |Visible(items, term, service, "failed")|
         == |Visible(items, term, service, AllStatuses)|
  {
    var base := Visible(items, term, service, AllStatuses);
    var ok: HistoryItem -> bool := (x: HistoryItem) => Kept(x, term, service, AllStatuses);
    FilterTwice(items, ok, Succeeded, (x: HistoryItem) => Kept(x, term, service, SuccessStatus));
    FilterTwice(items, ok, Failed, (x: HistoryItem) => Kept(x, term, service, "failed"));
    FilterCountsAddUp(base, Succeeded, Failed);
  }

  /** The search is case-insensitive: a term and its lower-cased form find the same items. */
  lemma SearchIgnoresCase(item: HistoryItem, term: string)
    ensures MatchesSearch(item, ToLower(term)) == MatchesSearch(item, term)
    ensures Kept(item, ToLower(term), AllServices, AllStatuses) == Kept(item, term, AllServices, AllStatuses)
  {
    ToLowerTwice(term);
  }

  /** Loading an already newest-first history leaves its order alone. */
  lemma LoadingSortedHistoryKeepsIt(items: seq<HistoryItem>)
    requires forall i, j :: 0 <= i < j < |items| ==> items[i].uploadedAt >= items[j].uploadedAt
    ensures NewestFirst(items) == items
  {
    assert SortedBy(items, NegatedUploadTime);
    SortSorted(items, NegatedUploadTime);
  }

  // -----------------------------------------------------------------------
  // The page
  // -----------------------------------------------------------------------

  class HistoryView {
    var historyItems: seq<HistoryItem>
    var filteredItems: seq<HistoryItem>
    var searchTerm: string
    var serviceFilter: string
    var statusFilter: string
    const storage: HistoryStorage

    /** The shown list is always the filtered history (the page's effect reruns on every change). */
    predicate Valid()
      reads this
    {
      filteredItems == Visible(historyItems, searchTerm, serviceFilter, statusFilter)
    }

    /** Mounting loads the stored history, newest first, with no filter set. */
    constructor (storage: HistoryStorage)
      ensures Valid() && this.storage == storage
      ensures historyItems == NewestFirst(storage.items) && filteredItems == historyItems
      ensures searchTerm == "" && serviceFilter == AllServices && statusFilter == AllStatuses
    {
      this.storage := storage;
      historyItems := NewestFirst(storage.items);
      searchTerm := "";
      serviceFilter := AllServices;
      statusFilter := AllStatuses;
      new;
      NoFilterShowsEverything(historyItems);
      filteredItems := historyItems;
    }

    /** `loadUploadHistory` */
    method Load()
      modifies this
      ensures Valid() && historyItems == NewestFirst(storage.items)
      ensures searchTerm == old(searchTerm) && serviceFilter == old(serviceFilter) && statusFilter == old(statusFilter)
    {
      historyItems := NewestFirst(storage.items);
      filteredItems := FilterHistory(historyItems, searchTerm, serviceFilter, statusFilter);
    }

    method SetSearchTerm(term: string)
      modifies this
      ensures Valid() && searchTerm == term
      ensures historyItems == old(historyItems) && serviceFilter == old(serviceFilter) && statusFilter == old(statusFilter)
    {
      searchTerm := term;
      filteredItems := FilterHistory(historyItems, searchTerm, serviceFilter, statusFilter);
    }

    method SetServiceFilter(service: string)
      modifies this
      ensures Valid() && serviceFilter == service
      ensures historyItems == old(historyItems) && searchTerm == old(searchTerm) && statusFilter == old(statusFilter)
    {
      serviceFilter := service;
      filteredItems := FilterHistory(historyItems, searchTerm, serviceFilter, statusFilter);
    }

    method SetStatusFilter(status: string)
      modifies this
      ensures Valid() && statusFilter == status
      ensures historyItems == old(historyItems) && searchTerm == old(searchTerm) && serviceFilter == old(serviceFilter)
    {
      statusFilter := status;
      filteredItems := FilterHistory(historyItems, searchTerm, serviceFilter, statusFilter);
    }

    /** `clearHistory`, once the user has confirmed: storage, the history and the shown list are emptied. */
    method ClearHistory(confirmed: bool)
      requires Valid()
      modifies this, storage
      ensures Valid()
      ensures confirmed ==> storage.items == [] && historyItems == [] && filteredItems == []
      ensures !confirmed ==> storage.items == old(storage.items) && historyItems == old(historyItems)
      ensures searchTerm == old(searchTerm) && serviceFilter == old(serviceFilter) && statusFilter == old(statusFilter)
    {
      if confirmed {
        storage.Clear();
        historyItems := [];
        filteredItems := [];
      }
    }
  }
}
