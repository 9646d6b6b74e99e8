/** The background `StorageManager`: the work queue kept in the extension's
    local storage area and the settings kept in its synced area. Each area
    slot is a value that may be absent; an operation takes the slot's
    current content and returns its new content. Storage failures that
    surface as thrown exceptions are not modelled. */
module WorkQueue {
  import opened Values

  datatype Status = Pending | Processing | Completed | Failed

  /** The payload fields a report request reads. */
  datatype Payload = Payload(url: string, content: string, title: string)

  /** `WorkItem`; `kind` is the item's `type`. */
  datatype WorkItem = WorkItem(
    id: string, kind: string, status: Status, payload: Payload,
    retryCount: Option<int>, error: Option<string>, createdAt: int, updatedAt: int)

  /** `Partial<WorkItem>`: the fields an update sets; `updatedAt` is always
      replaced by the current time. */
  datatype WorkItemUpdate = WorkItemUpdate(
    id: Patch<string>, kind: Patch<string>, status: Patch<Status>, payload: Patch<Payload>,
    retryCount: Patch<Option<int>>, error: Patch<Option<string>>, createdAt: Patch<int>)

  /** An update that sets only the status. */
  function StatusUpdate(status: Status): WorkItemUpdate {
    WorkItemUpdate(Keep, Keep, Set(status), Keep, Keep, Keep, Keep)
  }

  /** `StorageResult`. */
  datatype StorageResult = StorageResult(success: bool, error: Option<string>)

  const NotFound := "Work item not found"

  datatype Settings = Settings(autoGenerate: bool, reportFormat: string, maxReportLength: int)

  /** `getDefaultSettings`. */
  const DefaultSettings := Settings(true, "markdown", 5000)

  /** `getSettings`: the stored settings, or the defaults. */
  function GetSettings(slot: Option<Settings>): (s: Settings)
    ensures slot.None? ==> s == DefaultSettings
    ensures slot.Some? ==> s == slot.value
  {
    slot.GetOr(DefaultSettings)
  }

  /** `saveSettings`: the new slot content and the reported result. */
  function SaveSettings(slot: Option<Settings>, settings: Settings): (r: (Option<Settings>, StorageResult))
    ensures r.0 == Some(settings) && r.1.success
  {
    (Some(settings), StorageResult(true, None))
  }

  /** Saved settings are read back unchanged, whatever was stored before. */
  lemma SettingsRoundTrip(slot: Option<Settings>, settings: Settings)
    ensures GetSettings(SaveSettings(slot, settings).0) == settings
  {
  }

  /** `getWorkQueue`: the stored queue, or the empty queue. */
  function GetWorkQueue(slot: Option<seq<WorkItem>>): (q: seq<WorkItem>)
    ensures slot.None? ==> q == []
    ensures slot.Some? ==> q == slot.value
  {
    slot.GetOr([])
  }

  /** `addToWorkQueue`: the item goes to the end of the queue. */
  function AddToWorkQueue(slot: Option<seq<WorkItem>>, item: WorkItem): (r: (Option<seq<WorkItem>>, StorageResult))
    ensures r.1.success && r.0.Some?
    ensures var before := GetWorkQueue(slot);
      && |r.0.value| == |before| + 1
      && r.0.value[..|before|] == before
      && r.0.value[|before|] == item
  {
    (Some(GetWorkQueue(slot) + [item]), StorageResult(true, None))
  }

  /** `findIndex` by id: the first position holding the id. */
  function FindIndex(queue: seq<WorkItem>, id: string): (r: Option<nat>)
    ensures r.Some? ==>
      r.value < |queue| && queue[r.value].id == id && forall j | 0 <= j < r.value :: queue[j].id != id
    ensures r.None? ==> forall j | 0 <= j < |queue| :: queue[j].id != id
    decreases |queue|
  {
    if queue == [] then None
    else if queue[0].id == id then Some(0)
    else
      match FindIndex(queue[1..], id)
      case None => None
      case Some(i) => Some(i + 1)
  }

  /** `{ ...item, ...updates, updatedAt: now }`. */
  function Merge(item: WorkItem, updates: WorkItemUpdate, now: int): (r: WorkItem)
    ensures r.updatedAt == now
    ensures r.id == updates.id.Apply(item.id) && (updates.id.Keep? ==> r.id == item.id)
    ensures r.kind == updates.kind.Apply(item.kind)
    ensures r.status == updates.status.Apply(item.status)
    ensures r.payload == updates.payload.Apply(item.payload)
    ensures r.retryCount == updates.retryCount.Apply(item.retryCount)
    ensures r.error == updates.error.Apply(item.error)
    ensures r.createdAt == updates.createdAt.Apply(item.createdAt)
  {
    WorkItem(
      updates.id.Apply(item.id), updates.kind.Apply(item.kind), updates.status.Apply(item.status),
      updates.payload.Apply(item.payload), updates.retryCount.Apply(item.retryCount),
      updates.error.Apply(item.error), updates.createdAt.Apply(item.createdAt), now)
  }

  /** `updateWorkItem`: the first item with the id is merged with the update
      and stamped with `now`; an unknown id is reported and nothing is
      written. */
  function UpdateWorkItem(slot: Option<seq<WorkItem>>, id: string, updates: WorkItemUpdate, now: int)
    : (r: (Option<seq<WorkItem>>, StorageResult))
    ensures FindIndex(GetWorkQueue(slot), id).None? ==>
      r.0 == slot && r.1 == StorageResult(false, Some(NotFound))
    ensures FindIndex(GetWorkQueue(slot), id).Some? ==>
      var before := GetWorkQueue(slot);
      var i := FindIndex(before, id).value;
      && r.1.success && r.0.Some?
      && |r.0.value| == |before|
      && r.0.value[i] == Merge(before[i], updates, now)
      && (forall j | 0 <= j < |before| && j != i :: r.0.value[j] == before[j])
  {
    var queue := GetWorkQueue(slot);
    match FindIndex(queue, id)
    case None => (slot, StorageResult(false, Some(NotFound)))
    case Some(i) => (Some(queue[i := Merge(queue[i], updates, now)]), StorageResult(true, None))
  }

  /** An update that keeps the id leaves the first position of every id
      where it was, so a later update by the same id reaches the same item. */
  lemma UpdateKeepsPositions(slot: Option<seq<WorkItem>>, id: string, updates: WorkItemUpdate, now: int, other: string)
    requires updates.id.Keep?
    ensures FindIndex(GetWorkQueue(UpdateWorkItem(slot, id, updates, now).0), other)
      == FindIndex(GetWorkQueue(slot), other)
  {
    var before := GetWorkQueue(slot);
    var after := GetWorkQueue(UpdateWorkItem(slot, id, updates, now).0);
    assert |after| == |before| && forall j | 0 <= j < |before| :: after[j].id == before[j].id;
    FindIndexByIds(before, after, other);
  }

  /** Two queues with the same ids at the same positions find every id at
      the same position. */
  lemma {:induction false} FindIndexByIds(a: seq<WorkItem>, b: seq<WorkItem>, id: string)
    requires |a| == |b| && forall j | 0 <= j < |a| :: a[j].id == b[j].id
    ensures FindIndex(a, id) == FindIndex(b, id)
    decreases |a|
  {
    if a != [] && a[0].id != id {
      FindIndexByIds(a[1..], b[1..], id);
    }
  }

  /** An item stays on the queue when it is neither completed nor failed. */
  predicate Active(item: WorkItem) {
    item.status != Completed && item.status != Failed
  }

  /** `filter` keeping the active items, in order. */
  function ActiveItems(queue: seq<WorkItem>): (r: seq<WorkItem>)
    ensures |r| <= |queue|
    ensures forall x | x in r :: x in queue && Active(x)
    decreases |queue|
  {
    if queue == [] then []
    else (if Active(queue[0]) then [queue[0]] else []) + ActiveItems(queue[1..])
  }

  /** Filtering two parts of a queue and joining them is filtering the
      whole: the relative order of the kept items does not change. */
  lemma {:induction false} ActiveItemsSplit(a: seq<WorkItem>, b: seq<WorkItem>)
    ensures ActiveItems(a + b) == ActiveItems(a) + ActiveItems(b)
    decreases |a|
  {
    if a == [] {
      assert a + b == b;
    } else {
      assert (a + b)[1..] == a[1..] + b;
      ActiveItemsSplit(a[1..], b);
    }
  }

  /** Every active item of the queue is kept. */
  lemma {:induction false} ActiveItemsKeep(queue: seq<WorkItem>, i: nat)
    requires i < |queue| && Active(queue[i])
    ensures queue[i] in ActiveItems(queue)
    decreases i
  {
    if i > 0 {
      ActiveItemsKeep(queue[1..], i - 1);
    }
  }

  /** A queue of active items only is kept whole. */
  lemma {:induction false} ActiveItemsOfActive(queue: seq<WorkItem>)
    requires forall x | x in queue :: Active(x)
    ensures ActiveItems(queue) == queue
    decreases |queue|
  {
    if queue != [] {
      assert queue[0] in queue;
      assert forall x | x in queue[1..] :: x in queue;
      ActiveItemsOfActive(queue[1..]);
    }
  }

  /** `clearCompletedWork`: the queue without its completed and failed
      items, in the original order. */
  function ClearCompletedWork(slot: Option<seq<WorkItem>>): (r: (Option<seq<WorkItem>>, StorageResult))
    ensures r.1.success && r.0.Some?
    ensures forall x | x in r.0.value :: x in GetWorkQueue(slot) && Active(x)
  {
    (Some(ActiveItems(GetWorkQueue(slot))), StorageResult(true, None))
  }

  /** Exactly the finished items go: an item of the queue is kept if and
      only if it is active. */
  lemma ClearKeepsExactlyActive(slot: Option<seq<WorkItem>>, i: nat)
    requires i < |GetWorkQueue(slot)|
    ensures GetWorkQueue(slot)[i] in ClearCompletedWork(slot).0.value <==> Active(GetWorkQueue(slot)[i])
  {
    if Active(GetWorkQueue(slot)[i]) {
      ActiveItemsKeep(GetWorkQueue(slot), i);
    }
  }

  /** Clearing twice is clearing once. */
  lemma ClearIdempotent(slot: Option<seq<WorkItem>>)
    ensures ClearCompletedWork(ClearCompletedWork(slot).0).0 == ClearCompletedWork(slot).0
  {
    ActiveItemsOfActive(ActiveItems(GetWorkQueue(slot)));
  }
}
