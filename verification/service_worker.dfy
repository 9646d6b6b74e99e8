/** `ServiceWorkerManager`: the life-cycle flag of the background worker and
    the processing of the work queue. Each pending item is marked as
    processing, handed to the report pipeline, and then marked completed,
    returned to pending for another attempt, or marked failed. The report
    pipeline's answer for the k-th pending item is the oracle's k-th value;
    the current time is a parameter. */
module ServiceWorker {
  import opened Values
  import opened WorkQueue
  import ErrorHandler

  /** The one work-item type the worker knows. */
  const GenerateReport := "GENERATE_REPORT"
  const UnknownTypePrefix := "Unknown work item type: "

  /** What the report pipeline did for one item: it returned a result, or it
      threw, with the thrown `Error`'s message or "Unknown error". */
  datatype ReportOutcome = Returned(result: StorageResult) | Raised(message: string)

  /** The worker's `isInitialized` flag. */
  datatype Worker = Worker(initialized: bool)

  /** `initialize`: the worker becomes active and reports success. */
  function Initialize(w: Worker): (r: (Worker, bool))
    ensures r.0.initialized && r.1
  {
    (Worker(true), true)
  }

  /** `cleanup`: the worker becomes inactive. */
  function Cleanup(w: Worker): (r: Worker)
    ensures !r.initialized
  {
    Worker(false)
  }

  /** `isActive`. */
  function IsActive(w: Worker): bool {
    w.initialized
  }

  /** Active after initialising and inactive after cleaning up, from any
      state and in any order of repeats. */
  lemma LifeCycle(w: Worker)
    ensures IsActive(Initialize(w).0) && IsActive(Initialize(Initialize(w).0).0)
    ensures !IsActive(Cleanup(w)) && !IsActive(Cleanup(Initialize(w).0))
    ensures IsActive(Initialize(Cleanup(w)).0)
  {
  }

  /** `(item.retryCount || 0)`. */
  function Retries(item: WorkItem): int {
    item.retryCount.GetOr(0)
  }

  /** The update applied once the item's work is over: completed on
      success; after a failure, back to pending with one more retry while
      `shouldRetry` allows it, else failed with the result's error; failed
      with a message when the type is unknown or the pipeline threw. */
  function FinalUpdate(item: WorkItem, outcome: ReportOutcome): (u: WorkItemUpdate)
    ensures u.status.Set? && u.status.value != Processing
    ensures u.id.Keep?
    ensures u.status.value == Completed <==>
      item.kind == GenerateReport && outcome.Returned? && outcome.result.success
    ensures u.status.value == Pending <==>
      item.kind == GenerateReport && outcome.Returned? && !outcome.result.success && Retries(item) + 1 < 3
    ensures u.status.value == Pending ==> u.retryCount == Set(Some(Retries(item) + 1))
    ensures u.status.value != Pending ==> u.retryCount.Keep?
    ensures item.kind != GenerateReport ==> u.error == Set(Some(UnknownTypePrefix + item.kind))
    ensures item.kind == GenerateReport && outcome.Raised? ==> u.error == Set(Some(outcome.message))
    ensures item.kind == GenerateReport && outcome.Returned? && !outcome.result.success && Retries(item) + 1 >= 3 ==>
      u.error == Set(outcome.result.error)
    ensures u.status.value == Completed || u.status.value == Pending ==> u.error.Keep?
    ensures u.kind.Keep? && u.payload.Keep? && u.createdAt.Keep?
  {
    if item.kind != GenerateReport then
      WorkItemUpdate(Keep, Keep, Set(Failed), Keep, Keep, Set(Some(UnknownTypePrefix + item.kind)), Keep)
    else
      match outcome
      case Raised(message) =>
        WorkItemUpdate(Keep, Keep, Set(Failed), Keep, Keep, Set(Some(message)), Keep)
      case Returned(result) =>
        if result.success then StatusUpdate(Completed)
        else if ErrorHandler.ShouldRetry(ErrorHandler.ApiError, Retries(item) + 1) then
          WorkItemUpdate(Keep, Keep, Set(Pending), Keep, Set(Some(Retries(item) + 1)), Keep, Keep)
        else
          WorkItemUpdate(Keep, Keep, Set(Failed), Keep, Keep, Set(result.error), Keep)
  }

  /** The queue slot after an item has been marked as processing, and after
      its final update. */
  datatype Step = Step(marked: Option<seq<WorkItem>>, done: Option<seq<WorkItem>>)

  /** `processWorkItem`: both updates go through `updateWorkItem` by the
      item's id, so they reach the first queued item with that id. */
  function ProcessWorkItem(slot: Option<seq<WorkItem>>, item: WorkItem, outcome: ReportOutcome, now: int)
    : (s: Step)
    ensures FindIndex(GetWorkQueue(slot), item.id).Some? ==>
      var i := FindIndex(GetWorkQueue(slot), item.id).value;
      && |GetWorkQueue(s.marked)| == |GetWorkQueue(slot)| == |GetWorkQueue(s.done)|
      && GetWorkQueue(s.marked)[i].status == Processing
      && GetWorkQueue(s.done)[i].status == FinalUpdate(item, outcome).status.value
      && GetWorkQueue(s.done)[i].updatedAt == now
    ensures FindIndex(GetWorkQueue(slot), item.id).None? ==> s.marked == s.done == slot
  {
    var marked := UpdateWorkItem(slot, item.id, StatusUpdate(Processing), now).0;
    UpdateKeepsPositions(slot, item.id, StatusUpdate(Processing), now, item.id);
    Step(marked, UpdateWorkItem(marked, item.id, FinalUpdate(item, outcome), now).0)
  }

  /** Processing an item changes only the first queued item with its id;
      the queue keeps its length. */
  lemma ProcessWorkItemFrame(slot: Option<seq<WorkItem>>, item: WorkItem, outcome: ReportOutcome, now: int, j: nat)
    requires j < |GetWorkQueue(slot)|
    requires FindIndex(GetWorkQueue(slot), item.id) != Some(j)
    ensures |GetWorkQueue(ProcessWorkItem(slot, item, outcome, now).done)| == |GetWorkQueue(slot)|
    ensures GetWorkQueue(ProcessWorkItem(slot, item, outcome, now).done)[j] == GetWorkQueue(slot)[j]
  {
    UpdateKeepsPositions(slot, item.id, StatusUpdate(Processing), now, item.id);
  }

  /** The items that were pending when the queue was read, in queue order. */
  function PendingItems(queue: seq<WorkItem>): (r: seq<WorkItem>)
    ensures |r| <= |queue|
    ensures forall x | x in r :: x in queue && x.status == Pending
    decreases |queue|
  {
    if queue == [] then []
    else (if queue[0].status == Pending then [queue[0]] else []) + PendingItems(queue[1..])
  }

  /** Every pending item of the queue is in the snapshot. */
  lemma {:induction false} PendingItemsKeep(queue: seq<WorkItem>, i: nat)
    requires i < |queue| && queue[i].status == Pending
    ensures queue[i] in PendingItems(queue)
    decreases i
  {
    if i > 0 {
      PendingItemsKeep(queue[1..], i - 1);
    }
  }

  /** The snapshot items from position `k` on, processed in order, the k-th
      with the oracle's k-th outcome. */
  function ProcessItems(slot: Option<seq<WorkItem>>, items: seq<WorkItem>, outcomes: nat -> ReportOutcome,
    k: nat, now: int): (r: Option<seq<WorkItem>>)
    requires k <= |items|
    ensures |GetWorkQueue(r)| == |GetWorkQueue(slot)|
    ensures r.None? ==> slot.None?
    decreases |items| - k
  {
    if k == |items| then slot
    else
      var step := ProcessWorkItem(slot, items[k], outcomes(k), now);
      ProcessWorkItemLength(slot, items[k], outcomes(k), now);
      ProcessItems(step.done, items, outcomes, k + 1, now)
  }

  lemma ProcessWorkItemLength(slot: Option<seq<WorkItem>>, item: WorkItem, outcome: ReportOutcome, now: int)
    ensures var done := ProcessWorkItem(slot, item, outcome, now).done;
      |GetWorkQueue(done)| == |GetWorkQueue(slot)| && (done.None? ==> slot.None?)
  {
  }

  /** `processQueue`: the items pending when the queue is read are
      processed in queue order; the call reports success. */
  function ProcessQueue(slot: Option<seq<WorkItem>>, outcomes: nat -> ReportOutcome, now: int)
    : (r: (Option<seq<WorkItem>>, StorageResult))
    ensures r.1.success
    ensures |GetWorkQueue(r.0)| == |GetWorkQueue(slot)|
  {
    (ProcessItems(slot, PendingItems(GetWorkQueue(slot)), outcomes, 0, now), StorageResult(true, None))
  }

  /** The ids of the items a run processes. */
  function Ids(items: seq<WorkItem>): set<string> {
    set x | x in items :: x.id
  }

  /** A queued item whose id is not that of any processed item is left as
      it was. */
  lemma {:induction false} ProcessItemsFrame(slot: Option<seq<WorkItem>>, items: seq<WorkItem>,
    outcomes: nat -> ReportOutcome, k: nat, now: int, j: nat)
    requires k <= |items| && j < |GetWorkQueue(slot)|
    requires GetWorkQueue(slot)[j].id !in Ids(items[k..])
    ensures GetWorkQueue(ProcessItems(slot, items, outcomes, k, now))[j] == GetWorkQueue(slot)[j]
    decreases |items| - k
  {
    if k < |items| {
      var step := ProcessWorkItem(slot, items[k], outcomes(k), now);
      assert items[k] in items[k..];
      assert FindIndex(GetWorkQueue(slot), items[k].id) != Some(j);
      ProcessWorkItemFrame(slot, items[k], outcomes(k), now, j);
      assert forall x | x in items[k + 1..] :: x in items[k..];
      ProcessItemsFrame(step.done, items, outcomes, k + 1, now, j);
    }
  }

  /** Items that were not pending when the queue was read, and whose id no
      pending item shares, come out of a run unchanged. */
  lemma ProcessQueueFrame(slot: Option<seq<WorkItem>>, outcomes: nat -> ReportOutcome, now: int, j: nat)
    requires j < |GetWorkQueue(slot)|
    requires GetWorkQueue(slot)[j].id !in Ids(PendingItems(GetWorkQueue(slot)))
    ensures GetWorkQueue(ProcessQueue(slot, outcomes, now).0)[j] == GetWorkQueue(slot)[j]
  {
    var items := PendingItems(GetWorkQueue(slot));
    assert items[0..] == items;
    ProcessItemsFrame(slot, items, outcomes, 0, now, j);
  }

  /** No two queued items share an id. */
  predicate DistinctIds(queue: seq<WorkItem>) {
    forall a, b | 0 <= a < b < |queue| :: queue[a].id != queue[b].id
  }

  /** The first queued item with the id ends up marked as processing and
      then merged with the final update. */
  lemma ProcessWorkItemAt(slot: Option<seq<WorkItem>>, item: WorkItem, outcome: ReportOutcome, now: int)
    requires FindIndex(GetWorkQueue(slot), item.id).Some?
    ensures var i := FindIndex(GetWorkQueue(slot), item.id).value;
      GetWorkQueue(ProcessWorkItem(slot, item, outcome, now).done)[i]
        == Merge(Merge(GetWorkQueue(slot)[i], StatusUpdate(Processing), now), FinalUpdate(item, outcome), now)
  {
    UpdateKeepsPositions(slot, item.id, StatusUpdate(Processing), now, item.id);
  }

  /** Processing an item leaves every position's id as it was. */
  lemma ProcessWorkItemIds(slot: Option<seq<WorkItem>>, item: WorkItem, outcome: ReportOutcome, now: int)
    ensures var done := GetWorkQueue(ProcessWorkItem(slot, item, outcome, now).done);
      |done| == |GetWorkQueue(slot)| && forall a | 0 <= a < |done| :: done[a].id == GetWorkQueue(slot)[a].id
  {
    var before := GetWorkQueue(slot);
    var done := GetWorkQueue(ProcessWorkItem(slot, item, outcome, now).done);
    ProcessWorkItemLength(slot, item, outcome, now);
    forall a | 0 <= a < |done| ensures done[a].id == before[a].id {
      if FindIndex(before, item.id) == Some(a) {
        ProcessWorkItemAt(slot, item, outcome, now);
      } else {
        ProcessWorkItemFrame(slot, item, outcome, now, a);
      }
    }
  }

  /** With distinct ids, the queued item that shares its id with the m-th
      processed item gets that item's two updates, with the m-th outcome. */
  lemma {:induction false} ProcessItemsAt(slot: Option<seq<WorkItem>>, items: seq<WorkItem>,
    outcomes: nat -> ReportOutcome, k: nat, now: int, j: nat, m: nat)
    requires k <= m < |items|
    requires DistinctIds(GetWorkQueue(slot)) && DistinctIds(items)
    requires j < |GetWorkQueue(slot)| && GetWorkQueue(slot)[j].id == items[m].id
    ensures GetWorkQueue(ProcessItems(slot, items, outcomes, k, now))[j]
      == Merge(Merge(GetWorkQueue(slot)[j], StatusUpdate(Processing), now), FinalUpdate(items[m], outcomes(m)), now)
    decreases |items| - k
  {
    var before := GetWorkQueue(slot);
    var step := ProcessWorkItem(slot, items[k], outcomes(k), now);
    ProcessWorkItemIds(slot, items[k], outcomes(k), now);
    var after := GetWorkQueue(step.done);
    if k < m {
      assert items[k].id != items[m].id;
      assert FindIndex(before, items[k].id) != Some(j);
      ProcessWorkItemFrame(slot, items[k], outcomes(k), now, j);
      ProcessItemsAt(step.done, items, outcomes, k + 1, now, j, m);
    } else {
      var p := FindIndex(before, items[m].id);
      assert p.Some? && before[p.value].id == before[j].id;
      assert p == Some(j);
      ProcessWorkItemAt(slot, items[m], outcomes(m), now);
      forall x | x in items[m + 1..] ensures x.id != items[m].id {
        var b :| 0 <= b < |items[m + 1..]| && items[m + 1..][b] == x;
        assert x == items[m + 1 + b];
      }
      ProcessItemsFrame(step.done, items, outcomes, m + 1, now, j);
    }
  }

  /** Taking the pending items of two parts and joining them is taking the
      pending items of the whole. */
  lemma {:induction false} PendingItemsSplit(a: seq<WorkItem>, b: seq<WorkItem>)
    ensures PendingItems(a + b) == PendingItems(a) + PendingItems(b)
    decreases |a|
  {
    if a == [] {
      assert a + b == b;
    } else {
      assert (a + b)[1..] == a[1..] + b;
      PendingItemsSplit(a[1..], b);
    }
  }

  /** A pending item is the snapshot's entry numbered by the pending items
      queued before it. */
  lemma PendingItemsAt(queue: seq<WorkItem>, j: nat)
    requires j < |queue| && queue[j].status == Pending
    ensures |PendingItems(queue[..j])| < |PendingItems(queue)|
    ensures PendingItems(queue)[|PendingItems(queue[..j])|] == queue[j]
  {
    assert queue == queue[..j] + queue[j..];
    PendingItemsSplit(queue[..j], queue[j..]);
    assert queue[j..][0] == queue[j];
  }

  /** The snapshot of a queue with distinct ids has distinct ids. */
  lemma {:induction false} PendingItemsDistinct(queue: seq<WorkItem>)
    requires DistinctIds(queue)
    ensures DistinctIds(PendingItems(queue))
    decreases |queue|
  {
    if queue != [] {
      var tail := queue[1..];
      assert DistinctIds(tail) by {
        forall a, b | 0 <= a < b < |tail| ensures tail[a].id != tail[b].id {
          assert tail[a] == queue[a + 1] && tail[b] == queue[b + 1];
        }
      }
      PendingItemsDistinct(tail);
      var rest := PendingItems(tail);
      forall x | x in rest ensures x.id != queue[0].id {
        var c :| 0 <= c < |tail| && tail[c] == x;
        assert x == queue[c + 1];
      }
      if queue[0].status == Pending {
        var r := [queue[0]] + rest;
        forall a, b | 0 <= a < b < |r| ensures r[a].id != r[b].id {
          assert r[b] == rest[b - 1] && rest[b - 1] in rest;
          if a > 0 {
            assert r[a] == rest[a - 1];
          }
        }
      }
    }
  }

  /** `processQueue` over a queue with distinct ids: a pending item gets the
      processing mark and then the final update for the outcome numbered by
      the pending items before it; every other item is left as it was. */
  lemma ProcessQueueItem(slot: Option<seq<WorkItem>>, outcomes: nat -> ReportOutcome, now: int, j: nat)
    requires DistinctIds(GetWorkQueue(slot)) && j < |GetWorkQueue(slot)|
    ensures var queue := GetWorkQueue(slot);
      var after := GetWorkQueue(ProcessQueue(slot, outcomes, now).0);
      var k := |PendingItems(queue[..j])|;
      queue[j].status == Pending ==>
        && k < |PendingItems(queue)| && PendingItems(queue)[k] == queue[j]
        && after[j] == Merge(Merge(queue[j], StatusUpdate(Processing), now), FinalUpdate(queue[j], outcomes(k)), now)
    ensures var queue := GetWorkQueue(slot);
      queue[j].status != Pending ==> GetWorkQueue(ProcessQueue(slot, outcomes, now).0)[j] == queue[j]
  {
    var queue := GetWorkQueue(slot);
    var items := PendingItems(queue);
    PendingItemsDistinct(queue);
    if queue[j].status == Pending {
      PendingItemsAt(queue, j);
      ProcessItemsAt(slot, items, outcomes, 0, now, j, |PendingItems(queue[..j])|);
    } else {
      forall x | x in items ensures x.id != queue[j].id {
        var c :| 0 <= c < |queue| && queue[c] == x;
        assert c != j;
      }
      ProcessQueueFrame(slot, outcomes, now, j);
    }
  }

  /** No queued item has been retried more than twice. */
  predicate RetriesBounded(queue: seq<WorkItem>) {
    forall i | 0 <= i < |queue| :: Retries(queue[i]) <= 2
  }

  /** Processing an item keeps every retry count at two or below. */
  lemma ProcessWorkItemBounded(slot: Option<seq<WorkItem>>, item: WorkItem, outcome: ReportOutcome, now: int)
    requires RetriesBounded(GetWorkQueue(slot))
    ensures RetriesBounded(GetWorkQueue(ProcessWorkItem(slot, item, outcome, now).done))
  {
    var before := GetWorkQueue(slot);
    var after := GetWorkQueue(ProcessWorkItem(slot, item, outcome, now).done);
    UpdateKeepsPositions(slot, item.id, StatusUpdate(Processing), now, item.id);
    forall j | 0 <= j < |after| ensures Retries(after[j]) <= 2 {
      if FindIndex(before, item.id) != Some(j) {
        ProcessWorkItemFrame(slot, item, outcome, now, j);
      }
    }
  }

  /** Retry counts stay at two or below over a whole run. */
  lemma {:induction false} ProcessItemsBounded(slot: Option<seq<WorkItem>>, items: seq<WorkItem>,
    outcomes: nat -> ReportOutcome, k: nat, now: int)
    requires k <= |items|
    requires RetriesBounded(GetWorkQueue(slot))
    ensures RetriesBounded(GetWorkQueue(ProcessItems(slot, items, outcomes, k, now)))
    decreases |items| - k
  {
    if k < |items| {
      var step := ProcessWorkItem(slot, items[k], outcomes(k), now);
      ProcessWorkItemBounded(slot, items[k], outcomes(k), now);
      ProcessItemsBounded(step.done, items, outcomes, k + 1, now);
    }
  }

  /** A run of the queue never lets a retry count exceed two. */
  lemma ProcessQueueBounded(slot: Option<seq<WorkItem>>, outcomes: nat -> ReportOutcome, now: int)
    requires RetriesBounded(GetWorkQueue(slot))
    ensures RetriesBounded(GetWorkQueue(ProcessQueue(slot, outcomes, now).0))
  {
    ProcessItemsBounded(slot, PendingItems(GetWorkQueue(slot)), outcomes, 0, now);
  }

  /** A report item that keeps failing goes back to pending after its first
      and second failed attempts and is failed on the third. */
  lemma FailsOnThirdAttempt(item: WorkItem, failure: StorageResult, now: int)
    requires item.kind == GenerateReport && item.status == Pending && Retries(item) == 0
    requires !failure.success
    ensures var outcomes := (k: nat) => Returned(failure);
      var q1 := ProcessQueue(Some([item]), outcomes, now).0;
      var q2 := ProcessQueue(q1, outcomes, now).0;
      var q3 := ProcessQueue(q2, outcomes, now).0;
      && GetWorkQueue(q1)[0].status == Pending && Retries(GetWorkQueue(q1)[0]) == 1
      && GetWorkQueue(q2)[0].status == Pending && Retries(GetWorkQueue(q2)[0]) == 2
      && GetWorkQueue(q3)[0].status == Failed && GetWorkQueue(q3)[0].error == failure.error
  {
    var outcomes := (k: nat) => Returned(failure);
    var q1 := OneRound(Some([item]), item, outcomes, now);
    var i1 := GetWorkQueue(q1)[0];
    var q2 := OneRound(q1, i1, outcomes, now);
    var i2 := GetWorkQueue(q2)[0];
    var q3 := OneRound(q2, i2, outcomes, now);
  }

  /** A run over a one-item queue whose item is pending processes exactly
      that item with the first outcome. */
  lemma OneRound(slot: Option<seq<WorkItem>>, item: WorkItem, outcomes: nat -> ReportOutcome, now: int)
    returns (r: Option<seq<WorkItem>>)
    requires slot == Some([item]) && item.status == Pending
    ensures r == ProcessQueue(slot, outcomes, now).0
    ensures |GetWorkQueue(r)| == 1
    ensures var u := FinalUpdate(item, outcomes(0));
      GetWorkQueue(r)[0] == Merge(Merge(item, StatusUpdate(Processing), now), u, now)
    ensures r == Some([GetWorkQueue(r)[0]])
  {
    var queue := [item];
    assert PendingItems(queue) == [item] by {
      assert queue[1..] == [];
    }
    var step := ProcessWorkItem(slot, item, outcomes(0), now);
    assert FindIndex(queue, item.id) == Some(0);
    var m := Merge(item, StatusUpdate(Processing), now);
    assert step.marked == Some([m]) by {
      assert queue[0 := m] == [m];
    }
    assert FindIndex([m], item.id) == Some(0);
    var d := Merge(m, FinalUpdate(item, outcomes(0)), now);
    assert step.done == Some([d]) by {
      assert [m][0 := d] == [d];
    }
    r := step.done;
    assert ProcessItems(slot, [item], outcomes, 0, now) == ProcessItems(step.done, [item], outcomes, 1, now);
  }
}
