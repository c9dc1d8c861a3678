/**
 * The package downloader: a double-ended queue that clients fill, one worker that takes
 * downloads from its front, and the condition variable the worker sleeps on.
 */
module Downloads {
  import opened Common
  import opened RetryBackoff

  // ------------------------------------------------- one download, with retries

  datatype HttpStatus = Success | HttpError | DiskError

  datatype Outcome = Outcome(status: HttpStatus, code: int)

  datatype Reason = NoReason | DownloadFailure | DiskPersistenceFailure

  const MIN_RETRIES := 2

  function Retries(requested: nat): nat {
    if requested != 0 then requested else MIN_RETRIES
  }

  predicate Conclusive(o: Outcome) {
    o.status == Success || o.code == 404
  }

  /** The retry loop of downloader(): `outcomes(i)` is what the i-th attempt returns and
      `cancelled(i)` whether the download has been cancelled when the i-th wait ends.
      Attempts stop at the first conclusive outcome, at the first cancelled wait, or when
      the retries run out; the waits between them are Fibonacci numbers. */
  method Download(retries: nat, outcomes: nat -> Outcome, cancelled: nat -> bool, root5: real)
    returns (reason: Reason, attempts: nat, waits: seq<int>)
    requires retries < 0x100 && IsRoot5(root5)
    ensures 1 <= attempts <= if retries == 0 then 2 else retries
    ensures forall i :: 0 <= i < attempts - 1 ==> outcomes(i).status != Success && outcomes(i).code != 404
    ensures forall i :: 1 <= i < attempts ==> !cancelled(i)
    ensures forall i :: 0 <= i < |waits| ==> waits[i] == Fib(i + 3)
    ensures var limit := if retries == 0 then 2 else retries; var last := outcomes(attempts - 1);
      var conclusive := last.status == Success || last.code == 404;
      || (|waits| == attempts - 1 && (conclusive || attempts == limit))
      || (|waits| == attempts < limit && cancelled(attempts) && !conclusive)
    ensures var last := outcomes(attempts - 1);
      && (reason == DownloadFailure <==> last.status == HttpError || last.code == 404)
      && (reason == DiskPersistenceFailure <==> last.status == DiskError && last.code != 404)
      && (reason == NoReason <==> last.status == Success && last.code != 404)
  {
    var status, code := Success, 0;
    var waitTime := 1;
    waits, attempts := [], 0;
    assert Fib(2) == 1;
    for i := 0 to Retries(retries)
      invariant attempts == i
      invariant i == 0 ==> waits == []
      invariant i > 0 ==> |waits| == i - 1 && status == outcomes(i - 1).status && code == outcomes(i - 1).code
      invariant waitTime == Fib(|waits| + 2)
      invariant FibonacciWaits(waits)
      invariant forall j :: 0 <= j < i ==> !Conclusive(outcomes(j))
      invariant forall j :: 1 <= j < i ==> !cancelled(j)
    {
      if i != 0 {
        RoundsToSuccessor(|waits| + 2, root5);
        waitTime := Rounded(waitTime, root5);
        waits := waits + [waitTime];
        if cancelled(i) {
          break;
        }
      }
      attempts := attempts + 1;
      status, code := outcomes(i).status, outcomes(i).code;
      if status == Success || code == 404 {
        break;
      }
    }
    if code == 404 {
      status := HttpError;
    }
    reason := match status
      case DiskError => DiskPersistenceFailure
      case HttpError => DownloadFailure
      case Success => NoReason;
  }

  // ------------------------------------------------- the queue

  /** A queued download: its number in order of issue, and the priority asked for. */
  datatype Item = Item(number: nat, priority: bool)

  /** The id handed to the client for the `number`-th download. */
  function IdOf(number: nat): nat { Wrap(1001 + number) }

  /** Unsigned 32-bit arithmetic. */
  function Wrap(n: nat): nat { n % WORD }

  datatype Queue = Queue(items: seq<Item>, current: Option<Item>, issued: seq<Item>, finished: seq<Item>)

  const EMPTY := Queue([], None, [], [])

  function Push(q: Queue, priority: bool): Queue {
    var di := Item(|q.issued|, priority);
    q.(items := if priority then [di] + q.items else q.items + [di], issued := q.issued + [di])
  }

  /** getNext: takes the front when nothing is in progress. */
  function Take(q: Queue): Queue {
    if q.items != [] && q.current == None then q.(items := q.items[1..], current := Some(q.items[0])) else q
  }

  function Finish(q: Queue): Queue {
    if q.current.Some? then q.(current := None, finished := q.finished + [q.current.value]) else q
  }

  /** Priority downloads first, the newest of them first; then the others, oldest first. */
  predicate Before(a: Item, b: Item) {
    if a.priority then !b.priority || a.number > b.number
    else !b.priority && a.number < b.number
  }

  ghost predicate Ordered(items: seq<Item>) {
    forall i, j :: 0 <= i < j < |items| ==> Before(items[i], items[j])
  }

  function CurrentItems(q: Queue): multiset<Item> {
    if q.current.Some? then multiset{q.current.value} else multiset{}
  }

  ghost predicate Balanced(q: Queue) {
    multiset(q.items) + CurrentItems(q) + multiset(q.finished) == multiset(q.issued)
  }

  ghost predicate QueueOk(q: Queue) {
    && (forall i :: 0 <= i < |q.issued| ==> q.issued[i].number == i)
    && (forall i :: 0 <= i < |q.items| ==> q.items[i] in q.issued)
    && Ordered(q.items)
    && Balanced(q)
  }

  lemma PushKeepsOrder(q: Queue, priority: bool)
    requires QueueOk(q)
    ensures Ordered(Push(q, priority).items)
  {
    var di := Item(|q.issued|, priority);
    forall i | 0 <= i < |q.items|
      ensures q.items[i].number < |q.issued|
    {
      var k :| 0 <= k < |q.issued| && q.issued[k] == q.items[i];
    }
    var items := Push(q, priority).items;
    if priority {
      forall i, j | 0 <= i < j < |items|
        ensures Before(items[i], items[j])
      {
        assert items[j] == q.items[j - 1];
        if i > 0 {
          assert items[i] == q.items[i - 1];
        }
      }
    }
  }

  lemma PushKeepsBalance(q: Queue, priority: bool)
    requires Balanced(q)
    ensures Balanced(Push(q, priority))
  {
    var di := Item(|q.issued|, priority);
    assert multiset(Push(q, priority).items) == multiset(q.items) + multiset{di};
  }

  lemma PushKeepsQueue(q: Queue, priority: bool)
    requires QueueOk(q)
    ensures QueueOk(Push(q, priority))
  {
    PushKeepsOrder(q, priority);
    PushKeepsBalance(q, priority);
    hide Ordered, Balanced;
    var q' := Push(q, priority);
    forall i | 0 <= i < |q'.items|
      ensures q'.items[i] in q'.issued
    {
      if q'.items[i] in q.items {
        assert q'.items[i] in q.issued;
      } else {
        assert q'.issued[|q.issued|] == q'.items[i];
      }
    }
  }

  lemma TakeKeepsQueue(q: Queue)
    requires QueueOk(q)
    ensures QueueOk(Take(q))
  {
    if q.items != [] && q.current == None {
      assert q.items == [q.items[0]] + q.items[1..];
    }
  }

  /** What is taken is one of the downloads queued, and comes before all that stay. */
  lemma TakesTheFirst(q: Queue)
    requires QueueOk(q) && q.items != [] && q.current == None
    ensures var q' := Take(q);
      && q'.current.Some? && q'.current.value in q.items
      && multiset(q'.items) == multiset(q.items) - multiset{q'.current.value}
      && forall i :: 0 <= i < |q'.items| ==> Before(q'.current.value, q'.items[i])
  {
    assert q.items == [q.items[0]] + q.items[1..];
    hide Before, Balanced;
  }

  lemma FinishKeepsQueue(q: Queue)
    requires QueueOk(q)
    ensures QueueOk(Finish(q))
  {
  }

  lemma {:induction false} OnceInIssued(issued: seq<Item>, k: nat)
    requires k < |issued| && forall i :: 0 <= i < |issued| ==> issued[i].number == i
    ensures multiset(issued)[issued[k]] == 1
  {
    var front, last := issued[..|issued| - 1], issued[|issued| - 1];
    assert issued == front + [last];
    if k < |front| {
      OnceInIssued(front, k);
    } else {
      assert last !in front;
    }
  }

  /** Every issued download is in exactly one place, once. */
  lemma IssuedIsSomewhere(q: Queue, k: nat)
    requires QueueOk(q) && k < |q.issued|
    ensures multiset(q.items)[q.issued[k]] + CurrentItems(q)[q.issued[k]] + multiset(q.finished)[q.issued[k]] == 1
  {
    OnceInIssued(q.issued, k);
  }

  lemma CounterGivesId(n: nat)
    ensures Wrap(Wrap(1000 + n) + 1) == IdOf(n) == Wrap(1000 + (n + 1))
  {
  }

  /** Two ids coincide only when 2^32 downloads or more lie between them. */
  lemma IdsAreDistinct(a: nat, b: nat)
    requires a < b < a + WORD
    ensures IdOf(a) != IdOf(b)
  {
  }

  /** The queue, its worker slot and the id counter as fields updated in place. */
  class PackageDownloader {
    var nextDownloadId: nat
    var downloadQueue: seq<Item>
    var inprogressDownload: Option<Item>
    var issued: seq<Item>     // history
    var finished: seq<Item>   // history

    ghost function Contents(): Queue
      reads this
    {
      Queue(downloadQueue, inprogressDownload, issued, finished)
    }

    ghost predicate Valid()
      reads this
    {
      QueueOk(Contents()) && nextDownloadId == Wrap(1000 + |issued|)
    }

    constructor ()
      ensures Valid() && Contents() == EMPTY
    {
      nextDownloadId, downloadQueue, inprogressDownload, issued, finished := 1000, [], None, [], [];
    }

    method Request(priority: bool) returns (downloadId: nat)
      requires Valid()
      modifies this
      ensures Valid() && Contents() == Push(old(Contents()), priority)
      ensures downloadId == IdOf(|old(issued)|) == (1001 + |old(issued)|) % WORD
    {
      ghost var after := Push(Contents(), priority);
      PushKeepsQueue(Contents(), priority);
      CounterGivesId(|issued|);
      assert IdOf(|issued|) == (1001 + |issued|) % WORD;
      hide QueueOk, IdOf, Wrap;
      nextDownloadId := Wrap(nextDownloadId + 1);
      downloadId := nextDownloadId;
      var di := Item(|issued|, priority);
      if priority {
        downloadQueue := [di] + downloadQueue;
      } else {
        downloadQueue := downloadQueue + [di];
      }
      issued := issued + [di];
      assert Contents() == after;
    }

    method GetNext() returns (next: Option<Item>)
      requires Valid()
      modifies this`downloadQueue, this`inprogressDownload
      ensures Valid() && Contents() == Take(old(Contents())) && next == inprogressDownload
    {
      TakeKeepsQueue(Contents());
      hide QueueOk;
      if |downloadQueue| > 0 && inprogressDownload == None {
        inprogressDownload := Some(downloadQueue[0]);
        downloadQueue := downloadQueue[1..];
      }
      next := inprogressDownload;
    }

    method Reset()
      requires Valid()
      modifies this`inprogressDownload, this`finished
      ensures Valid() && Contents() == Finish(old(Contents()))
    {
      FinishKeepsQueue(Contents());
      hide QueueOk;
      if inprogressDownload.Some? {
        finished := finished + [inprogressDownload.value];
      }
      inprogressDownload := None;
    }
  }

  // ------------------------------------------------- worker and clients, interleaved

  datatype Worker =
    | Checking     // about to test the `done` flag
    | Fetching     // about to call getNext
    | Working      // downloading
    | Deciding     // getNext returned nothing; not yet waiting
    | Sleeping     // in cv.wait
    | Exited

  datatype System = System(
    queue: Queue, done: bool, worker: Worker,
    gapPush: bool,    // history: a download was queued while the worker was Deciding
    gapStop: bool)    // history: `done` was set while the worker was Fetching or Deciding

  const INITIAL := System(EMPTY, false, Checking, false, false)

  datatype Step =
    | ClientDownload(priority: bool) | ClientStop
    | Check | Fetch | Complete | Sleep | SpuriousWake

  predicate Enabled(s: System, a: Step) {
    match a
    case ClientDownload(priority) => true
    case ClientStop => true
    case Check => s.worker == Checking
    case Fetch => s.worker == Fetching
    case Complete => s.worker == Working
    case Sleep => s.worker == Deciding
    case SpuriousWake => s.worker == Sleeping
  }

  /** notify_one: wakes the worker if it is waiting, and is lost otherwise. */
  function Notified(w: Worker): Worker {
    if w == Sleeping then Checking else w
  }

  function Apply(s: System, a: Step): System
    requires Enabled(s, a)
  {
    match a
    case ClientDownload(priority) =>
      s.(queue := Push(s.queue, priority), worker := Notified(s.worker),
         gapPush := s.gapPush || s.worker == Deciding)
    case ClientStop =>
      s.(done := true, worker := Notified(s.worker),
         gapStop := s.gapStop || s.worker == Fetching || s.worker == Deciding)
    case Check =>
      s.(worker := if s.done then Exited else Fetching, gapStop := false)
    case Fetch =>
      var q := Take(s.queue);
      s.(queue := q, worker := if q.current.Some? then Working else Deciding, gapPush := false)
    case Complete => s.(queue := Finish(s.queue), worker := Checking)
    case Sleep => s.(worker := Sleeping)
    case SpuriousWake => s.(worker := Checking)
  }

  ghost function Exec(steps: seq<Step>): Option<System> {
    if steps == [] then Some(INITIAL)
    else
      var before := Exec(steps[..|steps| - 1]);
      if before.Some? && Enabled(before.value, steps[|steps| - 1]) then
        Some(Apply(before.value, steps[|steps| - 1]))
      else None
  }

  ghost predicate Inv(s: System) {
    && QueueOk(s.queue)
    && (s.queue.current.Some? <==> s.worker == Working)
    && (s.worker in {Deciding, Sleeping} ==> (s.queue.items != [] <==> s.gapPush))
    && (s.worker in {Fetching, Deciding, Sleeping} ==> (s.done <==> s.gapStop))
  }

  lemma StepKeepsInv(s: System, a: Step)
    requires Inv(s) && Enabled(s, a)
    ensures Inv(Apply(s, a))
  {
    hide QueueOk;
    match a
    case ClientDownload(priority) => PushKeepsQueue(s.queue, priority);
    case Fetch => TakeKeepsQueue(s.queue);
    case Complete => FinishKeepsQueue(s.queue);
    case _ =>
  }

  lemma {:induction false} EveryInterleaving(steps: seq<Step>)
    requires Exec(steps).Some?
    ensures Inv(Exec(steps).value)
  {
    if steps != [] {
      hide Inv, Apply, Enabled;
      EveryInterleaving(steps[..|steps| - 1]);
      StepKeepsInv(Exec(steps[..|steps| - 1]).value, steps[|steps| - 1]);
      return;
    }
    assert QueueOk(EMPTY);
  }

  /** In every interleaving the queue is ordered, what is taken next comes before all that
      stays, and every download issued is in exactly one of queue, progress and finished. */
  lemma QueueIsFair(steps: seq<Step>)
    requires Exec(steps).Some?
    ensures var q := Exec(steps).value.queue;
      && Ordered(q.items)
      && (forall i :: 1 <= i < |q.items| ==> Before(q.items[0], q.items[i]))
      && (forall k :: 0 <= k < |q.issued| ==>
            multiset(q.items)[q.issued[k]] + CurrentItems(q)[q.issued[k]] + multiset(q.finished)[q.issued[k]] == 1)
  {
    EveryInterleaving(steps);
    var q := Exec(steps).value.queue;
    forall k | 0 <= k < |q.issued|
      ensures multiset(q.items)[q.issued[k]] + CurrentItems(q)[q.issued[k]] + multiset(q.finished)[q.issued[k]] == 1
    {
      IssuedIsSomewhere(q, k);
    }
  }

  /** The worker sleeps on a non-empty queue exactly when a download came between its last
      look at the queue and its wait, and sleeps through a stop exactly when the stop came
      between its last look at the flag and its wait. */
  lemma WakeupIsLostIff(steps: seq<Step>)
    requires Exec(steps).Some? && Exec(steps).value.worker == Sleeping
    ensures var s := Exec(steps).value;
      && (s.queue.items != [] <==> s.gapPush)
      && (s.done <==> s.gapStop)
  {
    EveryInterleaving(steps);
  }

  lemma ExecExtends(steps: seq<Step>, a: Step)
    requires Exec(steps).Some? && Enabled(Exec(steps).value, a)
    ensures Exec(steps + [a]) == Some(Apply(Exec(steps).value, a))
  {
    assert (steps + [a])[..|steps + [a]| - 1] == steps;
  }

  /** It can happen: the first download is queued in that gap, and only another client
      call or a spurious wake-up can move the worker on. */
  lemma WakeupCanBeLost()
    ensures exists steps :: Exec(steps).Some? && var s := Exec(steps).value;
      && s.worker == Sleeping && s.queue.items != []
      && forall a :: Enabled(s, a) ==> a.ClientDownload? || a.ClientStop? || a.SpuriousWake?
  {
    ExecExtends([], Check);
    ExecExtends([] + [Check], Fetch);
    ExecExtends([] + [Check] + [Fetch], ClientDownload(false));
    ExecExtends([] + [Check] + [Fetch] + [ClientDownload(false)], Sleep);
    var s := Exec([] + [Check] + [Fetch] + [ClientDownload(false)] + [Sleep]).value;
    assert s.worker == Sleeping && s.queue.items == [Item(0, false)];
  }

  /** So can a stop: it is set after the worker has looked at the flag, and the worker
      sleeps on although it was told to end. */
  lemma StopCanBeLost()
    ensures exists steps :: Exec(steps).Some? && var s := Exec(steps).value;
      && s.worker == Sleeping && s.done
      && forall a :: Enabled(s, a) ==> a.ClientDownload? || a.ClientStop? || a.SpuriousWake?
  {
    ExecExtends([], Check);
    ExecExtends([] + [Check], ClientStop);
    ExecExtends([] + [Check] + [ClientStop], Fetch);
    ExecExtends([] + [Check] + [ClientStop] + [Fetch], Sleep);
    var s := Exec([] + [Check] + [ClientStop] + [Fetch] + [Sleep]).value;
    assert s.worker == Sleeping && s.done;
  }
}
