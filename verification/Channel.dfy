/**
 The bounded channel between the archive reader and the import workers: the
 queue holds at most `capacity` items, a shared flag cancels everyone, and
 every step of every thread is an event. Items are of any type.
 */
module Channels {
  import opened Wrappers
  import opened Sequences

  // ----------------------------------------------------------- rows of a worker

  /** The rows a worker has written: in open inserts, or accepted by the server. */
  datatype RowLog<R> = RowLog(pending: multiset<R>, committed: multiset<R>) {
    function Written(): multiset<R> { pending + committed }

    function Write(rows: multiset<R>): RowLog<R> { RowLog(pending + rows, committed) }

    /** Only pending rows can be committed. */
    function Commit(rows: multiset<R>): RowLog<R> { RowLog(pending - rows, committed + pending * rows) }
  }

  /** The rows of a list of items. */
  function RowsOf<T, R>(rows: T -> multiset<R>, items: seq<T>): multiset<R> {
    if items == [] then multiset{} else rows(items[0]) + RowsOf(rows, items[1..])
  }

  lemma {:induction false} RowsOfConcat<T, R>(rows: T -> multiset<R>, xs: seq<T>, ys: seq<T>)
    ensures RowsOf(rows, xs + ys) == RowsOf(rows, xs) + RowsOf(rows, ys)
  {
    if xs == [] {
      assert xs + ys == ys;
    } else {
      assert (xs + ys)[1..] == xs[1..] + ys;
      RowsOfConcat(rows, xs[1..], ys);
    }
  }

  lemma RowsOfOne<T, R>(rows: T -> multiset<R>, x: T)
    ensures RowsOf(rows, [x]) == rows(x) && RowsOf(rows, []) == multiset{}
  {
    assert [x][1..] == [];
  }

  /** Fewer items, in whatever order, have fewer rows. */
  lemma {:induction false} RowsOfFewer<T, R>(rows: T -> multiset<R>, xs: seq<T>, ys: seq<T>)
    requires multiset(xs) <= multiset(ys)
    ensures RowsOf(rows, xs) <= RowsOf(rows, ys)
    ensures multiset(xs) == multiset(ys) ==> RowsOf(rows, xs) == RowsOf(rows, ys)
  {
    hide RowsOf;
    RowsOfNone(rows);
    if xs == [] {
      if multiset(xs) == multiset(ys) {
        OnlyEmpty(ys);
      }
    } else {
      var i := FindFirst(xs, ys);
      var before, after := ys[..i], ys[i + 1..];
      assert xs == [xs[0]] + xs[1..];
      RowsOfFewer(rows, xs[1..], before + after);
      RowsOfConcat(rows, [xs[0]], xs[1..]);
      RowsOfConcat(rows, before, after);
      RowsOfConcat(rows, before + [xs[0]], after);
      RowsOfConcat(rows, before, [xs[0]]);
    }
  }

  lemma RowsOfNone<T, R>(rows: T -> multiset<R>)
    ensures RowsOf(rows, []) == multiset{}
  {
  }

  // -------------------------------------------------------------- the threads

  /** `left` are the rows of the item still to be written; a failed worker drops what it held. */
  datatype Phase<T, R> = Running | Busy(item: T, left: multiset<R>) | Finishing | Done | Failed(dropped: seq<T>)
  datatype ChannelWorker<T, R> = ChannelWorker(phase: Phase<T, R>, processed: seq<T>, log: RowLog<R>)

  /** The producer walks `pending`; an unreadable entry is `None`. */
  datatype Channel<T, R> = Channel(
    pending: seq<Option<T>>, hand: Option<T>, queue: seq<T>, open: bool,
    producerError: bool, cancelled: bool, workers: seq<ChannelWorker<T, R>>, skipped: nat, lost: seq<T>)

  /**
   What a worker does. Rows of its item are written a few at a time, and an open
   insert may be finalised at any time; a flush that fails may have finalised
   some inserts before.
   */
  datatype WorkerAction<R> =
    | Receive | WriteRows(rows: multiset<R>) | CommitRows(rows: multiset<R>) | Process | ProcessFails
    | IdleFlush | FlushFails(rows: multiset<R>) | SeeCancelled | SeeDisconnected
    | EndCommits | EndFails(rows: multiset<R>, raises: bool) | Panic

  datatype ChannelEvent<R> =
    | TakeNext | TakeCancelled | SendNext | SendCancelled | SendDisconnected | CloseChannel
    | ByWorker(worker: nat, action: WorkerAction<R>)

  /** A worker's step: its new state, whether it took from the queue, whether it raised the flag. */
  datatype WorkerMove<T, R> = WorkerMove(after: ChannelWorker<T, R>, pop: bool, cancel: bool)

  function Idle<T, R>(workers: nat): seq<ChannelWorker<T, R>> {
    seq(workers, i => ChannelWorker(Running, [], RowLog(multiset{}, multiset{})))
  }

  function Start<T, R>(workers: nat, entries: seq<Option<T>>): Channel<T, R> {
    Channel(entries, None, [], true, false, false, Idle(workers), 0, [])
  }

  predicate Exited<T, R>(w: ChannelWorker<T, R>) { w.phase.Done? || w.phase.Failed? }

  predicate AllExited<T, R>(ws: seq<ChannelWorker<T, R>>) { forall i :: 0 <= i < |ws| ==> Exited(ws[i]) }

  function Held<T, R>(w: ChannelWorker<T, R>): seq<T> {
    match w.phase
    case Busy(item, _) => [item]
    case Failed(dropped) => dropped
    case _ => []
  }

  function Owned<T, R>(w: ChannelWorker<T, R>): seq<T> { w.processed + Held(w) }

  /** A worker that stops with an error drops what it was holding; its open inserts are abandoned. */
  function Fails<T, R>(w: ChannelWorker<T, R>, log: RowLog<R>, cancel: bool): Option<WorkerMove<T, R>> {
    Some(WorkerMove(ChannelWorker(Failed(Held(w)), w.processed, log), false, cancel))
  }

  function Stays<T, R>(w: ChannelWorker<T, R>): Option<WorkerMove<T, R>> { Some(WorkerMove(w, false, false)) }

  function WorkerNext<T, R>(rows: T -> multiset<R>, queue: seq<T>, open: bool, cancelled: bool, w: ChannelWorker<T, R>, action: WorkerAction<R>)
    : (m: Option<WorkerMove<T, R>>)
    // An item stays with the worker that received it.
    ensures m.Some? && m.value.pop ==> queue != [] && Owned(m.value.after) == Owned(w) + [queue[0]]
    ensures m.Some? && !m.value.pop ==> Owned(m.value.after) == Owned(w)
    ensures m.Some? ==> !Exited(w)
    ensures m.Some? && (m.value.after.phase.Finishing? || m.value.after.phase.Done?) ==>
      w.phase.Finishing? || (!open && queue == [])
  {
    match action
    case Receive =>
      if w.phase.Running? && queue != [] then Some(WorkerMove(w.(phase := Busy(queue[0], rows(queue[0]))), true, false)) else None
    case WriteRows(some) =>
      if w.phase.Busy? && some <= w.phase.left
      then Stays(w.(phase := Busy(w.phase.item, w.phase.left - some), log := w.log.Write(some))) else None
    case CommitRows(some) => if w.phase.Busy? then Stays(w.(log := w.log.Commit(some))) else None
    case Process =>
      if w.phase.Busy? && w.phase.left == multiset{} then Stays(ChannelWorker(Running, w.processed + [w.phase.item], w.log)) else None
    case ProcessFails => if w.phase.Busy? then Fails(w, w.log, true) else None
    case IdleFlush => if w.phase.Running? && queue == [] then Stays(w.(log := w.log.Commit(w.log.pending))) else None
    case FlushFails(some) => if w.phase.Running? && queue == [] then Fails(w, w.log.Commit(some), true) else None
    case SeeCancelled => if (w.phase.Running? || w.phase.Finishing?) && cancelled then Fails(w, w.log, false) else None
    case SeeDisconnected =>
      if w.phase.Running? && queue == [] && !open then Stays(w.(phase := Finishing)) else None
    case EndCommits => if w.phase.Finishing? then Stays(w.(phase := Done, log := w.log.Commit(w.log.pending))) else None
    case EndFails(some, raises) => if w.phase.Finishing? then Fails(w, w.log.Commit(some), raises) else None
    case Panic => if !Exited(w) then Fails(w, w.log, false) else None
  }

  /** The producer stops with an error and drops what it was about to send. */
  function ProducerStops<T, R>(c: Channel<T, R>, item: T): Channel<T, R> {
    c.(hand := None, producerError := true, open := false, lost := c.lost + [item])
  }

  /** The step an event stands for, when it can happen. */
  function ChannelNext<T, R>(capacity: nat, rows: T -> multiset<R>, c: Channel<T, R>, e: ChannelEvent<R>): Option<Channel<T, R>> {
    match e
    case TakeNext =>
      if !c.open || c.hand.Some? || c.pending == [] then None
      else if c.pending[0].None? then Some(c.(pending := c.pending[1..], skipped := c.skipped + 1))
      else Some(c.(pending := c.pending[1..], hand := c.pending[0]))
    case TakeCancelled =>
      if !c.open || c.hand.Some? || c.pending == [] || c.pending[0].None? || !c.cancelled then None
      else Some(ProducerStops(c.(pending := c.pending[1..]), c.pending[0].value))
    case SendNext =>
      if !c.open || c.hand.None? || |c.queue| >= capacity || AllExited(c.workers) then None
      else Some(c.(queue := c.queue + [c.hand.value], hand := None))
    case SendCancelled =>
      if !c.open || c.hand.None? || !c.cancelled then None else Some(ProducerStops(c, c.hand.value))
    case SendDisconnected =>
      if !c.open || c.hand.None? || !AllExited(c.workers) then None else Some(ProducerStops(c, c.hand.value))
    case CloseChannel =>
      if !c.open || c.hand.Some? || c.pending != [] then None else Some(c.(open := false))
    case ByWorker(i, action) =>
      if i >= |c.workers| then None
      else match WorkerNext(rows, c.queue, c.open, c.cancelled, c.workers[i], action)
        case None => None
        case Some(m) => Some(AfterMove(c, i, m))
  }

  function AfterMove<T, R>(c: Channel<T, R>, i: nat, m: WorkerMove<T, R>): Channel<T, R>
    requires i < |c.workers| && (m.pop ==> c.queue != [])
  {
    c.(workers := c.workers[i := m.after], queue := if m.pop then c.queue[1..] else c.queue, cancelled := c.cancelled || m.cancel)
  }

  /** The state after a run; an event that cannot happen changes nothing. */
  function ChannelRun<T, R>(capacity: nat, rows: T -> multiset<R>, c: Channel<T, R>, events: seq<ChannelEvent<R>>): Channel<T, R>
    decreases |events|
  {
    if events == [] then c
    else
      var before := ChannelRun(capacity, rows, c, events[..|events| - 1]);
      match ChannelNext(capacity, rows, before, events[|events| - 1])
      case Some(after) => after
      case None => before
  }

  /** The join loop reports success: every worker ended well and so did the producer. */
  predicate ReturnsOk<T, R>(c: Channel<T, R>) {
    !c.open && (forall i :: 0 <= i < |c.workers| ==> c.workers[i].phase.Done?) && !c.producerError
  }

  // ------------------------------------------------------------ conservation

  function AllOwned<T, R>(ws: seq<ChannelWorker<T, R>>): seq<T> {
    if ws == [] then [] else Owned(ws[0]) + AllOwned(ws[1..])
  }

  /** How often an item occurs in the whole system. */
  function Occurrences<T(==), R>(c: Channel<T, R>, x: T): nat {
    Times(Readable(c.pending), x) + Times(AsSeq(c.hand), x) + Times(c.queue, x) + Times(AllOwned(c.workers), x) + Times(c.lost, x)
  }

  /** Every readable item is in exactly one place. */
  ghost predicate Conserved<T(!new), R>(entries: seq<Option<T>>, c: Channel<T, R>) {
    forall x :: Occurrences(c, x) == Times(Readable(entries), x)
  }

  ghost predicate SomeLeft<T, R>(ws: seq<ChannelWorker<T, R>>) {
    exists i :: 0 <= i < |ws| && (ws[i].phase.Finishing? || ws[i].phase.Done?)
  }

  /** The producer loses an item only with an error; workers leave only an exhausted channel. */
  ghost predicate Orderly<T, R>(capacity: nat, c: Channel<T, R>) {
    && |c.queue| <= capacity
    && (c.lost != [] ==> c.producerError)
    && (!c.open ==> c.hand.None? && (c.pending == [] || c.producerError))
    && (SomeLeft(c.workers) ==> !c.open && c.queue == [])
  }

  lemma {:induction false} AllOwnedUpdate<T, R>(ws: seq<ChannelWorker<T, R>>, i: nat, w: ChannelWorker<T, R>, x: T)
    requires i < |ws|
    ensures Times(AllOwned(ws[i := w]), x) + Times(Owned(ws[i]), x) == Times(AllOwned(ws), x) + Times(Owned(w), x)
  {
    hide Owned, Times;
    var ws' := ws[i := w];
    TimesConcat(Owned(ws'[0]), AllOwned(ws'[1..]), x);
    TimesConcat(Owned(ws[0]), AllOwned(ws[1..]), x);
    if i == 0 {
      assert ws'[1..] == ws[1..];
    } else {
      AllOwnedUpdate(ws[1..], i - 1, w, x);
      assert ws'[1..] == ws[1..][i - 1 := w];
    }
  }

  lemma {:induction false} AllOwnedAtStart<T, R>(n: nat)
    ensures AllOwned<T, R>(Idle(n)) == []
  {
    if n > 0 {
      AllOwnedAtStart<T, R>(n - 1);
      assert Idle<T, R>(n)[1..] == Idle(n - 1);
    }
  }

  lemma ProducerKeeps<T, R>(capacity: nat, rows: T -> multiset<R>, c: Channel<T, R>, e: ChannelEvent<R>, x: T)
    requires ChannelNext(capacity, rows, c, e).Some? && !e.ByWorker?
    ensures Occurrences(ChannelNext(capacity, rows, c, e).value, x) == Occurrences(c, x)
  {
    hide AllOwned, AllExited, WorkerNext, Times;
    if c.pending != [] {
      TimesConcat(AsSeq(c.pending[0]), Readable(c.pending[1..]), x);
      if c.pending[0].Some? {
        TimesConcat(c.lost, [c.pending[0].value], x);
      }
    }
    if c.hand.Some? {
      TimesConcat(c.queue, [c.hand.value], x);
      TimesConcat(c.lost, [c.hand.value], x);
    }
    TimesNone(x);
  }

  lemma TimesNone<T>(x: T)
    ensures Times([], x) == 0
  {
  }

  lemma WorkerKeeps<T, R>(capacity: nat, rows: T -> multiset<R>, c: Channel<T, R>, e: ChannelEvent<R>, x: T)
    requires ChannelNext(capacity, rows, c, e).Some? && e.ByWorker?
    ensures Occurrences(ChannelNext(capacity, rows, c, e).value, x) == Occurrences(c, x)
  {
    hide AllOwned, Readable, WorkerNext, Owned, Times;
    var w := c.workers[e.worker];
    var m := WorkerNext(rows, c.queue, c.open, c.cancelled, w, e.action).value;
    AllOwnedUpdate(c.workers, e.worker, m.after, x);
    if m.pop {
      assert c.queue == [c.queue[0]] + c.queue[1..];
      TimesConcat([c.queue[0]], c.queue[1..], x);
      TimesConcat(Owned(w), [c.queue[0]], x);
    }
  }

  lemma ConservedStep<T(!new), R>(capacity: nat, rows: T -> multiset<R>, entries: seq<Option<T>>, c: Channel<T, R>, e: ChannelEvent<R>)
    requires Conserved(entries, c) && ChannelNext(capacity, rows, c, e).Some?
    ensures Conserved(entries, ChannelNext(capacity, rows, c, e).value)
  {
    hide Occurrences, ChannelNext;
    forall x ensures Occurrences(ChannelNext(capacity, rows, c, e).value, x) == Occurrences(c, x) {
      if e.ByWorker? {
        WorkerKeeps(capacity, rows, c, e, x);
      } else {
        ProducerKeeps(capacity, rows, c, e, x);
      }
    }
  }

  lemma OrderlyByProducer<T, R>(capacity: nat, rows: T -> multiset<R>, c: Channel<T, R>, e: ChannelEvent<R>)
    requires Orderly(capacity, c) && ChannelNext(capacity, rows, c, e).Some? && !e.ByWorker?
    ensures Orderly(capacity, ChannelNext(capacity, rows, c, e).value)
    ensures ChannelNext(capacity, rows, c, e).value.workers == c.workers
  {
    hide SomeLeft, AllExited, WorkerNext;
  }

  lemma OrderlyByWorker<T, R>(capacity: nat, rows: T -> multiset<R>, c: Channel<T, R>, e: ChannelEvent<R>)
    requires Orderly(capacity, c) && ChannelNext(capacity, rows, c, e).Some? && e.ByWorker?
    ensures Orderly(capacity, ChannelNext(capacity, rows, c, e).value)
  {
    hide WorkerNext, Owned;
    var i := e.worker;
    var m := WorkerNext(rows, c.queue, c.open, c.cancelled, c.workers[i], e.action).value;
    var ws := c.workers[i := m.after];
    if SomeLeft(ws) {
      var k :| 0 <= k < |ws| && (ws[k].phase.Finishing? || ws[k].phase.Done?);
      assert k != i ==> c.workers[k] == ws[k];
      assert c.workers[i].phase.Finishing? ==> SomeLeft(c.workers);
    }
  }

  // --------------------------------------------------------- written rows

  /** A worker has written exactly the rows of its items, and at the end all of them are committed. */
  predicate WorkerRows<T, R(==)>(rows: T -> multiset<R>, w: ChannelWorker<T, R>) {
    match w.phase
    case Busy(item, left) => left <= rows(item) && w.log.Written() + left == RowsOf(rows, w.processed) + rows(item)
    case Failed(_) => w.log.Written() <= RowsOf(rows, Owned(w))
    case Done => w.log.Written() == RowsOf(rows, w.processed) && w.log.pending == multiset{}
    case _ => w.log.Written() == RowsOf(rows, w.processed)
  }

  predicate AllRows<T, R(==)>(rows: T -> multiset<R>, ws: seq<ChannelWorker<T, R>>) { forall i :: 0 <= i < |ws| ==> WorkerRows(rows, ws[i]) }

  lemma CommitKeepsWritten<R>(log: RowLog<R>, some: multiset<R>)
    ensures log.Commit(some).Written() == log.Written()
  {
  }

  lemma WrittenIsOwned<T, R>(rows: T -> multiset<R>, w: ChannelWorker<T, R>)
    requires WorkerRows(rows, w)
    ensures w.log.Written() <= RowsOf(rows, Owned(w))
  {
    hide RowsOf;
    RowsOfConcat(rows, w.processed, Held(w));
    RowsOfNone(rows);
    if w.phase.Busy? {
      RowsOfOne(rows, w.phase.item);
      assert w.log.Written() <= w.log.Written() + w.phase.left;
    }
  }

  /** A failure leaves what was written, committed or not. */
  lemma FailureKeepsRows<T, R>(rows: T -> multiset<R>, queue: seq<T>, open: bool, cancelled: bool, w: ChannelWorker<T, R>, action: WorkerAction<R>)
    requires WorkerRows(rows, w) && WorkerNext(rows, queue, open, cancelled, w, action).Some?
    requires WorkerNext(rows, queue, open, cancelled, w, action).value.after.phase.Failed?
    ensures WorkerRows(rows, WorkerNext(rows, queue, open, cancelled, w, action).value.after)
  {
    hide RowsOf;
    WrittenIsOwned(rows, w);
    if action.FlushFails? || action.EndFails? {
      CommitKeepsWritten(w.log, action.rows);
    }
  }

  lemma NextKeepsRows<T, R>(rows: T -> multiset<R>, queue: seq<T>, open: bool, cancelled: bool, w: ChannelWorker<T, R>, action: WorkerAction<R>)
    requires WorkerRows(rows, w) && WorkerNext(rows, queue, open, cancelled, w, action).Some?
    ensures WorkerRows(rows, WorkerNext(rows, queue, open, cancelled, w, action).value.after)
  {
    hide RowsOf;
    if WorkerNext(rows, queue, open, cancelled, w, action).value.after.phase.Failed? {
      FailureKeepsRows(rows, queue, open, cancelled, w, action);
    } else {
      if action.CommitRows? {
        CommitKeepsWritten(w.log, action.rows);
      } else if action.Process? {
        RowsOfConcat(rows, w.processed, [w.phase.item]);
        RowsOfOne(rows, w.phase.item);
      }
      CommitKeepsWritten(w.log, w.log.pending);
    }
  }

  lemma {:induction false} ChannelRunInv<T(!new), R>(capacity: nat, rows: T -> multiset<R>, workers: nat, entries: seq<Option<T>>, events: seq<ChannelEvent<R>>)
    ensures var c := ChannelRun(capacity, rows, Start(workers, entries), events);
      Conserved(entries, c) && Orderly(capacity, c) && AllRows(rows, c.workers) && |c.workers| == workers
    decreases |events|
  {
    if events == [] {
      AllOwnedAtStart<T, R>(workers);
    } else {
      hide Conserved, Orderly, ChannelNext, WorkerRows;
      var e := events[|events| - 1];
      ChannelRunInv(capacity, rows, workers, entries, events[..|events| - 1]);
      var c := ChannelRun(capacity, rows, Start(workers, entries), events[..|events| - 1]);
      if ChannelNext(capacity, rows, c, e).Some? {
        ConservedStep(capacity, rows, entries, c, e);
        if e.ByWorker? {
          OrderlyByWorker(capacity, rows, c, e);
          StepKeepsRows(capacity, rows, c, e);
        } else {
          OrderlyByProducer(capacity, rows, c, e);
        }
      }
    }
  }

  lemma StepKeepsRows<T, R>(capacity: nat, rows: T -> multiset<R>, c: Channel<T, R>, e: ChannelEvent<R>)
    requires AllRows(rows, c.workers) && ChannelNext(capacity, rows, c, e).Some? && e.ByWorker?
    ensures AllRows(rows, ChannelNext(capacity, rows, c, e).value.workers) && |ChannelNext(capacity, rows, c, e).value.workers| == |c.workers|
  {
    hide WorkerRows, WorkerNext;
    NextKeepsRows(rows, c.queue, c.open, c.cancelled, c.workers[e.worker], e.action);
  }

  function Assignment<T, R>(ws: seq<ChannelWorker<T, R>>): seq<seq<T>> {
    seq(|ws|, i requires 0 <= i < |ws| => ws[i].processed)
  }

  lemma {:induction false} AllOwnedWhenDone<T, R>(ws: seq<ChannelWorker<T, R>>)
    requires forall i :: 0 <= i < |ws| ==> ws[i].phase.Done?
    ensures AllOwned(ws) == Flatten(Assignment(ws))
  {
    if ws != [] {
      AllOwnedWhenDone(ws[1..]);
      assert Assignment(ws)[1..] == Assignment(ws[1..]);
      assert Owned(ws[0]) == ws[0].processed;
    }
  }

  /** Everything the server has accepted from all workers. */
  function CommittedRows<T, R>(ws: seq<ChannelWorker<T, R>>): multiset<R> {
    if ws == [] then multiset{} else ws[0].log.committed + CommittedRows(ws[1..])
  }

  lemma {:induction false} CommittedIsOwned<T, R>(rows: T -> multiset<R>, ws: seq<ChannelWorker<T, R>>)
    requires AllRows(rows, ws)
    ensures CommittedRows(ws) <= RowsOf(rows, AllOwned(ws))
    ensures (forall i :: 0 <= i < |ws| ==> ws[i].phase.Done?) ==> CommittedRows(ws) == RowsOf(rows, AllOwned(ws))
  {
    hide RowsOf;
    RowsOfNone(rows);
    if ws != [] {
      CommittedIsOwned(rows, ws[1..]);
      RowsOfConcat(rows, Owned(ws[0]), AllOwned(ws[1..]));
      CommittedByOne(rows, ws[0]);
    }
  }

  lemma CommittedByOne<T, R>(rows: T -> multiset<R>, w: ChannelWorker<T, R>)
    requires WorkerRows(rows, w)
    ensures w.log.committed <= RowsOf(rows, Owned(w))
    ensures w.phase.Done? ==> w.log.committed == RowsOf(rows, Owned(w))
  {
    hide RowsOf;
    WrittenIsOwned(rows, w);
    assert w.log.committed <= w.log.Written();
    assert w.processed + [] == w.processed;
  }

  /** What workers own is part of the archive. */
  lemma OwnedIsReadable<T(!new), R>(entries: seq<Option<T>>, c: Channel<T, R>)
    requires Conserved(entries, c)
    ensures multiset(AllOwned(c.workers)) <= multiset(Readable(entries))
  {
    hide AllOwned, Times;
    forall x ensures multiset(AllOwned(c.workers))[x] <= multiset(Readable(entries))[x] {
      assert Occurrences(c, x) == Times(Readable(entries), x);
      TimesIsMultiplicity(AllOwned(c.workers), x);
      TimesIsMultiplicity(Readable(entries), x);
    }
  }

  lemma OwnedWhenOk<T(!new), R>(capacity: nat, entries: seq<Option<T>>, c: Channel<T, R>)
    requires Conserved(entries, c) && Orderly(capacity, c) && |c.workers| >= 1 && ReturnsOk(c)
    ensures multiset(AllOwned(c.workers)) == multiset(Readable(entries))
  {
    hide AllOwned, Times;
    assert c.workers[0].phase.Done?;
    assert SomeLeft(c.workers);
    forall x ensures multiset(AllOwned(c.workers))[x] == multiset(Readable(entries))[x] {
      TimesNone(x);
      assert Occurrences(c, x) == Times(Readable(entries), x);
      assert Readable(c.pending) == [];
      TimesIsMultiplicity(AllOwned(c.workers), x);
      TimesIsMultiplicity(Readable(entries), x);
    }
  }

  /**
   Bounded and exactly once. Over every run the queue holds at most `capacity`
   items, and no row is committed that is not the archive's, or more often than
   the archive has it. When the import reports success, every readable item was
   processed by exactly one worker and every row of the archive is committed
   exactly once, wherever the flushes fell.
   */
  lemma ExactlyOnceOnSuccess<T(!new), R>(capacity: nat, rows: T -> multiset<R>, workers: nat, entries: seq<Option<T>>, events: seq<ChannelEvent<R>>)
    requires workers >= 1
    ensures var c := ChannelRun(capacity, rows, Start(workers, entries), events);
      && |c.queue| <= capacity
      && CommittedRows(c.workers) <= RowsOf(rows, Readable(entries))
      && (ReturnsOk(c) ==>
            && multiset(Flatten(Assignment(c.workers))) == multiset(Readable(entries))
            && CommittedRows(c.workers) == RowsOf(rows, Readable(entries)))
  {
    hide AllOwned, ChannelNext, ChannelRun, Flatten, Assignment, RowsOf, CommittedRows, WorkerRows, Conserved;
    ChannelRunInv(capacity, rows, workers, entries, events);
    var c := ChannelRun(capacity, rows, Start(workers, entries), events);
    OwnedIsReadable(entries, c);
    CommittedIsOwned(rows, c.workers);
    RowsOfFewer(rows, AllOwned(c.workers), Readable(entries));
    if ReturnsOk(c) {
      AllOwnedWhenDone(c.workers);
      OwnedWhenOk(capacity, entries, c);
    }
  }
}
