/**
 * The log fan-out: every log record becomes an entry that is kept in a
 * history of the last 100 and, for every registered client whose event
 * loop is open, a put of it into the client's queue is scheduled on that
 * loop. The put runs later, when the loop gets to it: a queue with room
 * takes the entry; a full queue (500 entries) raises inside the loop's
 * callback, where the `except` around the scheduling cannot catch it. The
 * loop's default exception handler then logs the failure at ERROR through
 * the "asyncio" logger, and since the handler sits on the root logger,
 * that record comes back as one more entry for the history and every
 * client.
 *
 * The module-level globals are the fields of one `LogHub`; the clients
 * share one event loop, whose scheduled callbacks run first in, first
 * out, and a client's loop is represented only by whether it is closed.
 */
module Logs {

  const HistoryCapacity: nat := 100
  const QueueCapacity: nat := 500

  datatype LogEntry = LogEntry(kind: string, timestamp: string, level: string, logger: string, message: string)

  /** The entry `emit` builds from a record. */
  function EntryFor(timestamp: string, level: string, logger: string, message: string): (e: LogEntry)
    ensures e.kind == "log" && e.level == level && e.logger == logger && e.message == message
    ensures e.timestamp == timestamp
  {
    LogEntry("log", timestamp, level, logger, message)
  }

  /** Appending to a deque of bounded length: when full, the oldest entry goes. */
  function AppendBounded(h: seq<LogEntry>, e: LogEntry): (r: seq<LogEntry>)
    requires |h| <= HistoryCapacity
    ensures |r| <= HistoryCapacity
    ensures |r| >= 1 && r[|r| - 1] == e
    ensures |h| < HistoryCapacity ==> r == h + [e]
    ensures |h| == HistoryCapacity ==> r == h[1..] + [e]
  {
    if |h| == HistoryCapacity then h[1..] + [e] else h + [e]
  }

  function Min(a: int, b: int): int { if a <= b then a else b }

  /** The history after emitting `es` into an empty one. */
  function HistoryOf(es: seq<LogEntry>): (h: seq<LogEntry>)
    ensures |h| <= HistoryCapacity
  {
    if es == [] then [] else AppendBounded(HistoryOf(es[..|es| - 1]), es[|es| - 1])
  }

  /** The history is always the last (up to) 100 entries emitted, in emission order. */
  lemma {:induction false} HistoryIsNewest(es: seq<LogEntry>)
    ensures HistoryOf(es) == es[|es| - Min(|es|, HistoryCapacity)..]
  {
    if es != [] {
      var front := es[..|es| - 1];
      HistoryIsNewest(front);
      var h := HistoryOf(front);
      var last := es[|es| - 1];
      assert es == front + [last];
      if |h| == HistoryCapacity {
        var n := |es|;
        assert h == front[|front| - HistoryCapacity..];
        assert h[1..] == es[n - HistoryCapacity..n - 1];
        assert es[n - HistoryCapacity..] == es[n - HistoryCapacity..n - 1] + [last];
      } else {
        assert h == front;
        assert es[0..] == es;
      }
    }
  }

  /** The logger through which the event loop reports an exception raised in a callback. */
  const AsyncioLogger: string := "asyncio"

  /** A put of `entry` into the queue of `client`, scheduled on the event loop and not yet run. */
  datatype Delivery = Delivery(client: int, entry: LogEntry)

  /**
   * The puts `emit` schedules for the clients `ids`, in their order: one
   * for each client whose loop is open; scheduling on a closed loop raises
   * a RuntimeError, which is caught.
   */
  function Scheduled(ids: seq<int>, closed: set<int>, e: LogEntry): (ds: seq<Delivery>)
    ensures |ds| <= |ids|
    ensures forall d :: d in ds <==> d.entry == e && d.client in ids && d.client !in closed
    decreases |ids|
  {
    if ids == [] then []
    else
      var front := ids[..|ids| - 1];
      var id := ids[|ids| - 1];
      assert forall x :: x in ids <==> x in front || x == id;
      Scheduled(front, closed, e) + (if id in closed then [] else [Delivery(id, e)])
  }

  /** No two puts for the same client. */
  predicate OncePerClient(ds: seq<Delivery>)
  {
    forall i, j :: 0 <= i < j < |ds| ==> ds[i].client != ds[j].client
  }

  /** For distinct clients, `emit` schedules at most one put per client. */
  lemma {:induction false} ScheduledOncePerClient(ids: seq<int>, closed: set<int>, e: LogEntry)
    requires NoDuplicates(ids)
    ensures OncePerClient(Scheduled(ids, closed, e))
    decreases |ids|
  {
    if ids != [] {
      var front := ids[..|ids| - 1];
      var id := ids[|ids| - 1];
      assert NoDuplicates(front) by {
        forall i, j | 0 <= i < j < |front| ensures front[i] != front[j] {
          assert front[i] == ids[i] && front[j] == ids[j];
        }
      }
      assert id !in front by {
        forall k | 0 <= k < |front| ensures front[k] != id { assert front[k] == ids[k]; }
      }
      ScheduledOncePerClient(front, closed, e);
      var ds0 := Scheduled(front, closed, e);
      var ds := Scheduled(ids, closed, e);
      assert OncePerClient(ds0);
      assert ds == ds0 + (if id in closed then [] else [Delivery(id, e)]);
      forall i, j | 0 <= i < j < |ds| ensures ds[i].client != ds[j].client {
        if j >= |ds0| {
          assert ds[j] == Delivery(id, e);
          assert ds[i] == ds0[i] && ds0[i] in ds0;
          assert ds0[i].client in front;
          assert ds[i].client != ds[j].client;
        } else {
          assert ds[i] == ds0[i] && ds[j] == ds0[j];
          assert ds0[i].client != ds0[j].client;
        }
      }
    }
  }

  /** Every client's queue, the history and the scheduled puts: what running a put changes. */
  datatype Hub = Hub(queues: map<int, seq<LogEntry>>, history: seq<LogEntry>, pending: seq<Delivery>)

  /**
   * The bounds the hub keeps: at most 100 entries of history, at most 500
   * per queue, every scheduled put aimed at an existing queue, and every
   * registered client (`order`) with a queue.
   */
  predicate Fits(h: Hub, order: seq<int>)
  {
    |h.history| <= HistoryCapacity
    && (forall id :: id in h.queues ==> |h.queues[id]| <= QueueCapacity)
    && (forall d :: d in h.pending ==> d.client in h.queues)
    && (forall id :: id in order ==> id in h.queues)
  }

  /**
   * Running the first scheduled put, as written: `put_nowait` into a queue
   * with room appends the entry; into a full queue it raises QueueFull,
   * which the loop reports as the entry `failure` (level ERROR, logger
   * "asyncio"), emitted like any other record while `order` are the
   * registered clients and `closed` those whose loop is closed.
   */
  function DeliverAsWritten(h: Hub, order: seq<int>, closed: set<int>, failure: LogEntry): (r: Hub)
    requires Fits(h, order)
    ensures Fits(r, order)
    ensures h.pending == [] ==> r == h
    ensures h.pending != [] && |h.queues[h.pending[0].client]| < QueueCapacity ==>
      var c := h.pending[0].client;
      r == Hub(h.queues[c := h.queues[c] + [h.pending[0].entry]], h.history, h.pending[1..])
  {
    if h.pending == [] then h
    else
      var d := h.pending[0];
      var q := h.queues[d.client];
      if |q| < QueueCapacity then Hub(h.queues[d.client := q + [d.entry]], h.history, h.pending[1..])
      else Hub(h.queues, AppendBounded(h.history, failure), h.pending[1..] + Scheduled(order, closed, failure))
  }

  /**
   * A put into a full queue, for a registered client whose loop is open,
   * adds the failure to the history and offers it to that same client
   * again: the queues stay as they were and the scheduled work does not
   * shrink.
   */
  lemma FullQueueFeedsBack(h: Hub, order: seq<int>, closed: set<int>, failure: LogEntry)
    requires Fits(h, order) && h.pending != []
    requires h.pending[0].client in order && h.pending[0].client !in closed
    requires |h.queues[h.pending[0].client]| == QueueCapacity
    ensures var r := DeliverAsWritten(h, order, closed, failure);
      r.queues == h.queues
      && r.history[|r.history| - 1] == failure
      && Delivery(h.pending[0].client, failure) in r.pending
      && |r.pending| >= |h.pending|
  {
    var c := h.pending[0].client;
    var r := DeliverAsWritten(h, order, closed, failure);
    assert r.pending == h.pending[1..] + Scheduled(order, closed, failure);
    assert Delivery(c, failure) in Scheduled(order, closed, failure);
  }

  /** `n` puts run one after another, as written. */
  function DeliverAsWrittenTimes(h: Hub, order: seq<int>, closed: set<int>, failure: LogEntry, n: nat): (r: Hub)
    requires Fits(h, order)
    ensures Fits(r, order)
    decreases n
  {
    if n == 0 then h else DeliverAsWrittenTimes(DeliverAsWritten(h, order, closed, failure), order, closed, failure, n - 1)
  }

  /**
   * With one registered client whose queue is full, a single scheduled put
   * never drains: after any number of runs one put of the failure entry is
   * still scheduled, the queue is unchanged, and the history ends with the
   * failure.
   */
  lemma {:induction false} SoleFullClientNeverDrains(h: Hub, c: int, closed: set<int>, failure: LogEntry,
                                                     x: LogEntry, n: nat)
    requires Fits(h, [c]) && c !in closed && |h.queues[c]| == QueueCapacity
    requires h.pending == [Delivery(c, x)]
    ensures var r := DeliverAsWrittenTimes(h, [c], closed, failure, n);
      r.queues == h.queues
      && r.pending == [Delivery(c, if n == 0 then x else failure)]
      && (n > 0 ==> |r.history| > 0 && r.history[|r.history| - 1] == failure)
    decreases n
  {
    if n > 0 {
      var next := DeliverAsWritten(h, [c], closed, failure);
      assert Scheduled([c], closed, failure) == [Delivery(c, failure)] by {
        assert [c][..0] == [];
      }
      assert next.pending == [Delivery(c, failure)];
      SoleFullClientNeverDrains(next, c, closed, failure, failure, n - 1);
    }
  }

  /** Running the first scheduled put as intended: a full queue just misses the entry. */
  function DeliverIntended(h: Hub, order: seq<int>): (r: Hub)
    requires Fits(h, order)
    ensures Fits(r, order)
    ensures h.pending == [] ==> r == h
    ensures h.pending != [] ==> r.pending == h.pending[1..] && r.history == h.history
    ensures h.pending != [] && |h.queues[h.pending[0].client]| < QueueCapacity ==>
      var c := h.pending[0].client;
      r.queues == h.queues[c := h.queues[c] + [h.pending[0].entry]]
    ensures h.pending != [] && |h.queues[h.pending[0].client]| == QueueCapacity ==> r.queues == h.queues
  {
    if h.pending == [] then h
    else
      var d := h.pending[0];
      var q := h.queues[d.client];
      if |q| < QueueCapacity then Hub(h.queues[d.client := q + [d.entry]], h.history, h.pending[1..])
      else Hub(h.queues, h.history, h.pending[1..])
  }

  /** Running every scheduled put as intended. */
  function DrainIntended(h: Hub, order: seq<int>): (r: Hub)
    requires Fits(h, order)
    ensures Fits(r, order) && r.pending == []
    decreases |h.pending|
  {
    if h.pending == [] then h else DrainIntended(DeliverIntended(h, order), order)
  }

  /** The entries of the puts aimed at `id`, in the order they run. */
  function EntriesFor(ps: seq<Delivery>, id: int): (es: seq<LogEntry>)
    ensures |es| <= |ps|
  {
    if ps == [] then []
    else (if ps[0].client == id then [ps[0].entry] else []) + EntriesFor(ps[1..], id)
  }

  /** A queue's contents cut to its capacity: `put_nowait` refuses everything past it. */
  function Capped(q: seq<LogEntry>): (r: seq<LogEntry>)
    ensures |r| <= QueueCapacity && r <= q
    ensures |q| <= QueueCapacity ==> r == q
  {
    if |q| <= QueueCapacity then q else q[..QueueCapacity]
  }

  /** A full queue stays as it is, whatever is offered to it. */
  lemma CappedFull(q: seq<LogEntry>, more: seq<LogEntry>)
    requires |q| == QueueCapacity
    ensures Capped(q + more) == q
  {
    assert (q + more)[..QueueCapacity] == q;
  }

  /** One put, as intended, leaves each queue's eventual contents unchanged. */
  lemma IntendedStepKeepsFill(h: Hub, order: seq<int>, id: int)
    requires Fits(h, order) && h.pending != [] && id in h.queues
    ensures var next := DeliverIntended(h, order);
      Capped(next.queues[id] + EntriesFor(next.pending, id)) == Capped(h.queues[id] + EntriesFor(h.pending, id))
  {
    var d := h.pending[0];
    var next := DeliverIntended(h, order);
    var q := h.queues[id];
    var rest := EntriesFor(h.pending[1..], id);
    assert next.pending == h.pending[1..];
    if d.client == id {
      assert EntriesFor(h.pending, id) == [d.entry] + rest;
      if |q| < QueueCapacity {
        assert next.queues[id] == q + [d.entry];
        assert q + [d.entry] + rest == q + ([d.entry] + rest);
      } else {
        assert next.queues[id] == q;
        CappedFull(q, rest);
        CappedFull(q, [d.entry] + rest);
      }
    } else {
      assert EntriesFor(h.pending, id) == rest;
      assert next.queues[id] == q;
    }
  }

  /**
   * As intended, draining gives every queue its old contents followed by
   * the entries scheduled for it, in order, as far as its capacity allows;
   * the history is left alone.
   */
  lemma {:induction false} IntendedDrainFillsQueues(h: Hub, order: seq<int>)
    requires Fits(h, order)
    ensures var r := DrainIntended(h, order);
      r.history == h.history
      && r.queues.Keys == h.queues.Keys
      && forall id :: id in h.queues ==> r.queues[id] == Capped(h.queues[id] + EntriesFor(h.pending, id))
    decreases |h.pending|
  {
    if h.pending != [] {
      var next := DeliverIntended(h, order);
      IntendedDrainFillsQueues(next, order);
      assert DrainIntended(h, order) == DrainIntended(next, order);
      forall id | id in h.queues
        ensures DrainIntended(h, order).queues[id] == Capped(h.queues[id] + EntriesFor(h.pending, id))
      {
        IntendedStepKeepsFill(h, order, id);
      }
    }
  }

  /**
   * As intended, the scheduled puts all run and then stop: the history is
   * left alone, every queue only grows at its end, and a full queue gets
   * nothing.
   */
  lemma {:induction false} IntendedDrainOnlyAppends(h: Hub, order: seq<int>)
    requires Fits(h, order)
    ensures var r := DrainIntended(h, order);
      r.history == h.history
      && r.queues.Keys == h.queues.Keys
      && (forall id :: id in h.queues ==> h.queues[id] <= r.queues[id])
      && (forall id :: id in h.queues && |h.queues[id]| == QueueCapacity ==> r.queues[id] == h.queues[id])
    decreases |h.pending|
  {
    if h.pending != [] {
      var next := DeliverIntended(h, order);
      assert next.history == h.history && next.queues.Keys == h.queues.Keys;
      assert forall id :: id in h.queues ==> h.queues[id] <= next.queues[id];
      IntendedDrainOnlyAppends(next, order);
      var r := DrainIntended(h, order);
      assert r == DrainIntended(next, order);
      forall id | id in h.queues && |h.queues[id]| == QueueCapacity
        ensures r.queues[id] == h.queues[id]
      {
        assert h.queues[id] <= r.queues[id] && |r.queues[id]| <= QueueCapacity;
      }
    }
  }

  predicate NoDuplicates(s: seq<int>)
  {
    forall i, j :: 0 <= i < j < |s| ==> s[i] != s[j]
  }

  function Remove(s: seq<int>, x: int): (r: seq<int>)
    ensures forall y :: y in r <==> y in s && y != x
    ensures x !in s ==> r == s
  {
    if s == [] then []
    else if s[0] == x then Remove(s[1..], x)
    else [s[0]] + Remove(s[1..], x)
  }

  /** Among distinct ids, removing the one at `k` keeps the others in their order. */
  lemma {:induction false} RemoveAt(s: seq<int>, x: int, k: nat)
    requires NoDuplicates(s) && k < |s| && s[k] == x
    ensures Remove(s, x) == s[..k] + s[k + 1..]
    decreases |s|
  {
    if k == 0 {
      assert x !in s[1..] by {
        forall i | 0 <= i < |s[1..]| ensures s[1..][i] != x { assert s[1..][i] == s[i + 1]; }
      }
    } else {
      assert NoDuplicates(s[1..]) by {
        forall i, j | 0 <= i < j < |s[1..]| ensures s[1..][i] != s[1..][j] {
          assert s[1..][i] == s[i + 1] && s[1..][j] == s[j + 1];
        }
      }
      RemoveAt(s[1..], x, k - 1);
      assert s[0] != x;
      assert s[..k] == [s[0]] + s[1..][..k - 1];
      assert s[k + 1..] == s[1..][k..];
    }
  }

  lemma {:induction false} RemoveKeepsDistinct(s: seq<int>, x: int)
    requires NoDuplicates(s)
    ensures NoDuplicates(Remove(s, x))
  {
    if s != [] {
      RemoveKeepsDistinct(s[1..], x);
      if s[0] != x {
        var rest := Remove(s[1..], x);
        assert s[0] !in s[1..];
        assert s[0] !in rest;
        forall i, j | 0 <= i < j < |[s[0]] + rest| ensures ([s[0]] + rest)[i] != ([s[0]] + rest)[j] {
          if i == 0 {
            assert ([s[0]] + rest)[j] == rest[j - 1];
          }
        }
      }
    }
  }

  class LogHub {
    /** `_log_history`. */
    var history: seq<LogEntry>
    /**
     * The queue of every client registered so far: an unregistered
     * client's queue still takes the puts already scheduled for it.
     */
    var queues: map<int, seq<LogEntry>>
    /** The registered ids (`_clients`) in registration order, the dictionary's iteration order. */
    var order: seq<int>
    /** `_client_id_counter`. */
    var counter: int
    /** The puts scheduled on the event loop that have not run yet, in the order they will run. */
    var pending: seq<Delivery>

    ghost predicate Valid()
      reads this
    {
      Fits(Hub(queues, history, pending), order)
      && NoDuplicates(order)
      && (forall id :: id in queues ==> id <= counter)
    }

    constructor ()
      ensures Valid() && history == [] && queues == map[] && order == [] && counter == 0 && pending == []
    {
      history := [];
      queues := map[];
      order := [];
      counter := 0;
      pending := [];
    }

    /**
     * `emit`: the entry joins the history, and a put of it is scheduled
     * for every registered client, in registration order, whose event loop
     * is open (`closed` holds those whose loop is closed). No queue
     * changes until the puts run.
     */
    method Emit(e: LogEntry, closed: set<int>)
      requires Valid()
      modifies this
      ensures Valid()
      ensures history == AppendBounded(old(history), e)
      ensures pending == old(pending) + Scheduled(order, closed, e)
      ensures queues == old(queues) && order == old(order) && counter == old(counter)
    {
      history := AppendBounded(history, e);
      var clients := order;
      var puts: seq<Delivery> := [];
      var i := 0;
      while i < |clients|
        invariant 0 <= i <= |clients|
        invariant puts == Scheduled(clients[..i], closed, e)
      {
        var id := clients[i];
        assert clients[..i + 1][..i] == clients[..i];
        if id !in closed {
          puts := puts + [Delivery(id, e)];
        }
        i := i + 1;
      }
      assert clients[..i] == clients;
      pending := pending + puts;
    }

    /**
     * The event loop runs the first scheduled put. A full queue's
     * QueueFull is reported by the loop as an ERROR record of the
     * "asyncio" logger, with the given timestamp and message, and that
     * record is emitted like any other.
     */
    method Deliver(closed: set<int>, timestamp: string, message: string)
      requires Valid()
      modifies this
      ensures Valid()
      ensures order == old(order) && counter == old(counter)
      ensures Hub(queues, history, pending)
        == DeliverAsWritten(Hub(old(queues), old(history), old(pending)), order, closed,
                            EntryFor(timestamp, "ERROR", AsyncioLogger, message))
    {
      if pending == [] {
        return;
      }
      var d := pending[0];
      pending := pending[1..];
      var q := queues[d.client];
      if |q| < QueueCapacity {
        queues := queues[d.client := q + [d.entry]];
      } else {
        Emit(EntryFor(timestamp, "ERROR", AsyncioLogger, message), closed);
      }
    }

    /**
     * `register_log_client`: a fresh id above every id issued before, an
     * empty queue, and the history as it stands.
     */
    method Register() returns (id: int, snapshot: seq<LogEntry>)
      requires Valid()
      modifies this
      ensures Valid()
      ensures id == old(counter) + 1 && counter == id
      ensures forall other :: other in old(queues) ==> other < id
      ensures queues == old(queues)[id := []] && order == old(order) + [id]
      ensures pending == old(pending)
      ensures snapshot == history == old(history)
    {
      assert counter + 1 !in order;
      counter := counter + 1;
      id := counter;
      queues := queues[id := []];
      order := order + [id];
      snapshot := history;
    }

    /**
     * `unregister_log_client`: the id is no longer registered, if it was;
     * the queues and the puts already scheduled are untouched.
     */
    method Unregister(id: int)
      requires Valid()
      modifies this
      ensures Valid()
      ensures order == Remove(old(order), id)
      ensures forall x :: x in order <==> x in old(order) && x != id
      ensures queues == old(queues) && pending == old(pending)
      ensures history == old(history) && counter == old(counter)
    {
      RemoveKeepsDistinct(order, id);
      order := Remove(order, id);
    }
  }
}
