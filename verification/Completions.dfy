/**
 * Batch completions, from audio_completions.h: a table of slots that count down their commands, and a ring of the slots
 * that have finished.
 */
module Completions {
  import opened Naturals

  const SLOTS: nat := 1024

  /** Okay is zero, and every other value an error. */
  type Error = nat

  const OKAY: Error := 0

  datatype Entry = Entry(callback: nat, remaining: nat, error: Error, failedCommand: int, used: bool)

  const EMPTY := Entry(0, 0, OKAY, -1, false)

  /** What is known of a reservation: its number, and its commands that have completed, in order, with their errors. */
  datatype Log = Log(id: nat, callback: nat, commands: nat, results: seq<(int, Error)>)

  /** Where a reservation is. */
  datatype Place = At(slot: nat) | Taken | Released

  /** The first failed command of a log, or the number of results. */
  function FirstFailure(results: seq<(int, Error)>): (i: nat)
    ensures i <= |results|
    ensures i < |results| ==> results[i].1 != OKAY
    ensures forall j :: 0 <= j < i ==> results[j].1 == OKAY
  {
    if results == [] then 0
    else if results[0].1 != OKAY then 0
    else 1 + FirstFailure(results[1..])
  }

  lemma {:induction false} FirstFailureAppend(results: seq<(int, Error)>, r: (int, Error))
    ensures FirstFailure(results + [r]) == if FirstFailure(results) < |results| then FirstFailure(results)
                                           else if r.1 != OKAY then |results| else |results| + 1
  {
    if results != [] {
      FirstFailureAppend(results[1..], r);
      assert (results + [r])[1..] == results[1..] + [r];
    }
  }

  /** An entry counts the commands that are left, and keeps the first error with the index of its command. */
  ghost predicate Records(e: Entry, log: Log) {
    && e.used && e.callback == log.callback && e.remaining + |log.results| == log.commands
    && var f := FirstFailure(log.results);
       if f < |log.results| then e.error == log.results[f].1 && e.failedCommand == log.results[f].0
       else e.error == OKAY && e.failedCommand == -1
  }

  lemma Positive(e: Entry, log: Log)
    requires Records(e, log) && e.remaining > 0
    ensures log.commands > 0
  {
  }

  lemma RecordNext(e: Entry, log: Log, index: int, error: Error)
    requires Records(e, log) && e.remaining > 0
    ensures var failed := e.error == OKAY && error != OKAY;
            Records(Entry(e.callback, e.remaining - 1, if failed then error else e.error,
                          if failed then index else e.failedCommand, true),
                    log.(results := log.results + [(index, error)]))
  {
    FirstFailureAppend(log.results, (index, error));
  }

  // ---------------------------------------------------------------- the ready ring

  function Ring(head: nat, k: nat): (i: nat)
    requires head < SLOTS && k <= SLOTS
    ensures i < SLOTS
  {
    if head + k < SLOTS then head + k else head + k - SLOTS
  }

  /** The finished slots in the order of completion. */
  ghost predicate Queued(ready: seq<nat>, head: nat, q: seq<nat>) {
    && |ready| == SLOTS && head < SLOTS && |q| <= SLOTS
    && forall k :: 0 <= k < |q| ==> ready[Ring(head, k)] == q[k]
  }

  ghost predicate Unique(q: seq<nat>) {
    forall i, j :: 0 <= i < j < |q| ==> q[i] != q[j]
  }

  ghost function Members(q: seq<nat>): (s: set<nat>)
    ensures forall i: nat :: i in s <==> i in q
    ensures |s| <= |q|
    ensures Unique(q) ==> |s| == |q|
  {
    if q == [] then {}
    else
      var rest := q[..|q| - 1];
      assert q == rest + [q[|q| - 1]];
      Members(rest) + {q[|q| - 1]}
  }

  /** Distinct slots never overflow the ring, and a slot outside a queue of distinct slots finds room. */
  lemma RoomFor(q: seq<nat>, slot: nat)
    requires Unique(q) && (forall k :: 0 <= k < |q| ==> q[k] < SLOTS) && slot < SLOTS && slot !in q
    ensures |q| < SLOTS
  {
    SubsetSize(Members(q) + {slot}, Below(SLOTS));
  }

  lemma PushReady(ready: seq<nat>, head: nat, q: seq<nat>, slot: nat)
    requires Queued(ready, head, q) && |q| < SLOTS
    ensures Queued(ready[Ring(head, |q|) := slot], head, q + [slot])
  {
  }

  lemma PopReady(ready: seq<nat>, head: nat, q: seq<nat>)
    requires Queued(ready, head, q) && |q| > 0
    ensures ready[head] == q[0] && Queued(ready, Ring(head, 1) % SLOTS, q[1..])
  {
    assert ready[Ring(head, 0)] == q[0];
    var head' := Ring(head, 1) % SLOTS;
    forall k | 0 <= k < |q| - 1
      ensures ready[Ring(head', k)] == q[1..][k]
    {
      assert Ring(head', k) == Ring(head, k + 1);
    }
  }

  // ---------------------------------------------------------------- the table

  function CountUsed(es: seq<Entry>): nat {
    if es == [] then 0 else CountUsed(es[..|es| - 1]) + One(es[|es| - 1].used)
  }

  lemma {:induction false} CountUpdate(es: seq<Entry>, i: nat, e: Entry)
    requires i < |es|
    ensures CountUsed(es[i := e]) == CountUsed(es) - One(es[i].used) + One(e.used)
  {
    var n := |es| - 1;
    if i == n {
      assert es[i := e][..n] == es[..n];
    } else {
      CountUpdate(es[..n], i, e);
      assert es[i := e][..n] == es[..n][i := e];
    }
  }

  lemma {:induction false} CountNone(es: seq<Entry>)
    requires forall i :: 0 <= i < |es| ==> !es[i].used
    ensures CountUsed(es) == 0
  {
    if es != [] {
      CountNone(es[..|es| - 1]);
    }
  }

  /** All commands of the slot have completed, and there was at least one. */
  ghost predicate Finished(e: Entry, log: Log) {
    e.used && e.remaining == 0 && log.commands > 0
  }

  /** The ring holds exactly the finished slots, once each; every used slot records its log. */
  ghost predicate Consistent(entries: seq<Entry>, q: seq<nat>, logs: seq<Log>) {
    && |entries| == SLOTS == |logs| && Unique(q)
    && (forall k :: 0 <= k < |q| ==> q[k] < SLOTS)
    && (forall i :: 0 <= i < SLOTS && entries[i].used ==> Records(entries[i], logs[i]))
    && (forall i :: 0 <= i < SLOTS && !entries[i].used ==> entries[i].remaining == 0)
    && (forall i :: 0 <= i < SLOTS ==> (i in q <==> Finished(entries[i], logs[i])))
  }

  /** Every reservation is in one slot, taken or released, and every used slot has one. */
  ghost predicate Ledger(entries: seq<Entry>, logs: seq<Log>, places: seq<Place>) {
    && |entries| == |logs|
    && (forall i :: 0 <= i < |entries| && entries[i].used ==> logs[i].id < |places| && places[logs[i].id] == At(i))
    && (forall id :: 0 <= id < |places| && places[id].At? ==>
                       places[id].slot < |entries| && entries[places[id].slot].used && logs[places[id].slot].id == id)
  }

  /** The deliveries of take(): every taken reservation once. */
  ghost predicate Delivered(delivered: seq<Log>, places: seq<Place>) {
    && (forall k :: 0 <= k < |delivered| ==> delivered[k].id < |places| && places[delivered[k].id].Taken?)
    && (forall j, k :: 0 <= j < k < |delivered| ==> delivered[j].id != delivered[k].id)
    && (forall id :: 0 <= id < |places| && places[id].Taken? ==>
        exists k :: 0 <= k < |delivered| && delivered[k].id == id)
  }

  /**
   * A batch whose commands have all completed is ready exactly if it had any: a batch
   * of none is never delivered by take.
   */
  lemma ReadyExactly(entries: seq<Entry>, q: seq<nat>, logs: seq<Log>, i: nat)
    requires Consistent(entries, q, logs) && i < SLOTS && entries[i].used && |logs[i].results| == logs[i].commands
    ensures i in q <==> logs[i].commands > 0
  {
    assert Records(entries[i], logs[i]);
  }

  class AudioCompletions {
    const entries: array<Entry>
    const ready: array<nat>
    var head: nat
    var readyCount: nat
    var count: nat
    ghost var q: seq<nat>     // Finished slots in the order of completion
    ghost var logs: seq<Log>  // What happened to each reservation
    ghost var places: seq<Place>  // Where each reservation is
    ghost var delivered: seq<Log> // Reservations that were taken, in order

    ghost predicate Valid()
      reads this, entries, ready
    {
      && entries.Length == SLOTS == ready.Length && readyCount == |q|
      && Queued(ready[..], head, q) && Consistent(entries[..], q, logs)
      && count == CountUsed(entries[..])
      && Ledger(entries[..], logs, places) && Delivered(delivered, places)
    }

    constructor ()
      ensures Valid() && delivered == [] && places == [] && q == [] && count == 0 && fresh(entries) && fresh(ready)
      ensures forall i :: 0 <= i < SLOTS ==> !entries[i].used
    {
      entries := new Entry[SLOTS](_ => EMPTY);
      ready := new nat[SLOTS](_ => 0);
      head, readyCount, count, q, places, delivered := 0, 0, 0, [], [], [];
      logs := seq(SLOTS, _ => Log(0, 0, 0, []));
      new;
      CountNone(entries[..]);
    }

    /** The first unused slot. */
    method FindFree() returns (slot: int)
      requires entries.Length == SLOTS
      ensures -1 <= slot < SLOTS
      ensures slot >= 0 ==> !entries[slot].used
      ensures slot < 0 ==> forall i :: 0 <= i < SLOTS ==> entries[i].used
    {
      for i := 0 to SLOTS
        invariant forall j :: 0 <= j < i ==> entries[j].used
      {
        if !entries[i].used {
          return i;
        }
      }
      return -1;
    }

    /** Reserve a slot for a batch of commands, or fail when every slot is used. */
    method Reserve(commands: nat, callback: nat) returns (slot: int)
      requires Valid()
      modifies this`count, this`logs, this`places, entries
      ensures Valid() && -1 <= slot < SLOTS
      ensures slot < 0 <==> forall i :: 0 <= i < SLOTS ==> old(entries[i].used)
      ensures slot < 0 ==> entries[..] == old(entries[..]) && logs == old(logs) && places == old(places)
      ensures slot >= 0 ==>
                && !old(entries[slot].used) && logs == old(logs)[slot := Log(|old(places)|, callback, commands, [])]
                            && entries[..] == old(entries[..])[slot := Entry(callback, commands, OKAY, -1, true)]
                            && places == old(places) + [At(slot)]
      ensures count == old(count) + One(slot >= 0)
    {
      hide CountUsed, Queued;
      slot := FindFree();
      if slot >= 0 {
        var entry := Entry(callback, commands, OKAY, -1, true);
        ghost var log := Log(|places|, callback, commands, []);
        ReservedConsistent(entries[..], q, logs, slot, entry, log);
        ReservedLedger(entries[..], logs, places, slot, entry, log, delivered);
        CountUpdate(entries[..], slot, entry);
        ghost var after := entries[..][slot := entry];
        entries[slot] := entry;
        assert entries[..] == after;
        logs, places := logs[slot := log], places + [At(slot)];
        count := count + 1;
      }
    }

    /** Append a slot to the ready ring. */
    method Push(slot: nat)
      requires ready.Length == SLOTS && readyCount == |q| && Queued(ready[..], head, q) && Unique(q) && slot < SLOTS
      requires slot !in q && forall k :: 0 <= k < |q| ==> q[k] < SLOTS
      modifies this`readyCount, this`q, ready
      ensures readyCount == |q| && q == old(q) + [slot] && Queued(ready[..], head, q)
    {
      RoomFor(q, slot);
      PushReady(ready[..], head, q, slot);
      var at := Ring(head, readyCount);
      ghost var ring := ready[..][at := slot];
      ready[at] := slot;
      assert ready[..] == ring;
      readyCount := readyCount + 1;
      q := q + [slot];
    }

    /**
     * One command of a slot has completed; the last one makes the slot ready.
     *  Unknown and finished slots are ignored.
     */
    method Complete(slot: int, index: int, error: Error)
      requires Valid() && slot < SLOTS
      modifies this`readyCount, this`q, this`logs, entries, ready
      ensures Valid() && count == old(count)
      ensures slot < 0 || old(entries[slot].remaining) == 0 ==>
                entries[..] == old(entries[..]) && q == old(q) && logs == old(logs)
      ensures slot >= 0 && old(entries[slot].remaining) > 0 ==>
                && entries[slot].used && entries[slot].remaining == old(entries[slot].remaining) - 1
                && logs == old(logs)[slot := old(logs)[slot].(results := old(logs)[slot].results + [(index, error)])]
                && (forall i :: 0 <= i < SLOTS && i != slot ==> entries[i] == old(entries[i]))
                && q == if entries[slot].remaining == 0 then old(q) + [slot] else old(q)
    {
      if slot < 0 {
        return;
      }
      var entry := entries[slot];
      if entry.remaining == 0 {
        return;
      }
      hide CountUsed, Records, Queued, Ledger, Delivered;
      assert Records(entry, logs[slot]);
      RecordNext(entry, logs[slot], index, error);
      ghost var log := logs[slot].(results := logs[slot].results + [(index, error)]);
      assert log.commands > 0 by {
        Positive(entries[slot], logs[slot]);
      }
      if entry.error == OKAY && error != OKAY {
        entry := entry.(error := error, failedCommand := index);
      }
      entry := entry.(remaining := entry.remaining - 1);
      Record(slot, entry, log);
    }

    /** The last step of complete(): store the entry, and queue a finished slot. */
    method Record(slot: nat, entry: Entry, ghost log: Log)
      requires Valid() && slot < SLOTS && entries[slot].used && entries[slot].remaining > 0 && entry.used
      requires log.id == logs[slot].id && log.commands == logs[slot].commands > 0 && Records(entry, log)
      modifies this`readyCount, this`q, this`logs, entries, ready
      ensures Valid() && count == old(count) && entries[..] == old(entries[..])[slot := entry]
      ensures logs == old(logs)[slot := log] && q == if entry.remaining == 0 then old(q) + [slot] else old(q)
    {
      hide CountUsed, Records, Queued, Ledger, Delivered;
      CountUpdate(entries[..], slot, entry);
      CompletedConsistent(entries[..], q, logs, slot, entry, log);
      CompletedLedger(entries[..], logs, places, slot, entry, log);
      ghost var after := entries[..][slot := entry];
      entries[slot] := entry;
      assert entries[..] == after;
      logs := logs[slot := log];
      if entry.remaining == 0 {
        Push(slot);
      }
    }

    /** Deliver the reservation that finished first; its slot is free again. */
    method Take() returns (taken: bool, result: Entry)
      requires Valid()
      modifies this`head, this`readyCount, this`count, this`q, this`places, this`delivered, entries
      ensures Valid()
      ensures taken == (old(q) != [])
      ensures !taken ==>
                entries[..] == old(entries[..]) && q == old(q) && delivered == old(delivered) && places == old(places)
      ensures taken ==> && q == old(q)[1..] && delivered == old(delivered) + [logs[old(q)[0]]]
                        && result == old(entries[..])[old(q)[0]] && Records(result, logs[old(q)[0]])
                        && result.remaining == 0
                        && entries[..] == old(entries[..])[old(q)[0] := EMPTY]
                        && places == old(places)[logs[old(q)[0]].id := Taken]
      ensures count == old(count) - One(taken)
    {
      if readyCount == 0 {
        return false, EMPTY;
      }
      hide CountUsed, Consistent, Ledger, Delivered, Queued, Records;
      PopReady(ready[..], head, q);
      FirstReady(entries[..], q, logs, places);
      var slot := ready[head];
      head := Ring(head, 1) % SLOTS;
      readyCount := readyCount - 1;
      result := entries[slot];
      CountUpdate(entries[..], slot, EMPTY);
      TakenConsistent(entries[..], q, logs, slot);
      TakenLedger(entries[..], logs, places, slot, delivered);
      ghost var after := entries[..][slot := EMPTY];
      entries[slot] := EMPTY;
      assert entries[..] == after;
      count := count - 1;
      delivered, places := delivered + [logs[slot]], places[logs[slot].id := Taken];
      q := q[1..];
      taken := true;
    }

    method ReleaseAll() returns (released: seq<nat>)
      requires entries.Length == SLOTS
      modifies entries
      ensures released == Callbacks(old(entries[..]), SLOTS) && forall i :: 0 <= i < SLOTS ==> entries[i] == EMPTY
    {
      released := [];
      ghost var was := entries[..];
      for i := 0 to SLOTS
        invariant forall j :: 0 <= j < i ==> entries[j] == EMPTY
        invariant forall j :: i <= j < SLOTS ==> entries[j] == was[j]
        invariant released == Callbacks(was, i)
      {
        if entries[i].used {
          released := released + [entries[i].callback];
        }
        entries[i] := EMPTY;
      }
    }

    /** Release every reserved callback, each once, and forget everything. */
    method Clear() returns (released: seq<nat>)
      requires Valid()
      modifies this`head, this`readyCount, this`count, this`q, this`places, entries
      ensures Valid() && q == [] && count == 0 && forall i :: 0 <= i < SLOTS ==> !entries[i].used
      ensures released == Callbacks(old(entries[..]), SLOTS)
      ensures places == AllReleased(old(places))
    {
      hide CountUsed, Callbacks;
      released := ReleaseAll();
      head, readyCount, count, q := 0, 0, 0, [];
      CountNone(entries[..]);
      ReleasedLedger(delivered, places);
      places := AllReleased(places);
    }
  }

  /** What is in a slot has been released. */
  ghost function AllReleased(places: seq<Place>): (r: seq<Place>)
    ensures |r| == |places|
    ensures forall id :: 0 <= id < |places| ==> r[id] == if places[id].At? then Released else places[id]
  {
    seq(|places|, id requires 0 <= id < |places| => if places[id].At? then Released else places[id])
  }

  lemma ReleasedLedger(delivered: seq<Log>, places: seq<Place>)
    requires Delivered(delivered, places)
    ensures Delivered(delivered, AllReleased(places))
  {
  }

  /** The slot that finished first. */
  lemma FirstReady(entries: seq<Entry>, q: seq<nat>, logs: seq<Log>, places: seq<Place>)
    requires Consistent(entries, q, logs) && Ledger(entries, logs, places) && |q| > 0
    ensures q[0] < SLOTS == |entries| == |logs| && entries[q[0]].used && entries[q[0]].remaining == 0
    ensures Records(entries[q[0]], logs[q[0]]) && logs[q[0]].id < |places|
  {
    assert q[0] in q && Finished(entries[q[0]], logs[q[0]]);
  }

  lemma ReservedConsistent(entries: seq<Entry>, q: seq<nat>, logs: seq<Log>, slot: nat, entry: Entry, log: Log)
    requires Consistent(entries, q, logs) && slot < SLOTS && !entries[slot].used && log.results == []
    requires entry == Entry(log.callback, log.commands, OKAY, -1, true)
    ensures Consistent(entries[slot := entry], q, logs[slot := log])
  {
    assert Records(entry, log);
    hide Records;
  }

  lemma ReservedLedger(entries: seq<Entry>, logs: seq<Log>, places: seq<Place>, slot: nat, entry: Entry, log: Log,
                       delivered: seq<Log>)
    requires Ledger(entries, logs, places) && Delivered(delivered, places) && slot < |entries| && !entries[slot].used
    requires entry.used && log.id == |places|
    ensures Ledger(entries[slot := entry], logs[slot := log], places + [At(slot)])
    ensures Delivered(delivered, places + [At(slot)])
  {
  }

  lemma CompletedConsistent(entries: seq<Entry>, q: seq<nat>, logs: seq<Log>, slot: nat, entry: Entry, log: Log)
    requires Consistent(entries, q, logs) && slot < SLOTS && entries[slot].remaining > 0 && Records(entry, log)
    requires log.commands == logs[slot].commands > 0
    ensures slot !in q
    ensures Consistent(entries[slot := entry], if entry.remaining == 0 then q + [slot] else q, logs[slot := log])
  {
    assert Finished(entry, log) <==> entry.remaining == 0;
    hide Records;
    assert !Finished(entries[slot], logs[slot]);
    var q' := if entry.remaining == 0 then q + [slot] else q;
    assert forall i: nat :: i in q' <==> i in q || (entry.remaining == 0 && i == slot);
    assert Records(entry, log);
  }

  lemma CompletedLedger(entries: seq<Entry>, logs: seq<Log>, places: seq<Place>, slot: nat, entry: Entry, log: Log)
    requires Ledger(entries, logs, places) && slot < |entries| && entries[slot].used && entry.used
    requires log.id == logs[slot].id
    ensures Ledger(entries[slot := entry], logs[slot := log], places)
  {
  }

  lemma TakenLedger(entries: seq<Entry>, logs: seq<Log>, places: seq<Place>, slot: nat, delivered: seq<Log>)
    requires Ledger(entries, logs, places) && Delivered(delivered, places) && slot < |entries| && entries[slot].used
    ensures Ledger(entries[slot := EMPTY], logs, places[logs[slot].id := Taken])
    ensures Delivered(delivered + [logs[slot]], places[logs[slot].id := Taken])
  {
    var id, delivered' := logs[slot].id, delivered + [logs[slot]];
    var places' := places[id := Taken];
    forall j | 0 <= j < |places'| && places'[j].Taken?
      ensures exists k :: 0 <= k < |delivered'| && delivered'[k].id == j
    {
      if j == id {
        assert delivered'[|delivered|].id == id;
      } else {
        var k :| 0 <= k < |delivered| && delivered[k].id == j;
        assert delivered'[k].id == j;
      }
    }
  }

  /** The callbacks of the first n slots that are used. */
  ghost function Callbacks(es: seq<Entry>, n: nat): seq<nat>
    requires n <= |es|
  {
    if n == 0 then [] else Callbacks(es, n - 1) + if es[n - 1].used then [es[n - 1].callback] else []
  }

  lemma TakenConsistent(entries: seq<Entry>, q: seq<nat>, logs: seq<Log>, slot: nat)
    requires Consistent(entries, q, logs) && |q| > 0 && slot == q[0]
    ensures Consistent(entries[slot := EMPTY], q[1..], logs)
  {
    hide Records;
    forall i | 0 <= i < SLOTS
      ensures i in q[1..] <==> Finished(entries[slot := EMPTY][i], logs[i])
    {
      if i in q {
        var k :| 0 <= k < |q| && q[k] == i;
        if k > 0 {
          assert q[1..][k - 1] == i;
        }
      }
    }
  }
}
