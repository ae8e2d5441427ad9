/**
 * The timer helpers `setTimeout`, `clearTimeout`, `setInterval` and
 * `clearInterval`: a closure over a `counter` that starts at 1 and an `ids`
 * table from id to scheduled task. The value-level functions below say what
 * each helper does to that state; class `Registry` is the closure itself.
 * Real time is not modelled: the host timer running a task is `Take`.
 */
module Timers {

  import opened Wrappers

  /**
   * A task held in `ids`: its callback, its delay in milliseconds (for a
   * repeating task also its period), whether it repeats, and whether a
   * one-shot task has already run (the host timer never removes it).
   */
  datatype Task<F> = Task(fn: F, delay: nat, repeating: bool, executed: bool)

  /** The closure's state: the next id and the table of tasks. */
  datatype Table<F> = Table(counter: nat, ids: map<nat, Task<F>>)

  /** A new table together with the id a `set...` helper returned. */
  datatype Issued<F> = Issued(table: Table<F>, id: nat)

  /** A table after the host timer ran a task, and the callback it ran, if any. */
  datatype Fired<F> = Fired(table: Table<F>, fn: Option<F>)

  /** The state right after the closure ran: `counter = 1`, `ids = {}`. */
  function Init<F>(): Table<F>
  {
    Table(1, map[])
  }

  /** Every id in the table was issued earlier: it lies in `[1, counter)`. */
  ghost predicate Valid<F>(t: Table<F>)
  {
    1 <= t.counter && forall id :: id in t.ids ==> 1 <= id < t.counter
  }

  /** The host timer will still run task `id`: it is present, and repeats or has not run yet. */
  predicate Live<F>(t: Table<F>, id: nat)
  {
    id in t.ids && (t.ids[id].repeating || !t.ids[id].executed)
  }

  /** `var id = counter++; ids[id] = task; return id;` shared by both `set...` helpers. */
  function Insert<F>(t: Table<F>, task: Task<F>): (r: Issued<F>)
    ensures r.id == t.counter && r.table.counter == t.counter + 1
    ensures r.table.ids.Keys == t.ids.Keys + {r.id} && r.table.ids[r.id] == task
    ensures forall id :: id in t.ids && id != r.id ==> r.table.ids[id] == t.ids[id]
    ensures Valid(t) ==> Valid(r.table) && r.id !in t.ids
  {
    Issued(Table(t.counter + 1, t.ids[t.counter := task]), t.counter)
  }

  /** `setTimeout(fn, delay)`: a one-shot task under a fresh id. */
  function AddTimeout<F>(t: Table<F>, fn: F, delay: nat): (r: Issued<F>)
    ensures r.id == t.counter && r.table.counter == t.counter + 1
    ensures r.table.ids == t.ids[r.id := Task(fn, delay, false, false)]
    ensures Live(r.table, r.id)
    ensures Valid(t) ==> Valid(r.table) && r.id !in t.ids
  {
    Insert(t, Task(fn, delay, false, false))
  }

  /** `setInterval(fn, delay)`: a task repeating every `delay` ms under a fresh id. */
  function AddInterval<F>(t: Table<F>, fn: F, delay: nat): (r: Issued<F>)
    ensures r.id == t.counter && r.table.counter == t.counter + 1
    ensures r.table.ids == t.ids[r.id := Task(fn, delay, true, false)]
    ensures Live(r.table, r.id)
    ensures Valid(t) ==> Valid(r.table) && r.id !in t.ids
  {
    Insert(t, Task(fn, delay, true, false))
  }

  /**
   * `clearTimeout(id)`, which is also `clearInterval(id)`. The helper calls
   * `ids[id].cancel()` without checking that `id` is present, so for an
   * absent id it throws (None) before changing anything.
   */
  function Remove<F>(t: Table<F>, id: nat): (r: Option<Table<F>>)
    ensures r.Some? <==> id in t.ids
    ensures r.Some? ==> r.value.counter == t.counter && r.value.ids.Keys == t.ids.Keys - {id}
    ensures r.Some? ==> forall k :: k in r.value.ids ==> r.value.ids[k] == t.ids[k]
    ensures r.Some? && Valid(t) ==> Valid(r.value)
  {
    if id in t.ids then Some(t.(ids := t.ids - {id})) else None
  }

  /**
   * The host timer runs task `id`. A live one-shot task is marked as run and
   * stays in the table; a repeating task is left as it is; a task that will
   * not run (absent, or a one-shot that already ran) changes nothing.
   */
  function Take<F>(t: Table<F>, id: nat): (r: Fired<F>)
    ensures r.fn.Some? <==> Live(t, id)
    ensures r.fn.Some? ==> r.fn.value == t.ids[id].fn
    ensures r.table.counter == t.counter && r.table.ids.Keys == t.ids.Keys
    ensures forall k :: k in t.ids && k != id ==> r.table.ids[k] == t.ids[k]
    ensures Live(t, id) ==> (Live(r.table, id) <==> t.ids[id].repeating)
    ensures Live(t, id) && !t.ids[id].repeating ==> r.table.ids == t.ids[id := t.ids[id].(executed := true)]
    ensures !Live(t, id) || t.ids[id].repeating ==> r.table == t
    ensures Valid(t) ==> Valid(r.table)
  {
    if !Live(t, id) then Fired(t, None)
    else if t.ids[id].repeating then Fired(t, Some(t.ids[id].fn))
    else Fired(t.(ids := t.ids[id := t.ids[id].(executed := true)]), Some(t.ids[id].fn))
  }

  /** A call on the helpers, or the host timer running a task. */
  datatype Call<F> =
    | SetTimeoutCall(fn: F, delay: nat)
    | SetIntervalCall(fn: F, delay: nat)
    | ClearCall(id: nat)
    | FireCall(id: nat)

  /**
   * The table after a sequence of calls, with the ids the `set...` helpers
   * returned, in order. A `clearTimeout` that throws leaves the table as it was.
   */
  function Replay<F>(t: Table<F>, calls: seq<Call<F>>): (Table<F>, seq<nat>)
    decreases |calls|
  {
    if calls == [] then (t, [])
    else
      match calls[0]
      case SetTimeoutCall(fn, delay) =>
        var s := AddTimeout(t, fn, delay);
        var (t', rest) := Replay(s.table, calls[1..]);
        (t', [s.id] + rest)
      case SetIntervalCall(fn, delay) =>
        var s := AddInterval(t, fn, delay);
        var (t', rest) := Replay(s.table, calls[1..]);
        (t', [s.id] + rest)
      case ClearCall(id) =>
        var r := Remove(t, id);
        Replay(if r.Some? then r.value else t, calls[1..])
      case FireCall(id) =>
        Replay(Take(t, id).table, calls[1..])
  }

  /**
   * One-shot and repeating tasks share one counter that only the `set...`
   * helpers advance: the i-th id issued is `counter + i`, so issued ids are
   * distinct, none of them was in the table before, and the final counter
   * has moved by exactly the number of ids issued.
   */
  lemma {:induction false} IdsNeverReused<F>(t: Table<F>, calls: seq<Call<F>>)
    requires Valid(t)
    ensures Valid(Replay(t, calls).0)
    ensures Replay(t, calls).0.counter == t.counter + |Replay(t, calls).1|
    ensures forall i :: 0 <= i < |Replay(t, calls).1| ==> Replay(t, calls).1[i] == t.counter + i
    ensures forall i :: 0 <= i < |Replay(t, calls).1| ==> Replay(t, calls).1[i] !in t.ids
    decreases |calls|
  {
    if calls != [] {
      match calls[0]
      case SetTimeoutCall(fn, delay) =>
        IdsNeverReused(AddTimeout(t, fn, delay).table, calls[1..]);
      case SetIntervalCall(fn, delay) =>
        IdsNeverReused(AddInterval(t, fn, delay).table, calls[1..]);
      case ClearCall(id) =>
        var r := Remove(t, id);
        IdsNeverReused(if r.Some? then r.value else t, calls[1..]);
      case FireCall(id) =>
        IdsNeverReused(Take(t, id).table, calls[1..]);
    }
  }

  /** From the closure's initial state the ids issued are 1, 2, 3, ... */
  lemma IdsStartAtOne<F>(calls: seq<Call<F>>)
    ensures forall i :: 0 <= i < |Replay(Init<F>(), calls).1| ==> Replay(Init<F>(), calls).1[i] == i + 1
  {
    IdsNeverReused(Init<F>(), calls);
  }

  /** Clearing the same id twice throws the second time. */
  lemma ClearTwiceThrows<F>(t: Table<F>, id: nat)
    requires id in t.ids
    ensures Remove(t, id).Some? && Remove(Remove(t, id).value, id).None?
  {
  }

  /** The closure of the four timer helpers, updated in place. */
  class Registry<F> {
    var counter: nat
    var ids: map<nat, Task<F>>

    /** The closure's state as a value. */
    function Snapshot(): Table<F>
      reads this
    {
      Table(counter, ids)
    }

    constructor ()
      ensures Snapshot() == Init()
    {
      counter := 1;
      ids := map[];
    }

    /** `setTimeout(fn, delay)`. */
    method SetTimeout(fn: F, delay: nat) returns (id: nat)
      modifies this
      ensures Issued(Snapshot(), id) == AddTimeout(old(Snapshot()), fn, delay)
    {
      id := counter;
      counter := counter + 1;
      ids := ids[id := Task(fn, delay, false, false)];
    }

    /** `setInterval(fn, delay)`. */
    method SetInterval(fn: F, delay: nat) returns (id: nat)
      modifies this
      ensures Issued(Snapshot(), id) == AddInterval(old(Snapshot()), fn, delay)
    {
      id := counter;
      counter := counter + 1;
      ids := ids[id := Task(fn, delay, true, false)];
    }

    /** `clearTimeout(id)`; `ok` is false where `ids[id].cancel()` throws. */
    method ClearTimeout(id: nat) returns (ok: bool)
      modifies this
      ensures ok <==> id in old(ids)
      ensures Remove(old(Snapshot()), id) == if ok then Some(Snapshot()) else None
      ensures !ok ==> Snapshot() == old(Snapshot())
    {
      if id !in ids {
        return false;
      }
      ids := ids - {id};
      ok := true;
    }

    /** `clearInterval`, which the source binds to the very same function as `clearTimeout`. */
    method ClearInterval(id: nat) returns (ok: bool)
      modifies this
      ensures ok <==> id in old(ids)
      ensures Remove(old(Snapshot()), id) == if ok then Some(Snapshot()) else None
      ensures !ok ==> Snapshot() == old(Snapshot())
    {
      ok := ClearTimeout(id);
    }

    /** The host timer runs task `id`, if it is still due to run. */
    method Run(id: nat) returns (fn: Option<F>)
      modifies this
      ensures Fired(Snapshot(), fn) == Take(old(Snapshot()), id)
    {
      if id !in ids || (!ids[id].repeating && ids[id].executed) {
        return None;
      }
      fn := Some(ids[id].fn);
      if !ids[id].repeating {
        ids := ids[id := ids[id].(executed := true)];
      }
    }
  }
}
