/** Concurrent `fetch_and_update` (client-common/src/storage/sled_storage.rs:72-93), each call a loop of
    compare-and-swap, against the version that holds a lock
    (client-common/src/storage/memory_storage.rs:58-83). One key; calls are numbered, and `f(t, v)` is
    what the update function of call t makes of the value v. */
module CompareAndSwap {
  import opened Wrappers
  import opened Transactions
  import opened AddressIndex

  type Update<!V, !E> = (nat, Option<V>) -> Result<Option<V>, E>

  /** The lock-based call: the new value of the key and what the call returns. */
  function Locked<V, E>(f: Update<V, E>, t: nat, cell: Option<V>): (Option<V>, Result<Option<V>, E>) {
    match f(t, cell)
    case Err(e) => (cell, Err(e))
    case Ok(next) => (next, Ok(cell))
  }

  datatype Call<V, E> =
    | Called(start: nat)
    | Loaded(start: nat, current: Option<V>)
    | Returned(result: Result<Option<V>, E>)

  datatype Step = Begin(t: nat) | Load(t: nat) | Attempt(t: nat)

  /** An entry of the serial order: which call, when it started and returned, and its result. */
  datatype Entry<V, E> = Entry(t: nat, start: nat, end: nat, result: Result<Option<V>, E>)

  /** `marks[t]` is how many entries of the serial order come before the value call t has loaded. */
  datatype System<V, E> = System(
    cell: Option<V>, calls: map<nat, Call<V, E>>, clock: nat,
    log: seq<Entry<V, E>>, marks: map<nat, nat>)

  predicate Enabled<V, E>(s: System<V, E>, step: Step) {
    match step
    case Begin(t) => t !in s.calls
    case Load(t) => t in s.calls && s.calls[t].Called?
    case Attempt(t) => t in s.calls && s.calls[t].Loaded? && t in s.marks && s.marks[t] <= |s.log|
  }

  function Insert<T>(s: seq<T>, k: nat, x: T): seq<T>
    requires k <= |s|
  {
    s[..k] + [x] + s[k..]
  }

  function Shifted(marks: map<nat, nat>, k: nat): map<nat, nat> {
    map t | t in marks :: if marks[t] >= k then marks[t] + 1 else marks[t]
  }

  /** One step of one call. A failing update function returns at once and belongs, in the serial
      order, where the value it was given was read; a successful swap belongs at the end. */
  function Take<V(==), E>(f: Update<V, E>, s: System<V, E>, step: Step): System<V, E>
    requires Enabled(s, step)
  {
    var now := s.clock + 1;
    match step
    case Begin(t) => s.(clock := now, calls := s.calls[t := Called(now)])
    case Load(t) =>
      s.(clock := now, calls := s.calls[t := Loaded(s.calls[t].start, s.cell)], marks := s.marks[t := |s.log|])
    case Attempt(t) =>
      var start, current := s.calls[t].start, s.calls[t].current;
      match f(t, current)
      case Err(e) =>
        s.(clock := now, calls := s.calls[t := Returned(Err(e))],
           log := Insert(s.log, s.marks[t], Entry(t, start, now, Err(e))),
           marks := Shifted(s.marks, s.marks[t]))
      case Ok(next) =>
        if s.cell == current then
          s.(clock := now, cell := next, calls := s.calls[t := Returned(Ok(current))],
             log := s.log + [Entry(t, start, now, Ok(current))])
        else
          s.(clock := now, calls := s.calls[t := Loaded(start, s.cell)], marks := s.marks[t := |s.log|])
  }

  function Initial<V, E>(cell: Option<V>): System<V, E> {
    System(cell, map[], 0, [], map[])
  }

  function After<V(==), E>(f: Update<V, E>, cell: Option<V>, steps: seq<Step>): System<V, E> {
    if steps == [] then Initial(cell)
    else
      var s := After(f, cell, steps[..|steps| - 1]);
      if Enabled(s, steps[|steps| - 1]) then Take(f, s, steps[|steps| - 1]) else s
  }

  // ---------- The serial order ----------

  /** The value after the calls of the log, one after the other, each under the lock. */
  function Serial<V, E>(f: Update<V, E>, cell: Option<V>, log: seq<Entry<V, E>>): Option<V> {
    if log == [] then cell else Locked(f, log[|log| - 1].t, Serial(f, cell, log[..|log| - 1])).0
  }

  /** Every call of the log returns what it returns under the lock at its place. */
  predicate SameResults<V(==), E(==)>(f: Update<V, E>, cell: Option<V>, log: seq<Entry<V, E>>) {
    forall i | 0 <= i < |log| :: Locked(f, log[i].t, Serial(f, cell, log[..i])).1 == log[i].result
  }

  /** A call that returned before another one started comes before it. */
  predicate RealTime<V, E>(log: seq<Entry<V, E>>) {
    forall i, j | 0 <= i < j < |log| :: log[i].start <= log[j].end
  }

  /** Exactly the calls that have returned are in the log, once each, with their results. */
  predicate Complete<V(==), E(==)>(calls: map<nat, Call<V, E>>, log: seq<Entry<V, E>>) {
    OnceEach(log) && Matching(calls, log) && forall t | t in calls && calls[t].Returned? :: Listed(log, t)
  }

  predicate OnceEach<V, E>(log: seq<Entry<V, E>>) {
    forall i, j | 0 <= i < j < |log| :: log[i].t != log[j].t
  }

  predicate Matching<V(==), E(==)>(calls: map<nat, Call<V, E>>, log: seq<Entry<V, E>>) {
    forall i | 0 <= i < |log| :: log[i].t in calls && calls[log[i].t] == Returned(log[i].result)
  }

  predicate Listed<V, E>(log: seq<Entry<V, E>>, t: nat) {
    exists i | 0 <= i < |log| :: log[i].t == t
  }

  predicate TimesOk<V, E>(s: System<V, E>) {
    && (forall i | 0 <= i < |s.log| :: s.log[i].start <= s.clock && s.log[i].end <= s.clock)
    && (forall t | t in s.calls && !s.calls[t].Returned? :: s.calls[t].start <= s.clock)
  }

  /** The value a call has loaded is the serial value at its mark, and whatever comes after the mark
      returned after the call had started. */
  predicate ReadOk<V(==), E>(f: Update<V, E>, cell: Option<V>, s: System<V, E>, t: nat) {
    t in s.calls && s.calls[t].Loaded? ==>
      && t in s.marks && s.marks[t] <= |s.log|
      && Serial(f, cell, s.log[..s.marks[t]]) == s.calls[t].current
      && forall j | s.marks[t] <= j < |s.log| :: s.calls[t].start <= s.log[j].end
  }

  ghost predicate Good<V, E>(f: Update<V, E>, cell: Option<V>, s: System<V, E>) {
    && Serial(f, cell, s.log) == s.cell && SameResults(f, cell, s.log)
    && RealTime(s.log) && Complete(s.calls, s.log) && TimesOk(s)
    && forall t :: ReadOk(f, cell, s, t)
  }

  // ---------- Adding to the serial order ----------

  lemma SerialPush<V, E>(f: Update<V, E>, cell: Option<V>, log: seq<Entry<V, E>>, x: Entry<V, E>)
    ensures Serial(f, cell, log + [x]) == Locked(f, x.t, Serial(f, cell, log)).0
  {
    assert (log + [x])[..|log|] == log;
  }

  lemma SameResultsPush<V, E>(f: Update<V, E>, cell: Option<V>, log: seq<Entry<V, E>>, x: Entry<V, E>)
    requires SameResults(f, cell, log) && Locked(f, x.t, Serial(f, cell, log)).1 == x.result
    ensures SameResults(f, cell, log + [x])
  {
    hide Serial, Locked;
    var all := log + [x];
    forall i | 0 <= i < |all| ensures Locked(f, all[i].t, Serial(f, cell, all[..i])).1 == all[i].result {
      assert all[..i] == if i < |log| then log[..i] else log;
    }
  }

  predicate Idle<V(==), E>(f: Update<V, E>, cell: Option<V>, log: seq<Entry<V, E>>, k: nat, x: Entry<V, E>)
    requires k <= |log|
  {
    Locked(f, x.t, Serial(f, cell, log[..k])).0 == Serial(f, cell, log[..k])
  }

  /** A call without effect can be put anywhere its value fits: every later value stays. */
  lemma {:induction false} SerialInsert<V, E>(
    f: Update<V, E>, cell: Option<V>, log: seq<Entry<V, E>>, k: nat, x: Entry<V, E>, n: nat)
    requires k <= n <= |log| && Idle(f, cell, log, k, x)
    ensures Serial(f, cell, Insert(log, k, x)[..n + 1]) == Serial(f, cell, log[..n])
    decreases n
  {
    var all := Insert(log, k, x);
    if n == k {
      assert all[..k + 1] == log[..k] + [x];
      SerialPush(f, cell, log[..k], x);
    } else {
      SerialInsert(f, cell, log, k, x, n - 1);
      assert all[..n + 1] == all[..n] + [log[n - 1]];
      assert log[..n] == log[..n - 1] + [log[n - 1]];
      SerialPush(f, cell, all[..n], log[n - 1]);
      SerialPush(f, cell, log[..n - 1], log[n - 1]);
    }
  }

  lemma SerialBefore<V, E>(f: Update<V, E>, cell: Option<V>, log: seq<Entry<V, E>>, k: nat, x: Entry<V, E>, n: nat)
    requires n <= k <= |log|
    ensures Serial(f, cell, Insert(log, k, x)[..n]) == Serial(f, cell, log[..n])
  {
    assert Insert(log, k, x)[..n] == log[..n];
  }

  lemma SameResultsInsert<V, E>(f: Update<V, E>, cell: Option<V>, log: seq<Entry<V, E>>, k: nat, x: Entry<V, E>)
    requires SameResults(f, cell, log) && k <= |log| && Idle(f, cell, log, k, x)
    requires Locked(f, x.t, Serial(f, cell, log[..k])).1 == x.result
    ensures SameResults(f, cell, Insert(log, k, x))
  {
    hide Serial, Locked;
    var all := Insert(log, k, x);
    forall i | 0 <= i < |all| ensures Locked(f, all[i].t, Serial(f, cell, all[..i])).1 == all[i].result {
      if i <= k {
        SerialBefore(f, cell, log, k, x, i);
        if i < k { assert all[i] == log[i]; } else { assert all[i] == x; }
      } else {
        SerialInsert(f, cell, log, k, x, i - 1);
        assert all[i] == log[i - 1];
      }
    }
  }

  lemma RealTimePush<V, E>(log: seq<Entry<V, E>>, x: Entry<V, E>)
    requires RealTime(log) && forall i | 0 <= i < |log| :: log[i].start <= x.end
    ensures RealTime(log + [x])
  {
  }

  lemma InsertAt<T>(s: seq<T>, k: nat, x: T)
    requires k <= |s|
    ensures |Insert(s, k, x)| == |s| + 1 && Insert(s, k, x)[k] == x
    ensures forall i | 0 <= i < k :: Insert(s, k, x)[i] == s[i]
    ensures forall i | k < i <= |s| :: Insert(s, k, x)[i] == s[i - 1]
  {
  }

  lemma RealTimeInsert<V, E>(log: seq<Entry<V, E>>, k: nat, x: Entry<V, E>)
    requires RealTime(log) && k <= |log|
    requires (forall i | 0 <= i < k :: log[i].start <= x.end) && (forall j | k <= j < |log| :: x.start <= log[j].end)
    ensures RealTime(Insert(log, k, x))
  {
    InsertAt(log, k, x);
    hide Insert;
  }

  lemma MatchingInsert<V, E>(calls: map<nat, Call<V, E>>, log: seq<Entry<V, E>>, k: nat, x: Entry<V, E>)
    requires Matching(calls, log) && OnceEach(log) && k <= |log| && x.t in calls && !calls[x.t].Returned?
    ensures Matching(calls[x.t := Returned(x.result)], Insert(log, k, x)) && OnceEach(Insert(log, k, x))
  {
    hide Insert;
    InsertAt(log, k, x);
    assert forall i | 0 <= i < |log| :: log[i].t != x.t;
  }

  lemma ListedInsert<V, E>(log: seq<Entry<V, E>>, k: nat, x: Entry<V, E>, t: nat)
    requires k <= |log| && (t == x.t || Listed(log, t))
    ensures Listed(Insert(log, k, x), t)
  {
    hide Insert;
    InsertAt(log, k, x);
    var all := Insert(log, k, x);
    if t == x.t {
      assert all[k].t == t;
    } else {
      var i :| 0 <= i < |log| && log[i].t == t;
      assert all[if i < k then i else i + 1].t == t;
    }
  }

  lemma CompleteInsert<V, E>(calls: map<nat, Call<V, E>>, log: seq<Entry<V, E>>, k: nat, x: Entry<V, E>)
    requires Complete(calls, log) && k <= |log| && x.t in calls && !calls[x.t].Returned?
    ensures Complete(calls[x.t := Returned(x.result)], Insert(log, k, x))
  {
    hide Insert, OnceEach, Matching, Listed;
    MatchingInsert(calls, log, k, x);
    var after := calls[x.t := Returned(x.result)];
    forall t | t in after && after[t].Returned? ensures Listed(Insert(log, k, x), t) {
      ListedInsert(log, k, x, t);
    }
  }

  lemma InsertLast<T>(s: seq<T>, x: T)
    ensures Insert(s, |s|, x) == s + [x]
  {
  }

  // ---------- Every step keeps the order ----------

  lemma BeginKeeps<V, E>(f: Update<V, E>, cell: Option<V>, s: System<V, E>, t: nat)
    requires Good(f, cell, s) && Enabled(s, Begin(t))
    ensures Good(f, cell, Take(f, s, Begin(t)))
  {
    hide Serial, SameResults, RealTime;
    var s' := Take(f, s, Begin(t));
    forall u ensures ReadOk(f, cell, s', u) { assert ReadOk(f, cell, s, u); }
  }

  function Reloaded<V, E>(s: System<V, E>, t: nat): System<V, E>
    requires t in s.calls && !s.calls[t].Returned?
  {
    s.(clock := s.clock + 1, calls := s.calls[t := Loaded(s.calls[t].start, s.cell)], marks := s.marks[t := |s.log|])
  }

  /** Loading the cell, at the start or after a failed swap. */
  lemma LoadKeeps<V, E>(f: Update<V, E>, cell: Option<V>, s: System<V, E>, t: nat)
    requires Good(f, cell, s) && t in s.calls && !s.calls[t].Returned?
    ensures Good(f, cell, Reloaded(s, t))
  {
    hide Serial, SameResults, RealTime;
    var s' := Reloaded(s, t);
    assert s.log[..|s.log|] == s.log;
    forall u ensures ReadOk(f, cell, s', u) { assert ReadOk(f, cell, s, u); }
  }

  function Swapped<V, E>(s: System<V, E>, t: nat, next: Option<V>): System<V, E>
    requires t in s.calls && s.calls[t].Loaded?
  {
    s.(clock := s.clock + 1, cell := next, calls := s.calls[t := Returned(Ok(s.cell))],
       log := s.log + [Entry(t, s.calls[t].start, s.clock + 1, Ok(s.cell))])
  }

  lemma ReadAfterSwap<V, E>(f: Update<V, E>, cell: Option<V>, s: System<V, E>, t: nat, next: Option<V>, u: nat)
    requires ReadOk(f, cell, s, u) && TimesOk(s) && t in s.calls && s.calls[t].Loaded?
    ensures ReadOk(f, cell, Swapped(s, t, next), u)
  {
    hide Serial;
    if u != t && u in s.calls && s.calls[u].Loaded? {
      assert Swapped(s, t, next).log[..s.marks[u]] == s.log[..s.marks[u]];
    }
  }

  lemma SwapKeeps<V, E>(f: Update<V, E>, cell: Option<V>, s: System<V, E>, t: nat, next: Option<V>)
    requires Good(f, cell, s) && t in s.calls && s.calls[t].Loaded? && f(t, s.cell) == Ok(next)
    ensures Good(f, cell, Swapped(s, t, next))
  {
    hide Serial, SameResults, RealTime, Complete, ReadOk;
    var s', x := Swapped(s, t, next), Entry(t, s.calls[t].start, s.clock + 1, Ok(s.cell));
    SerialPush(f, cell, s.log, x);
    SameResultsPush(f, cell, s.log, x);
    RealTimePush(s.log, x);
    InsertLast(s.log, x);
    CompleteInsert(s.calls, s.log, |s.log|, x);
    forall u ensures ReadOk(f, cell, s', u) { ReadAfterSwap(f, cell, s, t, next, u); }
  }

  function Failed<V, E>(s: System<V, E>, t: nat, e: E): System<V, E>
    requires t in s.calls && s.calls[t].Loaded? && t in s.marks && s.marks[t] <= |s.log|
  {
    s.(clock := s.clock + 1, calls := s.calls[t := Returned(Err(e))],
       log := Insert(s.log, s.marks[t], Entry(t, s.calls[t].start, s.clock + 1, Err(e))),
       marks := Shifted(s.marks, s.marks[t]))
  }

  lemma ReadAfterFailure<V, E>(f: Update<V, E>, cell: Option<V>, s: System<V, E>, t: nat, u: nat, e: E)
    requires ReadOk(f, cell, s, u) && ReadOk(f, cell, s, t) && TimesOk(s)
    requires t in s.calls && s.calls[t].Loaded? && f(t, s.calls[t].current) == Err(e)
    ensures ReadOk(f, cell, Failed(s, t, e), u)
  {
    hide Serial, Insert;
    if u != t && u in s.calls && s.calls[u].Loaded? {
      var k, m, x := s.marks[t], s.marks[u], Entry(t, s.calls[t].start, s.clock + 1, Err(e));
      assert Idle(f, cell, s.log, k, x);
      InsertAt(s.log, k, x);
      if m >= k {
        SerialInsert(f, cell, s.log, k, x, m);
      } else {
        SerialBefore(f, cell, s.log, k, x, m);
      }
    }
  }

  lemma TimesAfterFailure<V, E>(s: System<V, E>, t: nat, e: E)
    requires TimesOk(s) && t in s.calls && s.calls[t].Loaded? && t in s.marks && s.marks[t] <= |s.log|
    ensures TimesOk(Failed(s, t, e))
  {
    hide Insert;
    InsertAt(s.log, s.marks[t], Entry(t, s.calls[t].start, s.clock + 1, Err(e)));
  }

  lemma OrderAfterFailure<V, E>(f: Update<V, E>, cell: Option<V>, log: seq<Entry<V, E>>, k: nat, x: Entry<V, E>, e: E)
    requires k <= |log| && f(x.t, Serial(f, cell, log[..k])) == Err(e)
    requires x.result == Err(e) && SameResults(f, cell, log)
    ensures Serial(f, cell, Insert(log, k, x)) == Serial(f, cell, log)
    ensures SameResults(f, cell, Insert(log, k, x))
  {
    hide Serial, SameResults;
    assert Idle(f, cell, log, k, x);
    SerialInsert(f, cell, log, k, x, |log|);
    assert Insert(log, k, x)[..|log| + 1] == Insert(log, k, x) && log[..|log|] == log;
    SameResultsInsert(f, cell, log, k, x);
  }

  lemma TimeAfterFailure<V, E>(f: Update<V, E>, cell: Option<V>, s: System<V, E>, t: nat, e: E)
    requires ReadOk(f, cell, s, t) && TimesOk(s) && RealTime(s.log) && t in s.calls && s.calls[t].Loaded?
    ensures t in s.marks && s.marks[t] <= |s.log|
    ensures Serial(f, cell, s.log[..s.marks[t]]) == s.calls[t].current
    ensures RealTime(Failed(s, t, e).log)
  {
    hide Serial, Insert;
    RealTimeInsert(s.log, s.marks[t], Entry(t, s.calls[t].start, s.clock + 1, Err(e)));
  }

  lemma FailKeeps<V, E>(f: Update<V, E>, cell: Option<V>, s: System<V, E>, t: nat, e: E)
    requires Good(f, cell, s) && t in s.calls && s.calls[t].Loaded? && f(t, s.calls[t].current) == Err(e)
    ensures t in s.marks && s.marks[t] <= |s.log|
    ensures Good(f, cell, Failed(s, t, e))
  {
    hide Serial, SameResults, RealTime, Complete, Insert, ReadOk, TimesOk;
    TimeAfterFailure(f, cell, s, t, e);
    var k, x := s.marks[t], Entry(t, s.calls[t].start, s.clock + 1, Err(e));
    OrderAfterFailure(f, cell, s.log, k, x, e);
    CompleteInsert(s.calls, s.log, k, x);
    TimesAfterFailure(s, t, e);
    var s' := Failed(s, t, e);
    forall u ensures ReadOk(f, cell, s', u) { ReadAfterFailure(f, cell, s, t, u, e); }
  }

  lemma StepKeeps<V, E>(f: Update<V, E>, cell: Option<V>, s: System<V, E>, step: Step)
    requires Good(f, cell, s) && Enabled(s, step)
    ensures Good(f, cell, Take(f, s, step))
  {
    hide Good;
    match step
    case Begin(t) => BeginKeeps(f, cell, s, t);
    case Load(t) => LoadKeeps(f, cell, s, t);
    case Attempt(t) =>
      var r := f(t, s.calls[t].current);
      if r.Err? {
        FailKeeps(f, cell, s, t, r.error);
      } else if s.cell == s.calls[t].current {
        SwapKeeps(f, cell, s, t, r.value);
      } else {
        LoadKeeps(f, cell, s, t);
      }
  }

  /** Every interleaving of calls is equivalent to a serial order of the same calls under the lock:
      same value of the key, same result of every call that has returned, and calls that do not
      overlap keep their order. */
  lemma {:induction false} Linearizable<V, E>(f: Update<V, E>, cell: Option<V>, steps: seq<Step>)
    ensures var s := After(f, cell, steps);
            && Serial(f, cell, s.log) == s.cell && SameResults(f, cell, s.log)
            && Complete(s.calls, s.log) && RealTime(s.log)
            && Good(f, cell, s)
    decreases |steps|
  {
    if steps == [] {
      assert Good(f, cell, Initial(cell));
    } else {
      hide Take, Enabled;
      Linearizable(f, cell, steps[..|steps| - 1]);
      var s := After(f, cell, steps[..|steps| - 1]);
      if Enabled(s, steps[|steps| - 1]) { StepKeeps(f, cell, s, steps[|steps| - 1]); }
    }
  }

  // ---------- The same memento from many threads ----------

  /** `apply_memento` on one address: every call applies the same operations. */
  function MementoUpdate(txid: TxId, ops: seq<Operation>): Update<Details, IndexError> {
    (t: nat, value: Option<Details>) =>
      match ApplyMemento(Stored(value), txid, ops)
      case Err(e) => Err(e)
      case Ok(d) => Ok(Some(d))
  }

  function Stored(cell: Option<Details>): Details {
    if cell.Some? then cell.value else NewDetails()
  }

  predicate AllOk<V, E>(log: seq<Entry<V, E>>) {
    forall i | 0 <= i < |log| :: log[i].result.Ok?
  }

  predicate AllErr<V, E>(log: seq<Entry<V, E>>) {
    forall i | 0 <= i < |log| :: log[i].result.Err?
  }

  lemma SameResultsInit<V, E>(f: Update<V, E>, cell: Option<V>, log: seq<Entry<V, E>>)
    requires SameResults(f, cell, log) && log != []
    ensures SameResults(f, cell, log[..|log| - 1])
    ensures Locked(f, log[|log| - 1].t, Serial(f, cell, log[..|log| - 1])).1 == log[|log| - 1].result
  {
    hide Serial, Locked;
    var init := log[..|log| - 1];
    forall i | 0 <= i < |init| ensures Locked(f, init[i].t, Serial(f, cell, init[..i])).1 == init[i].result {
      assert init[..i] == log[..i] && init[i] == log[i];
    }
  }

  /** One call on the value before, and on the value after one application. */
  lemma LockedMemento(txid: TxId, ops: seq<Operation>, cell: Option<Details>, t: nat)
    ensures var f, once := MementoUpdate(txid, ops), ApplyMemento(Stored(cell), txid, ops);
            && (once.Ok? ==>
                  var after := Some(once.value);
                  Locked(f, t, cell) == (after, Ok(cell)) && Locked(f, t, after) == (after, Ok(after)))
            && (once.Err? ==> Locked(f, t, cell) == (cell, Err(once.error)))
  {
    if ApplyMemento(Stored(cell), txid, ops).Ok? { AppliedOnce(Stored(cell), txid, ops); }
  }

  lemma {:induction false} OnceInLog(
    txid: TxId, ops: seq<Operation>, cell: Option<Details>, log: seq<Entry<Details, IndexError>>)
    requires SameResults(MementoUpdate(txid, ops), cell, log)
    ensures var once := ApplyMemento(Stored(cell), txid, ops);
            var last := Serial(MementoUpdate(txid, ops), cell, log);
            && (once.Ok? ==> AllOk(log) && last == if log == [] then cell else Some(once.value))
            && (once.Err? ==> AllErr(log) && last == cell)
    decreases |log|
  {
    hide ApplyMemento, MementoUpdate, SameResults, Locked;
    if log != [] {
      var init, t := log[..|log| - 1], log[|log| - 1].t;
      SameResultsInit(MementoUpdate(txid, ops), cell, log);
      OnceInLog(txid, ops, cell, init);
      assert forall i | 0 <= i < |init| :: log[i] == init[i];
      LockedMemento(txid, ops, cell, t);
    }
  }

  predicate SomeReturned<V, E>(s: System<V, E>) {
    exists t | t in s.calls :: s.calls[t].Returned?
  }

  lemma LoggedReturned<V, E>(s: System<V, E>)
    requires Complete(s.calls, s.log)
    ensures SomeReturned(s) <==> s.log != []
    ensures AllOk(s.log) ==> forall t | t in s.calls && s.calls[t].Returned? :: s.calls[t].result.Ok?
    ensures AllErr(s.log) ==> forall t | t in s.calls && s.calls[t].Returned? :: s.calls[t].result.Err?
  {
    forall t | t in s.calls && s.calls[t].Returned?
      ensures s.log != []
      ensures AllOk(s.log) ==> s.calls[t].result.Ok?
      ensures AllErr(s.log) ==> s.calls[t].result.Err?
    {
      assert Listed(s.log, t);
      var i :| 0 <= i < |s.log| && s.log[i].t == t;
    }
    if s.log != [] { assert s.log[0].t in s.calls; }
  }

  /** Whatever the interleaving, any number of calls with the same memento change an address exactly
      once. If it applies to the value before, every call that returns succeeds, and the value is
      the one after a single application as soon as one has returned, and not before. If it does not
      apply, every call that returns fails, and the value never changes. */
  lemma ExactlyOnce(txid: TxId, ops: seq<Operation>, cell: Option<Details>, steps: seq<Step>)
    ensures var s := After(MementoUpdate(txid, ops), cell, steps);
            var once := ApplyMemento(Stored(cell), txid, ops);
            && (once.Ok? ==>
                  && s.cell == (if SomeReturned(s) then Some(once.value) else cell)
                  && forall t | t in s.calls && s.calls[t].Returned? :: s.calls[t].result.Ok?)
            && (once.Err? ==>
                  && s.cell == cell
                  && forall t | t in s.calls && s.calls[t].Returned? :: s.calls[t].result.Err?)
  {
    hide After, Serial, Good, Complete, RealTime, ApplyMemento, AllOk, AllErr, SomeReturned;
    var f := MementoUpdate(txid, ops);
    Linearizable(f, cell, steps);
    OnceInLog(txid, ops, cell, After(f, cell, steps).log);
    LoggedReturned(After(f, cell, steps));
  }
}
