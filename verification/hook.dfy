/**
 * The hook bus of `anon/Modules/Hook.php` (class `Anon_Hook`): a registry
 * `name -> priority -> callback id -> record`, actions and filters run in
 * ascending priority and, within a priority, in registration order, a stack of
 * the hook names currently running, and per-name execution counters.
 *
 * PHP's static arrays become the fields of one `HookBus` object. The inner
 * arrays are ordered maps: a hook name maps to a list of priority buckets kept
 * in ascending priority (what `ksort` restores after every registration), and
 * each bucket maps callback ids to records in insertion order.
 */
module Hook {
  import opened Common

  datatype Kind = Action | Filter

  /** The PHP callables `get_hook_id` distinguishes. */
  datatype Callback =
    | Named(functionName: string)                   // 'trim', 'Cls::method'
    | BoundMethod(objectHash: string, methodName: string) // [$object, 'method']
    | StaticMethod(className: string, methodName: string) // ['Cls', 'method']
    | Closure(objectHash: string)                   // function () { ... }
    | Invokable(serialized: string)                 // any other callable

  /** `get_hook_id`: the key a callback is stored under inside its bucket. */
  function HookId(cb: Callback): (r: string)
    ensures cb.Named? ==> r == cb.functionName
    ensures cb.Closure? ==> r == cb.objectHash
    ensures cb.BoundMethod? ==> r == cb.objectHash + "::" + cb.methodName
    ensures cb.StaticMethod? ==> cb.className <= r && r[|cb.className|..] == "::" + cb.methodName
    ensures cb.Invokable? ==> r == cb.serialized
  {
    match cb
    case Named(f) => f
    case BoundMethod(h, m) => h + "::" + m
    case StaticMethod(c, m) => c + "::" + m
    case Closure(h) => h
    case Invokable(s) => s
  }

  /** `['Cls', 'm']` and `'Cls::m'` share one slot: registering one replaces the other. */
  lemma StaticMethodSharesStringId(c: string, m: string)
    ensures HookId(StaticMethod(c, m)) == HookId(Named(c + "::" + m))
  {
  }

  /** Two methods of the same object or class are told apart by the method name. */
  lemma {:induction false} MethodIdsDiffer(owner: string, m1: string, m2: string)
    requires m1 != m2
    ensures HookId(BoundMethod(owner, m1)) != HookId(BoundMethod(owner, m2))
    ensures HookId(StaticMethod(owner, m1)) != HookId(StaticMethod(owner, m2))
  {
    var p := owner + "::";
    assert HookId(BoundMethod(owner, m1)) == p + m1 && (p + m1)[|p|..] == m1;
    assert HookId(BoundMethod(owner, m2)) == p + m2 && (p + m2)[|p|..] == m2;
  }

  /** What a callback does when called: return a value or throw (Exception or Error). */
  datatype Outcome = Returned(value: Value) | Threw(message: string)

  /** The stored record; `added_at` (a float timestamp) is not modelled. */
  datatype HookRecord = HookRecord(callback: Callback, acceptedArgs: int, kind: Kind)

  /** Records of one priority, keyed by hook id, in insertion order. */
  type Bucket = seq<(string, HookRecord)>

  /** The buckets of one hook name, keyed by priority. */
  type Entry = seq<(int, Bucket)>

  /** What `ksort` and the pruning in `remove_hook` maintain for one hook name. */
  ghost predicate SortedEntry(e: Entry) {
    (forall i, j :: 0 <= i < j < |e| ==> e[i].0 < e[j].0) &&
    (forall i :: 0 <= i < |e| ==> |e[i].1| > 0 && DistinctKeys(e[i].1))
  }

  lemma SortedEntryTail(e: Entry)
    requires SortedEntry(e) && |e| > 0
    ensures SortedEntry(e[1..])
  {
  }

  lemma SortedEntryDistinct(e: Entry)
    requires SortedEntry(e)
    ensures DistinctKeys(e)
  {
  }

  /** A bucket's priority in a sorted entry bounds the priorities of all later buckets. */
  lemma SortedEntryHead(e: Entry)
    requires SortedEntry(e) && |e| > 0
    ensures Lookup(e, e[0].0) == Some(e[0].1)
    ensures forall q :: q < e[0].0 ==> Lookup(e, q).None?
  {
    forall q | q < e[0].0 ensures Lookup(e, q).None? {
      assert forall j :: 0 <= j < |e| ==> e[j].0 != q by {
        forall j | 0 <= j < |e| ensures e[j].0 != q {
          if j > 0 { assert e[0].0 < e[j].0; }
        }
      }
    }
  }

  function BucketOr(e: Entry, p: int): Bucket {
    Lookup(e, p).GetOr([])
  }

  /** Putting a bucket in front of a sorted list whose first priority is higher keeps it sorted. */
  lemma SortedCons(x: (int, Bucket), t: Entry)
    requires SortedEntry(t) && |x.1| > 0 && DistinctKeys(x.1)
    requires |t| > 0 ==> x.0 < t[0].0
    ensures SortedEntry([x] + t)
  {
    var r := [x] + t;
    forall i, j | 0 <= i < j < |r| ensures r[i].0 < r[j].0 {
      if i == 0 && j > 1 {
        assert t[0].0 < t[j - 1].0;
      }
    }
  }

  /**
   * `$hooks[$name][$priority][$id] = $record` followed by `ksort($hooks[$name])`:
   * the bucket list stays sorted by priority, with a missing bucket created
   * at its sorted position (the rest is stated by `AddToEntryLookup`).
   */
  function AddToEntry(e: Entry, p: int, id: string, rec: HookRecord): (r: Entry)
    requires SortedEntry(e)
    ensures SortedEntry(r)
    ensures |r| > 0 && r[0].0 == (if |e| > 0 && e[0].0 < p then e[0].0 else p)
    decreases |e|
  {
    if |e| == 0 then
      [(p, [(id, rec)])]
    else if e[0].0 == p then
      SortedEntryTail(e);
      SortedCons((p, Put(e[0].1, id, rec)), e[1..]);
      [(p, Put(e[0].1, id, rec))] + e[1..]
    else if p < e[0].0 then
      SortedCons((p, [(id, rec)]), e);
      [(p, [(id, rec)])] + e
    else
      SortedEntryTail(e);
      var t := AddToEntry(e[1..], p, id, rec);
      SortedCons(e[0], t);
      [e[0]] + t
  }

  /**
   * The record lands in the bucket of its priority, replacing the record with
   * the same id in its slot or appended after the others, and no other
   * bucket changes.
   */
  lemma {:induction false} AddToEntryLookup(e: Entry, p: int, id: string, rec: HookRecord)
    requires SortedEntry(e)
    ensures Lookup(AddToEntry(e, p, id, rec), p) == Some(Put(BucketOr(e, p), id, rec))
    ensures forall q :: q != p ==> Lookup(AddToEntry(e, p, id, rec), q) == Lookup(e, q)
    decreases |e|
  {
    if |e| == 0 || p <= e[0].0 {
      AddAtFront(e, p, id, rec);
    } else {
      SortedEntryTail(e);
      var t := AddToEntry(e[1..], p, id, rec);
      AddToEntryLookup(e[1..], p, id, rec);
      assert AddToEntry(e, p, id, rec) == [e[0]] + t;
      LookupCons(e[0], t, p);
      LookupTail(e, p);
      forall q | q != p
        ensures Lookup(AddToEntry(e, p, id, rec), q) == Lookup(e, q)
      {
        LookupCons(e[0], t, q);
        LookupTail(e, q);
      }
    }
  }

  /** A lookup in a non-empty list: the head, else the rest. */
  lemma LookupTail(e: Entry, k: int)
    requires |e| > 0
    ensures Lookup(e, k) == if e[0].0 == k then Some(e[0].1) else Lookup(e[1..], k)
  {
    assert e == [e[0]] + e[1..];
    LookupCons(e[0], e[1..], k);
  }

  /** The cases of `AddToEntry` that do not recurse. */
  lemma AddAtFront(e: Entry, p: int, id: string, rec: HookRecord)
    requires SortedEntry(e) && (|e| == 0 || p <= e[0].0)
    ensures Lookup(AddToEntry(e, p, id, rec), p) == Some(Put(BucketOr(e, p), id, rec))
    ensures forall q :: q != p ==> Lookup(AddToEntry(e, p, id, rec), q) == Lookup(e, q)
  {
    if |e| > 0 && e[0].0 == p {
      assert e == [e[0]] + e[1..];
      LookupConsAll(e[0], e[1..]);
      LookupConsAll((p, Put(e[0].1, id, rec)), e[1..]);
    } else {
      if |e| > 0 {
        SortedEntryHead(e);
      }
      assert BucketOr(e, p) == [] && Put([], id, rec) == [(id, rec)];
      LookupConsAll((p, [(id, rec)]), e);
    }
  }

  /** Removes the bucket of priority `p`, if any; the other buckets keep their order. */
  function DropPriority(e: Entry, p: int): (r: Entry)
    requires SortedEntry(e)
    ensures SortedEntry(r)
    ensures |r| <= |e| && (|r| > 0 ==> |e| > 0 && r[0].0 >= e[0].0)
    ensures Lookup(r, p).None?
    ensures Lookup(e, p).None? ==> r == e
    ensures forall q :: q != p ==> Lookup(r, q) == Lookup(e, q)
    decreases |e|
  {
    if |e| == 0 then e
    else if e[0].0 == p then
      SortedEntryTail(e);
      SortedEntryHead(e);
      assert e == [e[0]] + e[1..];
      assert forall q :: q != p ==> Lookup(e[1..], q) == Lookup(e, q) by {
        forall q | q != p ensures Lookup(e[1..], q) == Lookup(e, q) {
          LookupCons(e[0], e[1..], q);
        }
      }
      e[1..]
    else if p < e[0].0 then
      SortedEntryHead(e);
      e
    else
      SortedEntryTail(e);
      var t := DropPriority(e[1..], p);
      assert e == [e[0]] + e[1..];
      LookupCons(e[0], t, p);
      LookupCons(e[0], e[1..], p);
      assert forall q :: q != p ==> Lookup([e[0]] + t, q) == Lookup(e, q) by {
        forall q | q != p ensures Lookup([e[0]] + t, q) == Lookup(e, q) {
          LookupCons(e[0], t, q);
          LookupCons(e[0], e[1..], q);
        }
      }
      [e[0]] + t
  }

  /**
   * `unset($hooks[$name][$priority][$id])` followed by the pruning of an
   * emptied bucket (anon/Modules/Hook.php:90-95).
   */
  function DropId(e: Entry, p: int, id: string): (r: Entry)
    requires SortedEntry(e)
    ensures SortedEntry(r)
    ensures Lookup(e, p).None? ==> r == e
    ensures Lookup(e, p).Some? && |RemoveKey(Lookup(e, p).value, id)| > 0 ==>
              Lookup(r, p) == Some(RemoveKey(Lookup(e, p).value, id))
    ensures Lookup(e, p).Some? && |RemoveKey(Lookup(e, p).value, id)| == 0 ==> Lookup(r, p).None?
    ensures forall q :: q != p ==> Lookup(r, q) == Lookup(e, q)
  {
    match Lookup(e, p)
    case None => e
    case Some(b) =>
      var i := Find(e, p).value;
      assert DistinctKeys(b) by {
        assert b == e[i].1;
      }
      var b' := RemoveKey(b, id);
      if |b'| == 0 then DropPriority(e, p)
      else
        var r := e[i := (p, b')];
        SortedEntryDistinct(e);
        LookupAt(r, i);
        assert forall q :: q != p ==> Lookup(r, q) == Lookup(e, q) by {
          forall q | q != p ensures Lookup(r, q) == Lookup(e, q) {
            FindSameKeys(e, r, q);
          }
        }
        r
  }

  /** A bucket list flattened into the order `execute_hooks` visits it. */
  datatype Slot = Slot(priority: int, id: string, rec: HookRecord)

  function BucketSlots(p: int, b: Bucket): (r: seq<Slot>)
    ensures |r| == |b| && forall i :: 0 <= i < |b| ==> r[i] == Slot(p, b[i].0, b[i].1)
  {
    seq(|b|, i requires 0 <= i < |b| => Slot(p, b[i].0, b[i].1))
  }

  /** The two nested `foreach` loops of `execute_hooks`, as one sequence of visits. */
  function Records(e: Entry): seq<Slot> {
    if |e| == 0 then [] else Records(e[..|e| - 1]) + BucketSlots(e[|e| - 1].0, e[|e| - 1].1)
  }

  lemma {:induction false} RecordsAppend(a: Entry, b: Entry)
    ensures Records(a + b) == Records(a) + Records(b)
    decreases |b|
  {
    if |b| == 0 {
      assert a + b == a;
    } else {
      var last := b[|b| - 1];
      assert (a + b)[..|a + b| - 1] == a + b[..|b| - 1];
      RecordsAppend(a, b[..|b| - 1]);
    }
  }

  /** Every visited slot carries the priority of some bucket in the list. */
  lemma {:induction false} RecordsPriorities(e: Entry, lo: int, hi: int)
    requires forall j :: 0 <= j < |e| ==> lo <= e[j].0 <= hi
    ensures forall i :: 0 <= i < |Records(e)| ==> lo <= Records(e)[i].priority <= hi
    decreases |e|
  {
    if |e| > 0 {
      RecordsPriorities(e[..|e| - 1], lo, hi);
    }
  }

  /** Priorities are visited in ascending order. */
  lemma {:induction false} RecordsAscending(e: Entry)
    requires SortedEntry(e)
    ensures forall i, j :: 0 <= i < j < |Records(e)| ==> Records(e)[i].priority <= Records(e)[j].priority
    decreases |e|
  {
    if |e| > 0 {
      var init := e[..|e| - 1];
      var last := e[|e| - 1];
      assert SortedEntry(init);
      RecordsAscending(init);
      if |init| > 0 {
        RecordsPriorities(init, e[0].0, last.0 - 1);
      }
    }
  }

  /**
   * The records of bucket `k` are visited together, in the bucket's insertion
   * order, after every record of a lower priority and before every record of
   * a higher one.
   */
  lemma {:induction false} RecordsAtBucket(e: Entry, k: nat)
    requires SortedEntry(e) && k < |e|
    ensures Records(e) == Records(e[..k]) + BucketSlots(e[k].0, e[k].1) + Records(e[k + 1..])
    ensures forall s :: s in Records(e[..k]) ==> s.priority < e[k].0
    ensures forall s :: s in Records(e[k + 1..]) ==> s.priority > e[k].0
  {
    assert e == e[..k + 1] + e[k + 1..];
    RecordsAppend(e[..k + 1], e[k + 1..]);
    assert e[..k + 1][..k] == e[..k];
    if k > 0 {
      RecordsPriorities(e[..k], e[0].0, e[k].0 - 1);
    }
    if k + 1 < |e| {
      RecordsPriorities(e[k + 1..], e[k].0 + 1, e[|e| - 1].0);
    }
  }

  // ---------------------------------------------------------------------------
  // One run of `execute_hooks`, step by step
  // ---------------------------------------------------------------------------

  /** `array_slice($a, 0, $length)`: a negative length stops that far from the end. */
  function SliceLen(a: seq<Value>, length: int): (r: seq<Value>)
    ensures r <= a
    ensures length >= 0 ==> |r| == if length < |a| then length else |a|
    ensures length < 0 ==> |r| == if |a| + length > 0 then |a| + length else 0
  {
    if length >= 0 then (if length < |a| then a[..length] else a)
    else if |a| + length > 0 then a[..|a| + length] else []
  }

  /** `array_slice($a, 1)`. */
  function DropFirst(a: seq<Value>): seq<Value> {
    if |a| == 0 then [] else a[1..]
  }

  /** `$args[0] ?? null`. */
  function FirstArg(a: seq<Value>): Value {
    if |a| == 0 then VNull else a[0]
  }

  /** `$args[0] = $value`. */
  function SetFirst(a: seq<Value>, v: Value): (r: seq<Value>)
    ensures |r| >= 1 && r[0] == v && r[1..] == DropFirst(a)
  {
    if |a| == 0 then [v] else a[0 := v]
  }

  /**
   * The loop variables of `execute_hooks` (`$args`, `$value`,
   * `$executed_count`) plus the calls made so far, each with its arguments.
   */
  datatype RunState = RunState(
    args: seq<Value>, value: Value, executed: nat, invoked: seq<(Callback, seq<Value>)>)

  function Start(args: seq<Value>, kind: Kind): RunState {
    RunState(args, if kind == Filter then FirstArg(args) else VNull, 0, [])
  }

  /** The arguments the callback of `rec` receives in state `st`. */
  function CallArgs(st: RunState, rec: HookRecord, kind: Kind): seq<Value> {
    var sliced := SliceLen(st.args, rec.acceptedArgs);
    if kind == Action then sliced else [st.value] + DropFirst(sliced)
  }

  /** One iteration of the inner loop. */
  function Step(st: RunState, s: Slot, kind: Kind, outcome: (Callback, seq<Value>) -> Outcome): RunState {
    if s.rec.kind != kind then st
    else
      var a := CallArgs(st, s.rec, kind);
      var called := st.invoked + [(s.rec.callback, a)];
      match outcome(s.rec.callback, a)
      case Threw(_) => st.(invoked := called)
      case Returned(v) =>
        if kind == Action then st.(executed := st.executed + 1, invoked := called)
        else RunState(SetFirst(st.args, v), v, st.executed + 1, called)
  }

  function Run(slots: seq<Slot>, args: seq<Value>, kind: Kind, outcome: (Callback, seq<Value>) -> Outcome): RunState {
    if |slots| == 0 then Start(args, kind)
    else Step(Run(slots[..|slots| - 1], args, kind, outcome), slots[|slots| - 1], kind, outcome)
  }

  lemma RunSnoc(xs: seq<Slot>, s: Slot, args: seq<Value>, kind: Kind, outcome: (Callback, seq<Value>) -> Outcome)
    ensures Run(xs + [s], args, kind, outcome) == Step(Run(xs, args, kind, outcome), s, kind, outcome)
  {
    assert (xs + [s])[..|xs|] == xs;
  }

  lemma RecordsSnoc(e: Entry, b: nat)
    requires b < |e|
    ensures Records(e[..b + 1]) == Records(e[..b]) + BucketSlots(e[b].0, e[b].1)
  {
    assert e[..b + 1][..b] == e[..b];
  }

  /** The slots of one kind, in visiting order. */
  function OfKind(slots: seq<Slot>, kind: Kind): (r: seq<Slot>)
    ensures |r| <= |slots|
    ensures forall i :: 0 <= i < |r| ==> r[i].rec.kind == kind
  {
    if |slots| == 0 then []
    else
      var init := OfKind(slots[..|slots| - 1], kind);
      if slots[|slots| - 1].rec.kind == kind then init + [slots[|slots| - 1]] else init
  }

  /**
   * Every record of the requested kind is called exactly once, in visiting
   * order, records of the other kind are skipped, and `executed` counts the
   * calls that returned.
   */
  lemma {:induction false} RunCallsEachOnce(slots: seq<Slot>, args: seq<Value>, kind: Kind,
                                             outcome: (Callback, seq<Value>) -> Outcome)
    ensures var st := Run(slots, args, kind, outcome);
      |st.invoked| == |OfKind(slots, kind)| &&
      (forall i :: 0 <= i < |st.invoked| ==> st.invoked[i].0 == OfKind(slots, kind)[i].rec.callback) &&
      st.executed == CountReturned(st.invoked, outcome)
    decreases |slots|
  {
    if |slots| > 0 {
      var init := slots[..|slots| - 1];
      RunCallsEachOnce(init, args, kind, outcome);
      var st0 := Run(init, args, kind, outcome);
      var st := Run(slots, args, kind, outcome);
      if slots[|slots| - 1].rec.kind == kind {
        assert st.invoked[..|st.invoked| - 1] == st0.invoked;
      }
    }
  }

  /** How many of the recorded calls returned normally. */
  function CountReturned(calls: seq<(Callback, seq<Value>)>, outcome: (Callback, seq<Value>) -> Outcome): (r: nat)
    ensures r <= |calls|
  {
    if |calls| == 0 then 0
    else
      CountReturned(calls[..|calls| - 1], outcome) +
      (if outcome(calls[|calls| - 1].0, calls[|calls| - 1].1).Returned? then 1 else 0)
  }

  /**
   * The filter value a call sees: the return of the latest earlier call that
   * returned, or the initial value when none did.
   */
  function LastReturned(calls: seq<(Callback, seq<Value>)>, outcome: (Callback, seq<Value>) -> Outcome,
                        initial: Value): Value
  {
    if |calls| == 0 then initial
    else
      match outcome(calls[|calls| - 1].0, calls[|calls| - 1].1)
      case Returned(v) => v
      case Threw(_) => LastReturned(calls[..|calls| - 1], outcome, initial)
  }

  /**
   * A filter threads its value: the chain's value is the return of the last
   * call that returned (the input value if none did), so a call that throws
   * leaves it alone; the first slot of `$args` always holds it and the other
   * arguments never change.
   */
  lemma {:induction false} FilterThreadsValue(slots: seq<Slot>, args: seq<Value>,
                                               outcome: (Callback, seq<Value>) -> Outcome)
    ensures var st := Run(slots, args, Filter, outcome);
      st.value == LastReturned(st.invoked, outcome, FirstArg(args)) &&
      FirstArg(st.args) == st.value &&
      DropFirst(st.args) == DropFirst(args)
    decreases |slots|
  {
    if |slots| > 0 {
      var init := slots[..|slots| - 1];
      FilterThreadsValue(init, args, outcome);
      var st0 := Run(init, args, Filter, outcome);
      var st := Run(slots, args, Filter, outcome);
      var s := slots[|slots| - 1];
      assert st == Step(st0, s, Filter, outcome);
      if s.rec.kind == Filter {
        assert st.invoked[..|st.invoked| - 1] == st0.invoked;
      }
    }
  }

  /**
   * Each call of a filter chain receives, as first argument, the value
   * returned by the latest earlier call that returned, or the input value
   * when none did.
   */
  lemma {:induction false} FilterCallsSeeCurrentValue(slots: seq<Slot>, args: seq<Value>,
                                                       outcome: (Callback, seq<Value>) -> Outcome)
    ensures var st := Run(slots, args, Filter, outcome);
      forall i :: 0 <= i < |st.invoked| ==>
        |st.invoked[i].1| >= 1 &&
        st.invoked[i].1[0] == LastReturned(st.invoked[..i], outcome, FirstArg(args))
    decreases |slots|
  {
    if |slots| > 0 {
      var init := slots[..|slots| - 1];
      FilterCallsSeeCurrentValue(init, args, outcome);
      FilterThreadsValue(init, args, outcome);
      var st0 := Run(init, args, Filter, outcome);
      var st := Run(slots, args, Filter, outcome);
      var s := slots[|slots| - 1];
      assert st == Step(st0, s, Filter, outcome);
      if s.rec.kind == Filter {
        assert st.invoked == st0.invoked + [(s.rec.callback, CallArgs(st0, s.rec, Filter))];
        forall i | 0 <= i < |st.invoked|
          ensures |st.invoked[i].1| >= 1
          ensures st.invoked[i].1[0] == LastReturned(st.invoked[..i], outcome, FirstArg(args))
        {
          if i < |st0.invoked| {
            assert st.invoked[..i] == st0.invoked[..i];
          } else {
            assert st.invoked[..i] == st0.invoked;
          }
        }
      }
    }
  }

  /** An action never rewrites its arguments; every call gets a prefix of them. */
  lemma {:induction false} ActionKeepsArgs(slots: seq<Slot>, args: seq<Value>,
                                            outcome: (Callback, seq<Value>) -> Outcome)
    ensures var st := Run(slots, args, Action, outcome);
      st.args == args && st.value == VNull &&
      forall i :: 0 <= i < |st.invoked| ==> st.invoked[i].1 <= args
    decreases |slots|
  {
    if |slots| > 0 {
      ActionKeepsArgs(slots[..|slots| - 1], args, outcome);
    }
  }

  /** Per-name counters; `total_time` (a float) is not modelled. */
  datatype Stat = Stat(totalCalls: nat, totalExecuted: nat, kind: Kind)

  /** The counter update at the end of `execute_hooks` (anon/Modules/Hook.php:309-320). */
  function Counted(old_: Option<Stat>, kind: Kind, executed: nat): (r: Stat)
    ensures r.totalCalls == old_.GetOr(Stat(0, 0, kind)).totalCalls + 1
    ensures r.totalExecuted == old_.GetOr(Stat(0, 0, kind)).totalExecuted + executed
    ensures old_.Some? ==> r.kind == old_.value.kind
  {
    var base := old_.GetOr(Stat(0, 0, kind));
    base.(totalCalls := base.totalCalls + 1, totalExecuted := base.totalExecuted + executed)
  }

  function StatOf(stats: map<string, Stat>, name: string): Option<Stat> {
    if name in stats then Some(stats[name]) else None
  }

  function EntryOf(hooks: map<string, Entry>, name: string): Entry {
    if name in hooks then hooks[name] else []
  }

  /** `has_hook`'s answers: false, true, or the priority where the callback sits. */
  datatype Presence = No | Yes | AtPriority(priority: int)

  /** Index of the first bucket holding `id`. */
  function FirstBucketWith(e: Entry, id: string): (r: Option<nat>)
    ensures r.Some? ==> r.value < |e| && HasKey(e[r.value].1, id)
    ensures r.Some? ==> forall j :: 0 <= j < r.value ==> !HasKey(e[j].1, id)
    ensures r.None? <==> forall j :: 0 <= j < |e| ==> !HasKey(e[j].1, id)
  {
    if |e| == 0 then None
    else if HasKey(e[0].1, id) then Some(0)
    else
      match FirstBucketWith(e[1..], id)
      case None => None
      case Some(j) => Some(j + 1)
  }

  /**
   * The body of the inner loop of `execute_hooks`: a record of the other kind
   * is skipped; otherwise its callback is called with the sliced arguments
   * (for a filter, the current value in front), a failure is swallowed, and
   * a filter's return becomes the current value.
   */
  method CallHook(s: Slot, kind: Kind, outcome: (Callback, seq<Value>) -> Outcome,
                  args: seq<Value>, value: Value, executed: nat, ghost invoked: seq<(Callback, seq<Value>)>)
    returns (args': seq<Value>, value': Value, executed': nat, ghost invoked': seq<(Callback, seq<Value>)>)
    ensures RunState(args', value', executed', invoked') == Step(RunState(args, value, executed, invoked), s, kind, outcome)
  {
    args', value', executed', invoked' := args, value, executed, invoked;
    var rec := s.rec;
    if rec.kind != kind {
      return;
    }
    var callbackArgs := SliceLen(args, rec.acceptedArgs);
    if kind == Action {
      invoked' := invoked + [(rec.callback, callbackArgs)];
      var o := outcome(rec.callback, callbackArgs);
      if o.Returned? {
        executed' := executed + 1;
      }
    } else {
      var filterArgs := [value] + DropFirst(callbackArgs);
      invoked' := invoked + [(rec.callback, filterArgs)];
      var o := outcome(rec.callback, filterArgs);
      if o.Returned? {
        value' := o.value;
        args' := SetFirst(args, o.value);
        executed' := executed + 1;
      }
    }
  }

  /**
   * The inner `foreach` of `execute_hooks`: the records of one bucket, in
   * insertion order, continuing a run that has visited `before`.
   */
  method RunBucket(priority: int, bucket: Bucket, kind: Kind, outcome: (Callback, seq<Value>) -> Outcome,
                   ghost before: seq<Slot>, ghost args0: seq<Value>,
                   args: seq<Value>, value: Value, executed: nat, ghost invoked: seq<(Callback, seq<Value>)>)
    returns (args': seq<Value>, value': Value, executed': nat, ghost invoked': seq<(Callback, seq<Value>)>)
    requires RunState(args, value, executed, invoked) == Run(before, args0, kind, outcome)
    ensures RunState(args', value', executed', invoked')
            == Run(before + BucketSlots(priority, bucket), args0, kind, outcome)
  {
    args', value', executed', invoked' := args, value, executed, invoked;
    var j := 0;
    assert before + BucketSlots(priority, bucket)[..0] == before;
    while j < |bucket|
      invariant 0 <= j <= |bucket|
      invariant RunState(args', value', executed', invoked')
                == Run(before + BucketSlots(priority, bucket)[..j], args0, kind, outcome)
    {
      var slot := Slot(priority, bucket[j].0, bucket[j].1);
      ghost var visited := before + BucketSlots(priority, bucket)[..j];
      assert before + BucketSlots(priority, bucket)[..j + 1] == visited + [slot];
      RunSnoc(visited, slot, args0, kind, outcome);
      args', value', executed', invoked' := CallHook(slot, kind, outcome, args', value', executed', invoked');
      j := j + 1;
    }
    assert BucketSlots(priority, bucket)[..j] == BucketSlots(priority, bucket);
  }

  /**
   * The two nested `foreach` loops of `execute_hooks` over the buckets of one
   * name: the final filter value (null for an action) and the number of
   * callbacks that returned normally.
   */
  method RunEntry(entry: Entry, args: seq<Value>, kind: Kind, outcome: (Callback, seq<Value>) -> Outcome)
    returns (value: Value, executedCount: nat)
    ensures value == Run(Records(entry), args, kind, outcome).value
    ensures executedCount == Run(Records(entry), args, kind, outcome).executed
  {
    var curArgs := args;
    value := if kind == Filter then FirstArg(args) else VNull;
    executedCount := 0;
    ghost var invoked: seq<(Callback, seq<Value>)> := [];
    var b := 0;
    while b < |entry|
      invariant 0 <= b <= |entry|
      invariant RunState(curArgs, value, executedCount, invoked) == Run(Records(entry[..b]), args, kind, outcome)
    {
      curArgs, value, executedCount, invoked :=
        RunBucket(entry[b].0, entry[b].1, kind, outcome, Records(entry[..b]), args,
                  curArgs, value, executedCount, invoked);
      RecordsSnoc(entry, b);
      b := b + 1;
    }
    assert entry[..b] == entry;
  }

  /** In a sorted list the first bucket holding an id is the one of lowest priority. */
  lemma FirstBucketIsLowest(e: Entry, id: string)
    requires SortedEntry(e) && FirstBucketWith(e, id).Some?
    ensures var i := FirstBucketWith(e, id).value;
      HasKey(BucketOr(e, e[i].0), id) &&
      forall j :: 0 <= j < |e| && e[j].0 < e[i].0 ==> !HasKey(e[j].1, id)
  {
    var i := FirstBucketWith(e, id).value;
    SortedEntryDistinct(e);
    LookupAt(e, i);
    assert BucketOr(e, e[i].0) == e[i].1;
  }

  /**
   * What `apply_filters($name, $value, ...$extra)` returns against the
   * registry `hooks`: the input when the name has no hooks, otherwise the
   * return of the last callback that returned (the input if none did).
   */
  function FilterResult(hooks: map<string, Entry>, name: string, value: Value, extra: seq<Value>,
                        outcome: (Callback, seq<Value>) -> Outcome): (r: Value)
    ensures name !in hooks ==> r == value
    ensures name in hooks ==>
              r == LastReturned(Run(Records(hooks[name]), [value] + extra, Filter, outcome).invoked, outcome, value)
  {
    if name in hooks then
      FilterThreadsValue(Records(hooks[name]), [value] + extra, outcome);
      assert FirstArg([value] + extra) == value;
      Run(Records(hooks[name]), [value] + extra, Filter, outcome).value
    else value
  }

  class HookBus {
    /** `Anon_Hook::$hooks`. */
    var hooks: map<string, Entry>
    /** `Anon_Hook::$stats`. */
    var stats: map<string, Stat>
    /** `Anon_Hook::$current_hook`, top of the stack last. */
    var currentHook: seq<string>

    ghost predicate Valid()
      reads this
    {
      forall name :: name in hooks ==> SortedEntry(hooks[name])
    }

    constructor()
      ensures Valid()
      ensures hooks == map[] && stats == map[] && currentHook == []
    {
      hooks := map[];
      stats := map[];
      currentHook := [];
    }

    /**
     * `add_hook`: a non-callable is refused and nothing changes; otherwise the
     * record is stored under its id (replacing an earlier registration of the
     * same callable at that priority, in its slot) and the buckets stay sorted.
     */
    method AddHook(name: string, callback: Callback, priority: int, acceptedArgs: int, kind: Kind,
                   isCallable: bool) returns (added: bool)
      requires Valid()
      modifies this
      ensures Valid()
      ensures added == isCallable
      ensures !isCallable ==> hooks == old(hooks)
      ensures isCallable ==> hooks == old(hooks)[name := AddToEntry(EntryOf(old(hooks), name), priority,
                                                   HookId(callback), HookRecord(callback, acceptedArgs, kind))]
      ensures stats == old(stats) && currentHook == old(currentHook)
    {
      if !isCallable {
        return false;
      }
      var id := HookId(callback);
      var entry := EntryOf(hooks, name);
      assert SortedEntry(entry);
      var updated := AddToEntry(entry, priority, id, HookRecord(callback, acceptedArgs, kind));
      ghost var before := hooks;
      hooks := hooks[name := updated];
      forall n | n in hooks ensures SortedEntry(hooks[n]) {
        if n != name {
          assert hooks[n] == before[n];
        }
      }
      return true;
    }

    /** `add_action`. */
    method AddAction(name: string, callback: Callback, priority: int, acceptedArgs: int, isCallable: bool)
      returns (added: bool)
      requires Valid()
      modifies this
      ensures Valid()
      ensures added == isCallable
      ensures isCallable ==> hooks == old(hooks)[name := AddToEntry(EntryOf(old(hooks), name), priority,
                                                   HookId(callback), HookRecord(callback, acceptedArgs, Action))]
      ensures !isCallable ==> hooks == old(hooks)
      ensures stats == old(stats) && currentHook == old(currentHook)
    {
      added := AddHook(name, callback, priority, acceptedArgs, Action, isCallable);
    }

    /** `add_filter`. */
    method AddFilter(name: string, callback: Callback, priority: int, acceptedArgs: int, isCallable: bool)
      returns (added: bool)
      requires Valid()
      modifies this
      ensures Valid()
      ensures added == isCallable
      ensures isCallable ==> hooks == old(hooks)[name := AddToEntry(EntryOf(old(hooks), name), priority,
                                                   HookId(callback), HookRecord(callback, acceptedArgs, Filter))]
      ensures !isCallable ==> hooks == old(hooks)
      ensures stats == old(stats) && currentHook == old(currentHook)
    {
      added := AddHook(name, callback, priority, acceptedArgs, Filter, isCallable);
    }

    /**
     * `execute_hooks`: an unregistered name returns the first argument
     * (filters) or null (actions) and records nothing; otherwise every record
     * of the requested kind is called in visiting order, each failure is
     * caught, the hook stack is pushed and popped back to what it was, and
     * the name's counters are bumped.
     */
    method ExecuteHooks(name: string, args: seq<Value>, kind: Kind,
                        outcome: (Callback, seq<Value>) -> Outcome) returns (result: Value)
      requires Valid()
      modifies this
      ensures Valid()
      ensures hooks == old(hooks) && currentHook == old(currentHook)
      ensures name !in old(hooks) ==>
                result == (if kind == Filter then FirstArg(args) else VNull) && stats == old(stats)
      ensures name in old(hooks) ==>
                var st := Run(Records(old(hooks)[name]), args, kind, outcome);
                result == st.value &&
                stats == old(stats)[name := Counted(StatOf(old(stats), name), kind, st.executed)]
    {
      if name !in hooks {
        return if kind == Filter then FirstArg(args) else VNull;
      }
      currentHook := currentHook + [name];
      var value, executedCount := RunEntry(hooks[name], args, kind, outcome);
      currentHook := currentHook[..|currentHook| - 1];
      stats := stats[name := Counted(StatOf(stats, name), kind, executedCount)];
      return value;
    }

    /** `do_action`. */
    method DoAction(name: string, args: seq<Value>, outcome: (Callback, seq<Value>) -> Outcome)
      requires Valid()
      modifies this
      ensures Valid()
      ensures hooks == old(hooks) && currentHook == old(currentHook)
      ensures name !in old(hooks) ==> stats == old(stats)
      ensures name in old(hooks) ==>
                stats == old(stats)[name := Counted(StatOf(old(stats), name), Action,
                                                    Run(Records(old(hooks)[name]), args, Action, outcome).executed)]
    {
      var _ := ExecuteHooks(name, args, Action, outcome);
    }

    /** `apply_filters`: the value is put in front of the extra arguments. */
    method ApplyFilters(name: string, value: Value, extra: seq<Value>,
                        outcome: (Callback, seq<Value>) -> Outcome) returns (result: Value)
      requires Valid()
      modifies this
      ensures Valid()
      ensures hooks == old(hooks) && currentHook == old(currentHook)
      ensures result == FilterResult(old(hooks), name, value, extra, outcome)
      ensures name !in old(hooks) ==> result == value && stats == old(stats)
      ensures name in old(hooks) ==>
                var st := Run(Records(old(hooks)[name]), [value] + extra, Filter, outcome);
                result == st.value &&
                result == LastReturned(st.invoked, outcome, value) &&
                stats == old(stats)[name := Counted(StatOf(old(stats), name), Filter, st.executed)]
    {
      if name in hooks {
        FilterThreadsValue(Records(hooks[name]), [value] + extra, outcome);
        assert FirstArg([value] + extra) == value;
      }
      result := ExecuteHooks(name, [value] + extra, Filter, outcome);
    }

    /**
     * `remove_hook`: deletes exactly the record of this callable at this
     * priority, prunes the bucket if it empties and then the name if it has no
     * bucket left; reports false and changes nothing when there is no such record.
     */
    method RemoveHook(name: string, callback: Callback, priority: int) returns (removed: bool)
      requires Valid()
      modifies this
      ensures Valid()
      ensures removed <==> name in old(hooks) && Lookup(old(hooks)[name], priority).Some? &&
                           HasKey(Lookup(old(hooks)[name], priority).value, HookId(callback))
      ensures !removed ==> hooks == old(hooks)
      ensures removed ==>
                var e := DropId(old(hooks)[name], priority, HookId(callback));
                hooks == if |e| == 0 then old(hooks) - {name} else old(hooks)[name := e]
      ensures stats == old(stats) && currentHook == old(currentHook)
    {
      if name !in hooks || Lookup(hooks[name], priority).None? {
        return false;
      }
      var id := HookId(callback);
      if !HasKey(Lookup(hooks[name], priority).value, id) {
        return false;
      }
      var e := DropId(hooks[name], priority, id);
      if |e| == 0 {
        hooks := hooks - {name};
      } else {
        hooks := hooks[name := e];
      }
      return true;
    }

    /**
     * `remove_all_hooks`: no name empties the registry; an unknown name
     * reports false; a priority removes that bucket only (the name stays, even
     * with no bucket left); no priority removes the name.
     */
    method RemoveAllHooks(name: Option<string>, priority: Option<int>) returns (done: bool)
      requires Valid()
      modifies this
      ensures Valid()
      ensures done <==> name.None? || name.value in old(hooks)
      ensures name.None? ==> hooks == map[]
      ensures name.Some? && name.value !in old(hooks) ==> hooks == old(hooks)
      ensures name.Some? && name.value in old(hooks) && priority.Some? ==>
                hooks == old(hooks)[name.value := DropPriority(old(hooks)[name.value], priority.value)]
      ensures name.Some? && name.value in old(hooks) && priority.None? ==> hooks == old(hooks) - {name.value}
      ensures stats == old(stats) && currentHook == old(currentHook)
    {
      if name.None? {
        hooks := map[];
        return true;
      }
      var n := name.value;
      if n !in hooks {
        return false;
      }
      if priority.Some? {
        hooks := hooks[n := DropPriority(hooks[n], priority.value)];
      } else {
        hooks := hooks - {n};
      }
      return true;
    }

    /**
     * `has_hook`: false for an unknown name; without a callback, whether the
     * name has any bucket; with one, the lowest priority whose bucket holds it.
     */
    function HasHook(name: string, callback: Option<Callback>): (r: Presence)
      requires Valid()
      reads this
      ensures name !in hooks ==> r == No
      ensures name in hooks && callback.None? ==> (r == Yes <==> |hooks[name]| > 0) && !r.AtPriority?
      ensures callback.Some? ==> !r.Yes?
      ensures r.AtPriority? <==>
                name in hooks && callback.Some? &&
                exists i :: 0 <= i < |hooks[name]| && HasKey(hooks[name][i].1, HookId(callback.value))
      ensures r.AtPriority? ==>
                HasKey(Lookup(hooks[name], r.priority).GetOr([]), HookId(callback.value)) &&
                forall i :: 0 <= i < |hooks[name]| && hooks[name][i].0 < r.priority ==>
                              !HasKey(hooks[name][i].1, HookId(callback.value))
    {
      if name !in hooks then No
      else if callback.None? then (if |hooks[name]| > 0 then Yes else No)
      else
        var e := hooks[name];
        match FirstBucketWith(e, HookId(callback.value))
        case None => No
        case Some(i) =>
          FirstBucketIsLowest(e, HookId(callback.value));
          AtPriority(e[i].0)
    }

    /** `current_hook`: the top of the stack, or null when it is empty or falsy ("" or "0"). */
    function CurrentHook(): (r: Option<string>)
      reads this
      ensures r.None? <==> |currentHook| == 0 || IsFalsyString(currentHook[|currentHook| - 1])
      ensures r.Some? ==> r.value == currentHook[|currentHook| - 1]
    {
      if |currentHook| == 0 || IsFalsyString(currentHook[|currentHook| - 1]) then None
      else Some(currentHook[|currentHook| - 1])
    }

    /** `get_hook_stats($name)`: the name's counters, `[]` (here `None`) when it has none. */
    function GetHookStats(name: string): (r: Option<Stat>)
      reads this
      ensures r.Some? <==> name in stats
      ensures r.Some? ==> r.value == stats[name]
    {
      StatOf(stats, name)
    }

    /** `clear_stats`: one name's counters, or all of them. */
    method ClearStats(name: Option<string>)
      modifies this
      ensures name.Some? ==> stats == old(stats) - {name.value}
      ensures name.None? ==> stats == map[]
      ensures hooks == old(hooks) && currentHook == old(currentHook)
    {
      if name.Some? {
        stats := stats - {name.value};
      } else {
        stats := map[];
      }
    }
  }

  // ---------------------------------------------------------------------------
  // Properties relating several operations
  // ---------------------------------------------------------------------------

  /** The bucket stored under a priority is non-empty and has distinct ids. */
  lemma BucketOrWellFormed(e: Entry, p: int)
    requires SortedEntry(e)
    ensures DistinctKeys(BucketOr(e, p))
    ensures Lookup(e, p).Some? ==> |BucketOr(e, p)| > 0
  {
    match Find(e, p)
    case None =>
    case Some(i) => assert BucketOr(e, p) == e[i].1;
  }

  /** A sorted bucket list is determined by what its priorities look up. */
  lemma {:induction false} SortedEntriesEqual(a: Entry, b: Entry)
    requires SortedEntry(a) && SortedEntry(b)
    requires forall q :: Lookup(a, q) == Lookup(b, q)
    ensures a == b
    decreases |a|
  {
    if |a| > 0 {
      SortedEntryDistinct(a);
      LookupAt(a, 0);
      assert HasKey(b, a[0].0);
    }
    if |b| > 0 {
      SortedEntryDistinct(b);
      LookupAt(b, 0);
      assert HasKey(a, b[0].0);
    }
    if |a| > 0 {
      var k := a[0].0;
      var j := Find(b, k).value;
      assert b[0].0 <= b[j].0 == k;
      var i := Find(a, b[0].0).value;
      assert k <= a[i].0 == b[0].0;
      assert a[0].1 == b[0].1;
      SortedEntryTail(a);
      SortedEntryTail(b);
      forall q ensures Lookup(a[1..], q) == Lookup(b[1..], q) {
        LookupCons(a[0], a[1..], q);
        LookupCons(b[0], b[1..], q);
        assert a == [a[0]] + a[1..] && b == [b[0]] + b[1..];
        if q == k {
          if |a| > 1 {
            SortedEntryHead(a[1..]);
          }
          if |b| > 1 {
            SortedEntryHead(b[1..]);
          }
        }
      }
      SortedEntriesEqual(a[1..], b[1..]);
      assert a == [a[0]] + a[1..] && b == [b[0]] + b[1..];
    }
  }

  /** Appending a fresh key and removing it again gives back the bucket. */
  lemma RemoveKeyUndoesPut(b: Bucket, id: string, rec: HookRecord)
    requires DistinctKeys(b) && !HasKey(b, id)
    ensures DistinctKeys(Put(b, id, rec))
    ensures RemoveKey(Put(b, id, rec), id) == b
  {
    var nb := Put(b, id, rec);
    assert nb == b + [(id, rec)];
    FindFirst(nb, id, |b|);
    assert nb[..|b|] + nb[|b| + 1..] == b;
  }

  /**
   * Removing the only record of a callback under a name leaves no bucket of
   * that name holding it, so `has_hook` answers false afterwards.
   */
  lemma RemovingOnlyRecordHidesId(e: Entry, p: int, id: string)
    requires SortedEntry(e)
    requires forall k :: 0 <= k < |e| && e[k].0 != p ==> !HasKey(e[k].1, id)
    ensures FirstBucketWith(DropId(e, p, id), id).None?
  {
    var r := DropId(e, p, id);
    SortedEntryDistinct(r);
    forall j | 0 <= j < |r| ensures !HasKey(r[j].1, id) {
      var q := r[j].0;
      LookupAt(r, j);
      if q == p {
        var k := Find(e, p).value;
        assert DistinctKeys(e[k].1);
        assert Lookup(e, p) == Some(e[k].1);
        assert Lookup(r, p) == Some(RemoveKey(e[k].1, id));
      } else {
        var k := Find(e, q).value;
        assert e[k].1 == r[j].1;
      }
    }
  }

  /**
   * Registering a callable that is not yet in its bucket and then removing
   * it gives back the bucket list it started from.
   */
  lemma DropIdUndoesAdd(e: Entry, p: int, id: string, rec: HookRecord)
    requires SortedEntry(e)
    requires !HasKey(BucketOr(e, p), id)
    ensures DropId(AddToEntry(e, p, id, rec), p, id) == e
  {
    var a := AddToEntry(e, p, id, rec);
    var d := DropId(a, p, id);
    var b := BucketOr(e, p);
    AddToEntryLookup(e, p, id, rec);
    BucketOrWellFormed(e, p);
    RemoveKeyUndoesPut(b, id, rec);
    forall q ensures Lookup(d, q) == Lookup(e, q) {
      if q == p {
        assert Lookup(a, p) == Some(Put(b, id, rec));
        if |b| == 0 {
          assert Lookup(e, p).None?;
        } else {
          assert Lookup(e, p) == Some(b);
        }
      }
    }
    SortedEntriesEqual(d, e);
  }

  /** After a successful registration, `has_hook` finds the callback at that priority or a lower one. */
  lemma AddedHookIsFound(e: Entry, p: int, cb: Callback, rec: HookRecord)
    requires SortedEntry(e)
    ensures var a := AddToEntry(e, p, HookId(cb), rec);
      FirstBucketWith(a, HookId(cb)).Some? &&
      a[FirstBucketWith(a, HookId(cb)).value].0 <= p
  {
    var a := AddToEntry(e, p, HookId(cb), rec);
    var nb := Put(BucketOr(e, p), HookId(cb), rec);
    AddToEntryLookup(e, p, HookId(cb), rec);
    var id := HookId(cb);
    var i := Find(a, p).value;
    assert a[i].0 == p && a[i].1 == nb;
    assert Lookup(nb, id) == Some(rec);
    assert HasKey(a[i].1, id);
    var f := FirstBucketWith(a, id);
    assert f.Some?;
    assert f.value <= i;
    if f.value < i {
      assert a[f.value].0 < a[i].0;
    }
  }

  /** The two callbacks of the ordering example: `f1` adds 10, `f2` doubles. */
  function ExampleOutcome(cb: Callback, a: seq<Value>): Outcome {
    if |a| == 0 || !a[0].VInt? then Threw("not an int")
    else if cb == Named("f1") then Returned(VInt(a[0].i + 10))
    else if cb == Named("f2") then Returned(VInt(a[0].i * 2))
    else Threw("unknown callback")
  }

  /** Registering `f2` at priority 20 and then `f1` at 10 puts `f1`'s bucket first. */
  lemma ExampleEntry()
    ensures AddToEntry(AddToEntry([], 20, "f2", HookRecord(Named("f2"), 1, Filter)),
                       10, "f1", HookRecord(Named("f1"), 1, Filter))
            == [(10, [("f1", HookRecord(Named("f1"), 1, Filter))]), (20, [("f2", HookRecord(Named("f2"), 1, Filter))])]
  {
    var r2 := HookRecord(Named("f2"), 1, Filter);
    assert AddToEntry([], 20, "f2", r2) == [(20, [("f2", r2)])];
  }

  /** The visiting order of the example's buckets: `f1`'s slot, then `f2`'s. */
  lemma ExampleRecords(r1: HookRecord, r2: HookRecord)
    ensures Records([(10, [("f1", r1)]), (20, [("f2", r2)])]) == [Slot(10, "f1", r1), Slot(20, "f2", r2)]
  {
    var e := [(10, [("f1", r1)]), (20, [("f2", r2)])];
    RecordsSnoc(e, 0);
    RecordsSnoc(e, 1);
    assert e[..2] == e;
  }

  /** Running `f1` and then `f2` on 100: 110 after the first call, 220 after the second. */
  lemma ExampleRun(s1: Slot, s2: Slot)
    requires s1 == Slot(10, "f1", HookRecord(Named("f1"), 1, Filter))
    requires s2 == Slot(20, "f2", HookRecord(Named("f2"), 1, Filter))
    ensures Run([s1, s2], [VInt(100)], Filter, ExampleOutcome).value == VInt(220)
  {
    RunSnoc([], s1, [VInt(100)], Filter, ExampleOutcome);
    var st1 := Run([s1], [VInt(100)], Filter, ExampleOutcome);
    assert st1.value == VInt(110) && st1.args[0] == VInt(110);
    RunSnoc([s1], s2, [VInt(100)], Filter, ExampleOutcome);
  }

  /**
   * The ordering example: `f2` registered at priority 20 and then `f1` at
   * priority 10; the filter still runs `f1` first, so 100 becomes 220.
   */
  lemma FilterPriorityExample()
    ensures var r1 := HookRecord(Named("f1"), 1, Filter);
            var r2 := HookRecord(Named("f2"), 1, Filter);
            var e := AddToEntry(AddToEntry([], 20, "f2", r2), 10, "f1", r1);
            Run(Records(e), [VInt(100)], Filter, ExampleOutcome).value == VInt(220)
  {
    var r1 := HookRecord(Named("f1"), 1, Filter);
    var r2 := HookRecord(Named("f2"), 1, Filter);
    ExampleEntry();
    ExampleRecords(r1, r2);
    ExampleRun(Slot(10, "f1", r1), Slot(20, "f2", r2));
  }
}
