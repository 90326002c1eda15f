/**
 Which thread writes which counter. The comment that a counter is only written by its owning
 thread is not true of the code: an iterator moved to another thread is released there.
 */
module Slots {
  import opened Sequential
  import opened Protocol
  import opened Guarantees
  import opened Progress
  import opened Schedules

  /** Counter `k` is the thread's own. */
  predicate OwnCounter<S, O, R>(s: State<S, O, R>, t: Tid, k: nat) {
    t in s.slot && s.slot[t] == k
  }

  /** What a step does to the counters that exist. */
  lemma CounterMoves<S, O, R>(obj: Object<S, O, R>, s: State<S, O, R>, st: Step<S, O>, k: nat)
    requires Enabled(s, st) && k < |s.counters|
    ensures k < |Do(obj, s, st).counters|
    ensures Do(obj, s, st).counters[k] != s.counters[k] <==>
              || ((st.FetchAdd? || st.Retract?) && s.pc[st.t].k == k)
              || (st.Drop? && s.guards[st.g].slot == k)
  {
  }

  /**
   Exactly when the comment fails: a step changes a counter that is not its thread's own if and only
   if it drops a guard that was granted on another counter than the thread's own.
   */
  lemma ForeignWriteIff<S, O, R>(obj: Object<S, O, R>, s: State<S, O, R>, st: Step<S, O>, k: nat)
    requires Inv(obj, s) && Enabled(s, st) && k < |s.counters|
    ensures k < |Do(obj, s, st).counters|
    ensures Do(obj, s, st).counters[k] != s.counters[k] && !OwnCounter(s, st.t, k)
            <==> st.Drop? && s.guards[st.g].slot == k && !OwnCounter(s, st.t, s.guards[st.g].slot)
  {
    CounterMoves(obj, s, st, k);
    assert ReaderState(s, st.t);
  }

  /** A guard is charged to the counter of the thread that read; unless it can be moved, that thread still has it. */
  ghost predicate Home<S, O, R>(s: State<S, O, R>, g: Gid)
    requires g in s.guards
  {
    && g < |s.hist| && s.hist[g].Read?
    && OwnCounter(s, s.hist[g].thread, s.guards[g].slot)
    && (s.guards[g].mobile || s.guards[g].owner == s.hist[g].thread)
  }

  ghost predicate AllHome<S, O, R>(s: State<S, O, R>) {
    forall g :: g in s.guards ==> Home(s, g)
  }

  lemma GrantHome<S, O, R>(obj: Object<S, O, R>, s: State<S, O, R>, st: Step<S, O>)
    requires OwnSlots(s) && Enabled(s, st) && st.LoadFlag? && !s.writing
    ensures Home(Do(obj, s, st), |s.hist|) && Do(obj, s, st).guards[|s.hist|].mobile == st.mobile
  {
    assert ReaderState(s, st.t);
  }

  /** What a step that hands a guard over or leaks it does to the guard. */
  lemma GuardChanges<S, O, R>(obj: Object<S, O, R>, s: State<S, O, R>, st: Step<S, O>, g: Gid)
    requires Enabled(s, st) && (st.HandOver? || st.Leak?) && g in s.guards
    ensures var s' := Do(obj, s, st);
            && g in s'.guards && s'.guards[g].slot == s.guards[g].slot && s'.guards[g].mobile == s.guards[g].mobile
            && (s'.guards[g].owner == s.guards[g].owner || s.guards[g].mobile)
  {
  }

  lemma SlotsKept<S, O, R>(obj: Object<S, O, R>, s: State<S, O, R>, st: Step<S, O>, t: Tid)
    requires OwnSlots(s) && Enabled(s, st) && t in s.slot
    ensures t in Do(obj, s, st).slot && Do(obj, s, st).slot[t] == s.slot[t]
  {
    assert ReaderState(s, st.t);
  }

  lemma StaysHome<S, O, R>(obj: Object<S, O, R>, s: State<S, O, R>, st: Step<S, O>, g: Gid)
    requires OwnSlots(s) && Enabled(s, st) && g in s.guards && Home(s, g) && g in Do(obj, s, st).guards
    ensures Home(Do(obj, s, st), g)
  {
    StepGrows(obj, s, st);
    SlotStep(obj, s, st);
    SlotsKept(obj, s, st, s.hist[g].thread);
    if st.HandOver? || st.Leak? {
      GuardChanges(obj, s, st, g);
    } else {
      GuardStep(obj, s, st, g);
    }
  }

  lemma HomeStep<S, O, R>(obj: Object<S, O, R>, s: State<S, O, R>, st: Step<S, O>)
    requires Inv(obj, s) && AllHome(s) && Enabled(s, st)
    ensures AllHome(Do(obj, s, st))
  {
    var s' := Do(obj, s, st);
    StepGrows(obj, s, st);
    forall g | g in s'.guards ensures Home(s', g) {
      if g in s.guards {
        StaysHome(obj, s, st, g);
      } else {
        NewGuard(obj, s, st, g);
        GrantHome(obj, s, st);
      }
    }
  }

  lemma NewGuard<S, O, R>(obj: Object<S, O, R>, s: State<S, O, R>, st: Step<S, O>, g: Gid)
    requires Enabled(s, st) && g !in s.guards && g in Do(obj, s, st).guards
    ensures st.LoadFlag? && !s.writing && g == |s.hist|
  {
  }

  lemma {:induction false} HomeRun<S, O, R>(obj: Object<S, O, R>, s: State<S, O, R>, steps: seq<Step<S, O>>)
    requires Inv(obj, s) && AllHome(s) && Runs(obj, s, steps)
    ensures AllHome(Exec(obj, s, steps))
    decreases |steps|
  {
    if steps == [] {
    } else {
      InvStep(obj, s, steps[0]);
      HomeStep(obj, s, steps[0]);
      HomeRun(obj, Do(obj, s, steps[0]), steps[1..]);
    }
  }

  /**
   In every run: the guards of `get`, which cannot be moved, are with the thread that read, and every guard
   is charged to the counter of the thread that read. So only an iterator can make a thread decrement
   a counter that is not its own.
   */
  lemma ReadGuardsStay<S, O, R>(obj: Object<S, O, R>, n: nat, steps: seq<Step<S, O>>, g: Gid)
    requires Runs(obj, Start(obj, n), steps) && g in Exec(obj, Start(obj, n), steps).guards
    ensures Home(Exec(obj, Start(obj, n), steps), g)
  {
    InvStart(obj, n);
    HomeRun(obj, Start(obj, n), steps);
  }

  /** The state after thread 0 has made an iterator and thread 1 has it. */
  function Moved<S, O, R>(obj: Object<S, O, R>): State<S, O, R> {
    HasRead(Start(obj, 2), 0, true).(guards := map[0 := Guard(1, 0, true, false)])
  }

  /**
   It does fail: thread 0 makes a VecIter and moves it to thread 1, which has never read the container
   and decrements the counter of thread 0 when it drops the iterator.
   */
  lemma MovedIteratorDecrements<S(!new), O(!new), R>(obj: Object<S, O, R>) returns (steps: seq<Step<S, O>>)
    ensures Runs(obj, Start(obj, 2), steps) && Exec(obj, Start(obj, 2), steps) == Moved(obj)
    ensures var s := Moved(obj);
            && s.slot == map[0 := 0] && s.counters == [1]
            && Enabled(s, Step<S, O>.Drop(1, 0)) && Do(obj, s, Drop(1, 0)).counters == [0]
  {
    var s, m := Start(obj, 2), HasRead(Start(obj, 2), 0, true);
    FirstRead(obj, s, 0, true);
    var sofar :| Led(obj, s, {0}, sofar, m);
    HandingOver(obj, m);
    var move := [HandOver(0, 0, 1)];
    assert move[1..] == [];
    assert Runs(obj, m, move) && Exec(obj, m, move) == Moved(obj);
    RunsConcat(obj, s, sofar, move);
    steps := sofar + move;
    assert Moved(obj).counters[0 := 0] == [0];
  }

  lemma HandingOver<S, O, R>(obj: Object<S, O, R>, m: State<S, O, R>)
    requires m == HasRead(Start(obj, 2), 0, true)
    ensures Enabled(m, Step<S, O>.HandOver(0, 0, 1)) && Do(obj, m, HandOver(0, 0, 1)) == Moved(obj)
  {
    assert m.guards == map[0 := Guard(0, 0, true, false)];
  }
}
