/**
 A scan is not a snapshot: a run in which a writer enters although at every moment from its
 store of true to its entry some counter is positive. No invariant about counters being zero
 together can explain exclusion.
 */
module Scans {
  import opened Sequential
  import opened Protocol
  import opened Guarantees
  import opened Schedules
  import opened Stuck

  ghost predicate Busy<S, O, R>(s: State<S, O, R>) {
    exists k :: 0 <= k < |s.counters| && s.counters[k] > 0
  }

  /** Some counter is positive before and after every step. */
  ghost predicate AlwaysBusy<S, O, R>(obj: Object<S, O, R>, s: State<S, O, R>, steps: seq<Step<S, O>>)
    requires Runs(obj, s, steps)
    decreases |steps|
  {
    Busy(s) && (steps == [] || AlwaysBusy(obj, Do(obj, s, steps[0]), steps[1..]))
  }

  /** From `s` thread `w` can enter without the counters ever being all zero. */
  ghost predicate EntersBusily<S(!new), O(!new), R>(obj: Object<S, O, R>, s: State<S, O, R>, w: Tid) {
    exists steps :: Runs(obj, s, steps) && AlwaysBusy(obj, s, steps) && w in Exec(obj, s, steps).secs
  }

  lemma Back<S(!new), O(!new), R>(obj: Object<S, O, R>, s: State<S, O, R>, st: Step<S, O>, k: nat, s': State<S, O, R>,
                                  w: Tid)
    requires Enabled(s, st) && k < |s.counters| && s.counters[k] > 0
    requires Do(obj, s, st) == s' && EntersBusily(obj, s', w)
    ensures EntersBusily(obj, s, w)
  {
    var rest :| Runs(obj, s', rest) && AlwaysBusy(obj, s', rest) && w in Exec(obj, s', rest).secs;
    var steps := [st] + rest;
    assert steps[1..] == rest;
    assert Runs(obj, s, steps) && AlwaysBusy(obj, s, steps) && Exec(obj, s, steps) == Exec(obj, s', rest);
  }

  lemma EnterNow<S(!new), O(!new), R>(obj: Object<S, O, R>, s: State<S, O, R>, k: nat, w: Tid)
    requires At(s, w, Pass) && k < |s.counters| && s.counters[k] > 0
    ensures EntersBusily(obj, s, w)
  {
    var s' := Do(obj, s, Enter(w));
    assert s'.counters == s.counters && w in s'.secs;
    assert Runs(obj, s', []) && AlwaysBusy(obj, s', []) && Exec(obj, s', []) == s';
    Back(obj, s, Enter(w), k, s', w);
  }

  /** The state after a thread's first read, its guard dropped again: all it leaves is a counter of zero. */
  function HasGone<S, O, R>(s: State<S, O, R>, t: Tid): State<S, O, R> {
    s.(slot := s.slot[t := |s.counters|], counters := s.counters + [0], hist := s.hist + [Read(t)])
  }

  lemma ReadAndDrop<S(!new), O(!new), R>(obj: Object<S, O, R>, s: State<S, O, R>, t: Tid)
    requires At(s, t, User) && t !in s.slot && s.reg.None? && !s.writing && s.guards == map[] && t !in s.secs
    ensures Leads(obj, s, {t}, HasGone(s, t))
  {
    var m, e := HasRead(s, t, false), HasGone(s, t);
    FirstRead(obj, s, t, false);
    assert m.guards - {|s.hist|} == map[];
    assert (s.counters + [1])[|s.counters| := 0] == s.counters + [0];
    Here(obj, e, {t});
    Before(obj, m, Drop(t, |s.hist|), e, {t}, e);
    LeadsOn(obj, s, {t}, m, {t}, e);
    assert {t} + {t} == {t};
  }

  /** Two readers have registered and gone. */
  function Registered<S, O, R>(obj: Object<S, O, R>): State<S, O, R> {
    State([User, User, User], map[0 := 0, 1 := 1], [0, 0], None, None, false,
          obj.init, map[], map[], [Read(0), Read(1)])
  }

  lemma ReachRegistered<S(!new), O(!new), R>(obj: Object<S, O, R>)
    ensures Leads(obj, Start(obj, 3), {0} + {1}, Registered(obj))
  {
    var s := Start(obj, 3);
    ReadAndDrop(obj, s, 0);
    ReadAndDrop(obj, HasGone(s, 0), 1);
    LeadsOn(obj, s, {0}, HasGone(s, 0), {1}, HasGone(HasGone(s, 0), 1));
    BothGone(obj, HasGone(HasGone(s, 0), 1));
  }

  lemma BothGone<S, O, R>(obj: Object<S, O, R>, e: State<S, O, R>)
    requires e == HasGone(HasGone(Start(obj, 3), 0), 1)
    ensures e == Registered(obj)
  {
    assert e.pc == [User, User, User];
    assert e.counters == [0, 0] && e.hist == [Read(0), Read(1)];
  }

  /** Reader 1 is inside an attempt; writer 2 has raised the flag and is about to scan. */
  function Crossing<S, O, R>(obj: Object<S, O, R>): State<S, O, R> {
    Registered(obj).(pc := [User, Check(1), ScanLock], counters := [0, 1], write := Some(2), writing := true)
  }

  function Attempting<S, O, R>(obj: Object<S, O, R>): State<S, O, R> {
    Registered(obj).(pc := [User, Check(1), User], counters := [0, 1])
  }

  lemma ReachAttempt<S(!new), O(!new), R>(obj: Object<S, O, R>)
    ensures Leads(obj, Registered(obj), {1}, Attempting(obj))
  {
    var s, m, e := Registered(obj), Registered(obj).(pc := [User, Inc(1), User]), Attempting(obj);
    Here(obj, e, {1});
    assert Do(obj, m, FetchAdd(1)) == e;
    Before(obj, m, FetchAdd(1), e, {1}, e);
    assert Do(obj, s, CallRead(1)) == m;
    Before(obj, s, CallRead(1), m, {1}, e);
  }

  lemma ReachCrossing<S(!new), O(!new), R>(obj: Object<S, O, R>) returns (steps: seq<Step<S, O>>)
    ensures Runs(obj, Start(obj, 3), steps) && Exec(obj, Start(obj, 3), steps) == Crossing(obj)
  {
    ReachRegistered(obj);
    ReachAttempt(obj);
    RaiseFlag(obj, Attempting(obj), 2);
    assert HasRaised(Attempting(obj), 2).pc == Crossing(obj).pc;
    steps := ThreeRuns(obj, Start(obj, 3), Registered(obj), Attempting(obj), Crossing(obj));
  }

  lemma ThreeRuns<S(!new), O(!new), R>(obj: Object<S, O, R>, s: State<S, O, R>, a: State<S, O, R>, b: State<S, O, R>,
                                       e: State<S, O, R>)
    returns (steps: seq<Step<S, O>>)
    requires Leads(obj, s, {0} + {1}, a) && Leads(obj, a, {1}, b) && Leads(obj, b, {2}, e)
    ensures Runs(obj, s, steps) && Exec(obj, s, steps) == e
  {
    LeadsOn(obj, s, {0} + {1}, a, {1}, b);
    LeadsOn(obj, s, {0} + {1} + {1}, b, {2}, e);
    steps :| Led(obj, s, {0} + {1} + {1} + {2}, steps, e);
  }

  /** Counter 0 was loaded as zero; since then reader 0 has incremented it. */
  function Half<S, O, R>(obj: Object<S, O, R>): State<S, O, R> {
    Crossing(obj).(pc := [Check(0), Check(1), Scan(1)], counters := [1, 1], reg := Some(2))
  }

  /** Now reader 1 takes its attempt back, and the scan finds counter 1 at zero as well. */
  function Refused<S, O, R>(obj: Object<S, O, R>): State<S, O, R> {
    Half(obj).(pc := [Check(0), Undo(1), Scan(1)])
  }

  lemma SecondHalf<S(!new), O(!new), R>(obj: Object<S, O, R>)
    ensures EntersBusily(obj, Half(obj), 2)
  {
    Retracting(obj);
    Back(obj, Half(obj), LoadFlag(1, false), 0, Refused(obj), 2);
  }

  lemma Retracting<S(!new), O(!new), R>(obj: Object<S, O, R>)
    ensures EntersBusily(obj, Refused(obj), 2)
  {
    LastSteps(obj);
    Back(obj, Refused(obj), Retract(1), 0, Retracted(obj), 2);
  }

  function Retracted<S, O, R>(obj: Object<S, O, R>): State<S, O, R> {
    Half(obj).(pc := [Check(0), Inc(1), Scan(1)], counters := [1, 0])
  }

  lemma LastSteps<S(!new), O(!new), R>(obj: Object<S, O, R>)
    ensures EntersBusily(obj, Retracted(obj), 2)
  {
    var s6 := Retracted(obj);
    var s7 := s6.(pc := [Check(0), Inc(1), Scan(2)]);
    ScanOver(obj, s7);
    Back(obj, s6, LoadCounter(2), 0, s7, 2);
  }

  lemma ScanOver<S(!new), O(!new), R>(obj: Object<S, O, R>, s7: State<S, O, R>)
    requires s7 == Retracted(obj).(pc := [Check(0), Inc(1), Scan(2)])
    ensures EntersBusily(obj, s7, 2)
  {
    var s8 := s7.(pc := [Check(0), Inc(1), Pass]);
    EnterNow(obj, s8, 0, 2);
    Back(obj, s7, EndScan(2), 0, s8, 2);
  }

  function Scanned<S, O, R>(obj: Object<S, O, R>): State<S, O, R> {
    Crossing(obj).(pc := [User, Check(1), Scan(1)], reg := Some(2))
  }

  lemma FirstHalf<S(!new), O(!new), R>(obj: Object<S, O, R>)
    ensures EntersBusily(obj, Crossing(obj), 2)
  {
    var s1 := Crossing(obj).(pc := [User, Check(1), Scan(0)], reg := Some(2));
    Overtaken(obj);
    Back(obj, s1, LoadCounter(2), 1, Scanned(obj), 2);
    Back(obj, Crossing(obj), LockScan(2), 1, s1, 2);
  }

  function Overtaking<S, O, R>(obj: Object<S, O, R>): State<S, O, R> {
    Crossing(obj).(pc := [Inc(0), Check(1), Scan(1)], reg := Some(2))
  }

  lemma Overtaken<S(!new), O(!new), R>(obj: Object<S, O, R>)
    ensures EntersBusily(obj, Scanned(obj), 2)
  {
    Overtakes(obj);
    Back(obj, Scanned(obj), CallRead(0), 1, Overtaking(obj), 2);
  }

  lemma Overtakes<S(!new), O(!new), R>(obj: Object<S, O, R>)
    ensures EntersBusily(obj, Overtaking(obj), 2)
  {
    SecondHalf(obj);
    Back(obj, Overtaking(obj), FetchAdd(0), 1, Half(obj), 2);
  }

  /** The writer enters, and the counters were never all zero at one instant while it scanned. */
  lemma ScanIsNoSnapshot<S(!new), O(!new), R>(obj: Object<S, O, R>) returns (before: seq<Step<S, O>>)
    ensures Runs(obj, Start(obj, 3), before)
    ensures var s := Exec(obj, Start(obj, 3), before);
            At(s, 2, ScanLock) && s.writing && EntersBusily(obj, s, 2)
  {
    before := ReachCrossing(obj);
    FirstHalf(obj);
  }
}
