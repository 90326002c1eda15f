/** Runs put together step by step, each step allowed under the strict discipline. */
module Schedules {
  import opened Sequential
  import opened Protocol
  import opened Progress

  lemma {:induction false} CarefulConcat<S, O, R>(obj: Object<S, O, R>, s: State<S, O, R>, a: seq<Step<S, O>>,
                                                  b: seq<Step<S, O>>)
    requires Runs(obj, s, a) && Runs(obj, Exec(obj, s, a), b)
    requires CarefulRun(obj, s, a) && CarefulRun(obj, Exec(obj, s, a), b)
    ensures Runs(obj, s, a + b) && CarefulRun(obj, s, a + b)
    decreases |a|
  {
    RunsConcat(obj, s, a, b);
    HeadOfConcat(a, b);
    if a == [] {
    } else {
      CarefulConcat(obj, Do(obj, s, a[0]), a[1..], b);
    }
  }

  /** The threads `who`, keeping to the strict discipline, can bring the container from `s` to `e`. */
  ghost predicate Leads<S(!new), O(!new), R>(obj: Object<S, O, R>, s: State<S, O, R>, who: set<Tid>,
                                             e: State<S, O, R>) {
    exists steps :: Led(obj, s, who, steps, e)
  }

  ghost predicate Led<S, O, R>(obj: Object<S, O, R>, s: State<S, O, R>, who: set<Tid>, steps: seq<Step<S, O>>,
                               e: State<S, O, R>) {
    && Runs(obj, s, steps) && CarefulRun(obj, s, steps) && Exec(obj, s, steps) == e
    && forall st :: st in steps ==> st.t in who && !st.HandOver?
  }

  lemma Here<S(!new), O(!new), R>(obj: Object<S, O, R>, s: State<S, O, R>, who: set<Tid>)
    ensures Leads(obj, s, who, s)
  {
    assert Led(obj, s, who, [], s);
  }

  /** One more step, in front. */
  lemma Before<S(!new), O(!new), R>(obj: Object<S, O, R>, s: State<S, O, R>, st: Step<S, O>,
                                      s': State<S, O, R>, who: set<Tid>, e: State<S, O, R>)
    requires Enabled(s, st) && Careful(s, st) && !st.HandOver? && st.t in who && Do(obj, s, st) == s'
    requires Leads(obj, s', who, e)
    ensures Leads(obj, s, who, e)
  {
    var rest :| Led(obj, s', who, rest, e);
    var steps := [st] + rest;
    assert steps[1..] == rest;
    assert Led(obj, s, who, steps, e);
  }

  lemma LeadsOn<S(!new), O(!new), R>(obj: Object<S, O, R>, s: State<S, O, R>, a: set<Tid>, m: State<S, O, R>,
                                     b: set<Tid>, e: State<S, O, R>)
    requires Leads(obj, s, a, m) && Leads(obj, m, b, e)
    ensures Leads(obj, s, a + b, e)
  {
    var first :| Led(obj, s, a, first, m);
    var second :| Led(obj, m, b, second, e);
    RunsConcat(obj, s, first, second);
    CarefulConcat(obj, s, first, second);
    assert Led(obj, s, a + b, first + second, e);
  }

  /** The state after the first read of a thread, its guard still live. */
  function HasRead<S, O, R>(s: State<S, O, R>, t: Tid, mobile: bool): State<S, O, R> {
    var k := |s.counters|;
    s.(slot := s.slot[t := k], counters := s.counters + [1],
       guards := s.guards[|s.hist| := Guard(t, k, mobile, false)], hist := s.hist + [Read(t)])
  }

  /** The first read of a thread, up to the grant of its guard. */
  lemma FirstRead<S(!new), O(!new), R>(obj: Object<S, O, R>, s: State<S, O, R>, t: Tid, mobile: bool)
    requires At(s, t, User) && t !in s.slot && s.reg.None? && !s.writing
    requires t !in s.secs && forall g :: g in s.guards ==> s.guards[g].owner != t
    ensures Leads(obj, s, {t}, HasRead(s, t, mobile))
  {
    var k := |s.counters|;
    var s1 := s.(pc := s.pc[t := RegLock]);
    var s2 := s.(pc := s.pc[t := RegPush], reg := Some(t));
    var s3 := s.(pc := s.pc[t := RegFree(k)], reg := Some(t), slot := s.slot[t := k], counters := s.counters + [0]);
    var s4 := s.(pc := s.pc[t := Inc(k)], slot := s.slot[t := k], counters := s.counters + [0]);
    var e := HasRead(s, t, mobile);
    Granted(obj, s, t, mobile);
    Before(obj, s3, FreeReg(t), s4, {t}, e);
    Before(obj, s2, PushSlot(t), s3, {t}, e);
    Before(obj, s1, LockReg(t), s2, {t}, e);
    Before(obj, s, CallRead(t), s1, {t}, e);
  }

  lemma Granted<S(!new), O(!new), R>(obj: Object<S, O, R>, s: State<S, O, R>, t: Tid, mobile: bool)
    requires At(s, t, User) && t !in s.slot && s.reg.None? && !s.writing
    ensures var k := |s.counters|;
            Leads(obj, s.(pc := s.pc[t := Inc(k)], slot := s.slot[t := k], counters := s.counters + [0]), {t},
              HasRead(s, t, mobile))
  {
    var k := |s.counters|;
    var s4 := s.(pc := s.pc[t := Inc(k)], slot := s.slot[t := k], counters := s.counters + [0]);
    var s5 := s.(pc := s.pc[t := Check(k)], slot := s.slot[t := k], counters := s.counters + [1]);
    assert (s.counters + [0])[k := 1] == s.counters + [1];
    FlagDown(obj, s, t, mobile);
    Before(obj, s4, FetchAdd(t), s5, {t}, HasRead(s, t, mobile));
  }

  lemma FlagDown<S(!new), O(!new), R>(obj: Object<S, O, R>, s: State<S, O, R>, t: Tid, mobile: bool)
    requires At(s, t, User) && !s.writing
    ensures var k := |s.counters|;
            Leads(obj, s.(pc := s.pc[t := Check(k)], slot := s.slot[t := k], counters := s.counters + [1]), {t},
              HasRead(s, t, mobile))
  {
    var k := |s.counters|;
    var e := HasRead(s, t, mobile);
    var s5 := s.(pc := s.pc[t := Check(k)], slot := s.slot[t := k], counters := s.counters + [1]);
    assert s.pc[t := User] == s.pc;
    Here(obj, e, {t});
    Before(obj, s5, LoadFlag(t, mobile), e, {t}, e);
  }

  /** The state after a writer has raised the flag, when it is about to scan. */
  function HasRaised<S, O, R>(s: State<S, O, R>, w: Tid): State<S, O, R>
    requires w < |s.pc|
  {
    s.(pc := s.pc[w := ScanLock], write := Some(w), writing := true)
  }

  /** A writer up to the start of its scan. */
  lemma RaiseFlag<S(!new), O(!new), R>(obj: Object<S, O, R>, s: State<S, O, R>, w: Tid)
    requires At(s, w, User) && s.write.None? && w !in s.secs
    requires forall g :: g in s.guards ==> s.guards[g].owner != w
    ensures Leads(obj, s, {w}, HasRaised(s, w))
  {
    var s1 := s.(pc := s.pc[w := WLock]);
    var s2 := s.(pc := s.pc[w := Raise], write := Some(w));
    var e := HasRaised(s, w);
    Here(obj, e, {w});
    Before(obj, s2, StoreTrue(w), e, {w}, e);
    Before(obj, s1, LockWrite(w), s2, {w}, e);
    Before(obj, s, CallWrite(w), s1, {w}, e);
  }
}
