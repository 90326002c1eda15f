/**
 Two disciplines for programs with several containers, against the exact condition for deadlock:
 no call on a container while holding anything of it, which is not enough for two containers;
 and the same taken over all containers together, which is enough for any number.
 */
module Disciplines {
  import opened Sequential
  import opened Protocol
  import opened Guarantees
  import opened Progress
  import opened Schedules
  import opened Stuck
  import opened Worlds
  import opened Deadlocks

  // ---------------------------------------------------------------- no call while involved anywhere

  /** Inside begin_read or begin_write of the container. */
  predicate Engaged<S, O, R>(s: State<S, O, R>, t: Tid) {
    t < |s.pc| && (InRead(s.pc[t]) || InWrite(s.pc[t]))
  }

  /** Engaged, or in possession of a guard or the WriteLock. */
  ghost predicate Involved<S, O, R>(s: State<S, O, R>, t: Tid) {
    Engaged(s, t) || t in s.secs || exists g :: g in s.guards && s.guards[g].owner == t
  }

  /** The discipline over all containers: no call while involved in any of them. */
  ghost predicate WCareful<S, O, R>(w: World<S, O, R>, a: Move<S, O>)
    requires a.c < |w|
  {
    && Careful(w[a.c], a.st)
    && (a.st.CallRead? || a.st.CallWrite? ==> forall d :: 0 <= d < |w| ==> !Involved(w[d], a.st.t))
  }

  ghost predicate Apart<S, O, R>(s: State<S, O, R>, s': State<S, O, R>) {
    |s.pc| == |s'.pc| && forall t :: 0 <= t < |s.pc| && Engaged(s, t) ==> !Involved(s', t)
  }

  /** What that discipline keeps: a thread engaged in one container is not involved in another. */
  ghost predicate WFree<S, O, R>(objs: Objects<S, O, R>, w: World<S, O, R>) {
    && WInv(objs, w)
    && (forall c :: 0 <= c < |w| ==> Free(w[c]))
    && (forall c, d :: 0 <= c < |w| && 0 <= d < |w| && c != d ==> Apart(w[c], w[d]))
  }

  lemma EngagedStep<S, O, R>(obj: Object<S, O, R>, s: State<S, O, R>, st: Step<S, O>, t: Tid)
    requires Enabled(s, st) && Engaged(Do(obj, s, st), t) && !Engaged(s, t)
    ensures t == st.t && (st.CallRead? || st.CallWrite?)
  {
    LocalPc(obj, s, st);
  }

  lemma InvolvedStep<S, O, R>(obj: Object<S, O, R>, s: State<S, O, R>, st: Step<S, O>, t: Tid)
    requires Enabled(s, st) && Involved(Do(obj, s, st), t) && !Involved(s, t)
    ensures (t == st.t && (st.CallRead? || st.CallWrite?)) || (st.HandOver? && t == st.to)
  {
    var s' := Do(obj, s, st);
    if Engaged(s', t) {
      EngagedStep(obj, s, st, t);
    } else if t in s'.secs {
      SectionOwner(obj, s, st, t);
    } else {
      var g :| g in s'.guards && s'.guards[g].owner == t;
      GuardOwner(obj, s, st, g);
    }
  }

  lemma SectionOwner<S, O, R>(obj: Object<S, O, R>, s: State<S, O, R>, st: Step<S, O>, t: Tid)
    requires Enabled(s, st) && t in Do(obj, s, st).secs
    ensures t in s.secs || Engaged(s, t)
  {
    SecsStep(obj, s, st);
  }

  lemma GuardOwner<S, O, R>(obj: Object<S, O, R>, s: State<S, O, R>, st: Step<S, O>, g: Gid)
    requires Enabled(s, st) && g in Do(obj, s, st).guards
    ensures var t := Do(obj, s, st).guards[g].owner;
            || (g in s.guards && s.guards[g].owner == t)
            || (st.HandOver? && t == st.to)
            || (t == st.t && Engaged(s, t))
  {
  }

  lemma WFreeStep<S, O, R>(objs: Objects<S, O, R>, w: World<S, O, R>, a: Move<S, O>)
    requires WFree(objs, w) && WEnabled(w, a) && WCareful(w, a)
    ensures WFree(objs, WDo(objs, w, a))
  {
    var w' := WDo(objs, w, a);
    WInvStep(objs, w, a);
    FreeStep(objs[a.c], w[a.c], a.st);
    forall c, d | 0 <= c < |w'| && 0 <= d < |w'| && c != d ensures Apart(w'[c], w'[d]) {
      ApartStep(objs, w, a, c, d);
    }
  }

  lemma ApartStep<S, O, R>(objs: Objects<S, O, R>, w: World<S, O, R>, a: Move<S, O>, c: Cid, d: Cid)
    requires |objs| == |w| && c < |w| && d < |w| && c != d && Apart(w[c], w[d])
    requires WEnabled(w, a) && WCareful(w, a)
    ensures Apart(WDo(objs, w, a)[c], WDo(objs, w, a)[d])
  {
    if c == a.c {
      ApartLeft(objs[c], w[c], a.st, w[d]);
    } else if d == a.c {
      ApartRight(objs[d], w[d], a.st, w[c]);
    }
  }

  lemma ApartLeft<S, O, R>(obj: Object<S, O, R>, s: State<S, O, R>, st: Step<S, O>, e: State<S, O, R>)
    requires Apart(s, e) && Enabled(s, st)
    requires st.CallRead? || st.CallWrite? ==> !Involved(e, st.t)
    ensures Apart(Do(obj, s, st), e)
  {
    var s' := Do(obj, s, st);
    LocalPc(obj, s, st);
    forall t | 0 <= t < |s'.pc| && Engaged(s', t) ensures !Involved(e, t) {
      if !Engaged(s, t) {
        EngagedStep(obj, s, st, t);
      }
    }
  }

  lemma ApartRight<S, O, R>(obj: Object<S, O, R>, s: State<S, O, R>, st: Step<S, O>, e: State<S, O, R>)
    requires Apart(e, s) && Enabled(s, st)
    requires st.CallRead? || st.CallWrite? ==> !Engaged(e, st.t)
    requires st.HandOver? ==> !Engaged(e, st.to)
    ensures Apart(e, Do(obj, s, st))
  {
    var s' := Do(obj, s, st);
    LocalPc(obj, s, st);
    forall t | 0 <= t < |e.pc| && Engaged(e, t) ensures !Involved(s', t) {
      if Involved(s', t) {
        InvolvedStep(obj, s, st, t);
      }
    }
  }

  ghost predicate WCarefulRun<S, O, R>(objs: Objects<S, O, R>, w: World<S, O, R>, run: seq<Move<S, O>>)
    requires |objs| == |w| && WRuns(objs, w, run)
    decreases |run|
  {
    run == [] || (WCareful(w, run[0]) && WCarefulRun(objs, WDo(objs, w, run[0]), run[1..]))
  }

  lemma {:induction false} WFreeRun<S, O, R>(objs: Objects<S, O, R>, w: World<S, O, R>, run: seq<Move<S, O>>)
    requires WFree(objs, w) && WRuns(objs, w, run) && WCarefulRun(objs, w, run)
    ensures WFree(objs, WExec(objs, w, run))
    decreases |run|
  {
    if run == [] {
    } else {
      WFreeStep(objs, w, run[0]);
      WFreeRun(objs, WDo(objs, w, run[0]), run[1..]);
    }
  }

  lemma WFreeStart<S, O, R>(objs: Objects<S, O, R>, w: World<S, O, R>, n: nat)
    requires WStart(objs, w, n)
    ensures WFree(objs, w)
  {
    WInvStart(objs, w, n);
  }

  lemma FreeOfLeaks<S, O, R>(objs: Objects<S, O, R>, w: World<S, O, R>)
    requires WFree(objs, w)
    ensures NoLeak(w)
  {
    forall c, g | 0 <= c < |w| && g in w[c].guards ensures !w[c].guards[g].leaked {
      assert Free(w[c]);
    }
  }

  lemma Waiting<S, O, R>(w: World<S, O, R>, t: Tid, D: set<Tid>) returns (d: Cid)
    requires Deadlocked(w, D) && t in D
    ensures d < |w| && Caught(w[d], t, D)
  {
    assert CaughtSomewhere(w, t, D);
    d :| 0 <= d < |w| && Caught(w[d], t, D);
  }

  /** A thread that waits owns no guard, and no write mutex unless it waits for a guard of that container. */
  lemma WaiterOwnsNothing<S, O, R>(s: State<S, O, R>, e: State<S, O, R>, t: Tid, D: set<Tid>)
    requires Caught(e, t, D) && Free(s) && WriteMutex(s) && (s == e || (Apart(e, s) && NotBoth(e, s)))
    ensures forall g :: g in s.guards ==> s.guards[g].owner != t
    ensures s.write == Some(t) ==> s == e && Pins(s, D)
  {
    WriteHolder(s);
    assert Engaged(e, t);
    assert Apart(e, s) ==> !Involved(s, t);
  }

  /** So no guard is in the way of anybody who waits. */
  lemma NoOwnerWaits<S, O, R>(objs: Objects<S, O, R>, w: World<S, O, R>, c: Cid, D: set<Tid>)
    requires WFree(objs, w) && Deadlocked(w, D) && c < |w|
    ensures !Pins(w[c], D)
  {
    forall g | g in w[c].guards ensures !w[c].guards[g].leaked && w[c].guards[g].owner !in D {
      if w[c].guards[g].owner in D {
        var d := Waiting(w, w[c].guards[g].owner, D);
        WaiterOwnsNothing(w[c], w[d], w[c].guards[g].owner, D);
      }
    }
  }

  /** Neither is the holder of a write mutex: in begin_write it would wait for a guard. */
  lemma NoHolderWaits<S, O, R>(objs: Objects<S, O, R>, w: World<S, O, R>, c: Cid, D: set<Tid>)
    requires WFree(objs, w) && Deadlocked(w, D) && c < |w| && !Pins(w[c], D)
    ensures !Locked(w[c], D)
  {
    if Locked(w[c], D) {
      var d := Waiting(w, w[c].write.value, D);
      WaiterOwnsNothing(w[c], w[d], w[c].write.value, D);
    }
  }

  lemma FreeOfDeadlock<S, O, R>(objs: Objects<S, O, R>, w: World<S, O, R>)
    requires WFree(objs, w)
    ensures NoDeadlock(w)
  {
    forall D: set<Tid> | Deadlocked(w, D) ensures D == {} {
      if t :| t in D {
        assert CaughtSomewhere(w, t, D);
        var c :| 0 <= c < |w| && Caught(w[c], t, D);
        NoOwnerWaits(objs, w, c, D);
        NoHolderWaits(objs, w, c, D);
      }
    }
  }

  lemma FreeCompletes<S, O, R>(objs: Objects<S, O, R>, w: World<S, O, R>) returns (run: seq<Move<S, O>>)
    requires WFree(objs, w)
    ensures WRuns(objs, w, run) && AllIdle(WExec(objs, w, run)) && |run| <= WMeasure(w)
    ensures forall a :: a in run ==> NoCall(a.st)
  {
    FreeOfLeaks(objs, w);
    FreeOfDeadlock(objs, w);
    run := CompleteRun(objs, w);
  }

  /**
   With the discipline taken over all containers there is no deadlock between any number of them:
   from every state a careful run reaches, some schedule completes all calls on all
   containers, within the sum of their measures and with no call started.
   */
  lemma AllContainersComplete<S, O, R>(objs: Objects<S, O, R>, w: World<S, O, R>, n: nat, sofar: seq<Move<S, O>>)
    returns (run: seq<Move<S, O>>)
    requires WStart(objs, w, n) && WRuns(objs, w, sofar) && WCarefulRun(objs, w, sofar)
    ensures var m := WExec(objs, w, sofar);
            && WRuns(objs, m, run) && AllIdle(WExec(objs, m, run)) && |run| <= WMeasure(m)
            && forall a :: a in run ==> NoCall(a.st)
  {
    WFreeStart(objs, w, n);
    WFreeRun(objs, w, sofar);
    run := FreeCompletes(objs, WExec(objs, w, sofar));
  }

  // ---------------------------------------------------------------- container by container it is not enough

  /** Every step keeps the discipline of the container it is taken on. */
  ghost predicate EachCareful<S, O, R>(objs: Objects<S, O, R>, w: World<S, O, R>, run: seq<Move<S, O>>)
    requires |objs| == |w| && WRuns(objs, w, run)
    decreases |run|
  {
    run == [] || (Careful(w[run[0].c], run[0].st) && EachCareful(objs, WDo(objs, w, run[0]), run[1..]))
  }

  lemma {:induction false} CarefulSeen<S, O, R>(objs: Objects<S, O, R>, w: World<S, O, R>, run: seq<Move<S, O>>, c: Cid)
    requires |objs| == |w| && WRuns(objs, w, run) && EachCareful(objs, w, run) && c < |w|
    ensures Runs(objs[c], w[c], Seen(run, c)) && CarefulRun(objs[c], w[c], Seen(run, c))
    decreases |run|
  {
    EachContainerRuns(objs, w, run, c);
    if run == [] {
    } else {
      var w' := WDo(objs, w, run[0]);
      CarefulSeen(objs, w', run[1..], c);
      if run[0].c == c {
        assert Seen(run, c)[1..] == Seen(run[1..], c);
      } else {
        assert Seen(run, c) == Seen(run[1..], c);
      }
    }
  }

  /** A run that is careful on each container by itself leads from `w` to `e`. */
  ghost predicate WLed<S, O, R>(objs: Objects<S, O, R>, w: World<S, O, R>, run: seq<Move<S, O>>, e: World<S, O, R>)
    requires |objs| == |w|
  {
    WRuns(objs, w, run) && EachCareful(objs, w, run) && WExec(objs, w, run) == e
  }

  lemma WLedCons<S, O, R>(objs: Objects<S, O, R>, w: World<S, O, R>, a: Move<S, O>, w': World<S, O, R>,
                          rest: seq<Move<S, O>>, e: World<S, O, R>)
    requires |objs| == |w| && WEnabled(w, a) && Careful(w[a.c], a.st) && w' == WDo(objs, w, a)
    requires WLed(objs, w', rest, e)
    ensures WLed(objs, w, [a] + rest, e)
  {
    var run := [a] + rest;
    assert run[0] == a && run[1..] == rest;
  }

  lemma {:induction false} WLedOn<S, O, R>(objs: Objects<S, O, R>, w: World<S, O, R>, a: seq<Move<S, O>>,
                                             m: World<S, O, R>, b: seq<Move<S, O>>, e: World<S, O, R>)
    requires |objs| == |w| == |m| && WLed(objs, w, a, m) && WLed(objs, m, b, e)
    ensures WLed(objs, w, a + b, e)
    decreases |a|
  {
    HeadOfConcat(a, b);
    if a == [] {
    } else {
      WLedOn(objs, WDo(objs, w, a[0]), a[1..], m, b, e);
      WLedCons(objs, w, a[0], WDo(objs, w, a[0]), a[1..] + b, e);
    }
  }

  /** What thread `t` does on one container while it is in its own code elsewhere. */
  lemma {:induction false} LiftRun<S, O, R>(objs: Objects<S, O, R>, w: World<S, O, R>, c: Cid, t: Tid,
                                              s: State<S, O, R>, steps: seq<Step<S, O>>, e: State<S, O, R>)
    returns (run: seq<Move<S, O>>)
    requires |objs| == |w| && c < |w| && w[c] == s && Led(objs[c], s, {t}, steps, e)
    requires forall d :: 0 <= d < |w| && d != c ==> Protocol.At(w[d], t, User)
    ensures WLed(objs, w, run, w[c := e])
    decreases |steps|
  {
    if steps == [] {
      run := [];
      assert w[c := e] == w;
    } else {
      assert steps[0] in steps;
      var s' := Do(objs[c], s, steps[0]);
      var w' := w[c := s'];
      assert Led(objs[c], s', {t}, steps[1..], e);
      var rest := LiftRun(objs, w', c, t, s', steps[1..], e);
      assert w'[c := e] == w[c := e];
      WLedCons(objs, w, Move(c, steps[0]), w', rest, w[c := e]);
      run := [Move(c, steps[0])] + rest;
    }
  }

  lemma Lift<S(!new), O(!new), R>(objs: Objects<S, O, R>, w: World<S, O, R>, c: Cid, t: Tid, e: State<S, O, R>)
    returns (run: seq<Move<S, O>>)
    requires |objs| == |w| && c < |w| && Leads(objs[c], w[c], {t}, e)
    requires forall d :: 0 <= d < |w| && d != c ==> Protocol.At(w[d], t, User)
    ensures WLed(objs, w, run, w[c := e])
  {
    var steps :| Led(objs[c], w[c], {t}, steps, e);
    run := LiftRun(objs, w, c, t, w[c], steps, e);
  }

  /** Thread `t` has read a fresh container, and thread `u` waits to write it. */
  function Half<S, O, R>(obj: Object<S, O, R>, t: Tid, u: Tid): State<S, O, R>
    requires u < 2
  {
    HasRaised(HasRead(Start(obj, 2), t, false), u)
  }

  /** Both threads have read, each a container of its own. */
  lemma BothRead<S(!new), O(!new), R>(objs: Objects<S, O, R>, w: World<S, O, R>) returns (run: seq<Move<S, O>>)
    requires |objs| == 2 && WStart(objs, w, 2)
    ensures WLed(objs, w, run, [HasRead(w[0], 0, false), HasRead(w[1], 1, false)])
  {
    var m := [HasRead(w[0], 0, false), w[1]];
    FirstRead(objs[0], w[0], 0, false);
    run := Lift(objs, w, 0, 0, m[0]);
    assert w[0 := m[0]] == m;
    FirstRead(objs[1], w[1], 1, false);
    var more := Lift(objs, m, 1, 1, HasRead(w[1], 1, false));
    assert m[1 := HasRead(w[1], 1, false)] == [HasRead(w[0], 0, false), HasRead(w[1], 1, false)];
    WLedOn(objs, w, run, m, more, [HasRead(w[0], 0, false), HasRead(w[1], 1, false)]);
    run := run + more;
  }

  /** Each then starts to write the other's container. */
  lemma BothWrite<S(!new), O(!new), R>(objs: Objects<S, O, R>, w: World<S, O, R>, m: World<S, O, R>)
    returns (run: seq<Move<S, O>>)
    requires |objs| == 2 && WStart(objs, w, 2) && m == [HasRead(w[0], 0, false), HasRead(w[1], 1, false)]
    ensures WLed(objs, m, run, [Half(objs[0], 0, 1), Half(objs[1], 1, 0)])
  {
    var x, y := Half(objs[0], 0, 1), Half(objs[1], 1, 0);
    RaiseFlag(objs[0], m[0], 1);
    run := Lift(objs, m, 0, 1, x);
    assert m[0 := x] == [x, m[1]];
    RaiseFlag(objs[1], m[1], 0);
    var more := Lift(objs, [x, m[1]], 1, 0, y);
    assert [x, m[1]][1 := y] == [x, y];
    WLedOn(objs, m, run, [x, m[1]], more, [x, y]);
    run := run + more;
  }

  lemma ByOne<O, R>(hist: seq<Event<O, R>>, t: Tid, v: Tid)
    requires hist == [Read(t)]
    ensures By(hist, v) == if v == t then [ReadCall] else []
  {
    assert hist[..0] == [];
  }

  lemma MadeOfHalf<S, O, R>(e: State<S, O, R>, t: Tid, u: Tid, v: Tid)
    requires t < 2 && u < 2 && t != u && v < 2
    requires |e.pc| == 2 && e.pc[t].User? && e.pc[u].ScanLock? && e.secs == map[] && e.hist == [Read(t)]
    ensures Made(e, v) == if v == t then [ReadCall] else [WriteCall]
  {
    ByOne(e.hist, t, v);
  }

  /** The two containers of the deadlock are reached by one call of each thread on each, whatever the run. */
  lemma OneCallEach<S, O, R>(objs: Objects<S, O, R>, w: World<S, O, R>, run: seq<Move<S, O>>, c: Cid, t: Tid)
    requires |objs| == 2 && WStart(objs, w, 2) && WRuns(objs, w, run) && c < 2 && t < 2
    requires WExec(objs, w, run)[c] == Half(objs[c], c, 1 - c)
    ensures Started(Seen(run, c), t) == if c == t then [ReadCall] else [WriteCall]
  {
    EachContainerRuns(objs, w, run, c);
    NothingMade(objs[c], 2, t);
    CallsMade(objs[c], w[c], Seen(run, c), Half(objs[c], c, 1 - c), t);
    MadeOfHalf(Half(objs[c], c, 1 - c), c, 1 - c, t);
  }

  lemma CrossedDeadlock<S, O, R>(objs: Objects<S, O, R>, e: World<S, O, R>)
    requires |objs| == 2 && e == [Half(objs[0], 0, 1), Half(objs[1], 1, 0)]
    ensures Deadlocked(e, {0, 1})
  {
    assert 0 in e[0].guards && e[0].guards[0].owner == 0;
    assert 0 in e[1].guards && e[1].guards[0].owner == 1;
    assert Caught(e[0], 1, {0, 1}) && Caught(e[1], 0, {0, 1});
    forall t | t in {0, 1} ensures CaughtSomewhere(e, t, {0, 1}) {
    }
  }

  /**
   Thread 0 reads container 0 and writes container 1; thread 1 does the opposite. The run keeps the
   discipline on each of the two containers, and neither thread ever returns.
   */
  lemma CrossedIsReachable<S(!new), O(!new), R>(objs: Objects<S, O, R>, w: World<S, O, R>)
    returns (run: seq<Move<S, O>>)
    requires |objs| == 2 && WStart(objs, w, 2)
    ensures WRuns(objs, w, run)
    ensures forall c, t :: 0 <= c < 2 && 0 <= t < 2 ==>
              Started(Seen(run, c), t) == if c == t then [ReadCall] else [WriteCall]
    ensures forall c :: 0 <= c < 2 ==> Runs(objs[c], w[c], Seen(run, c)) && CarefulRun(objs[c], w[c], Seen(run, c))
    ensures Deadlocked(WExec(objs, w, run), {0, 1})
    ensures !WCanReturn(objs, WExec(objs, w, run), 0) && !WCanReturn(objs, WExec(objs, w, run), 1)
  {
    run := CrossingRun(objs, w);
    forall c, t | 0 <= c < 2 && 0 <= t < 2
      ensures Started(Seen(run, c), t) == if c == t then [ReadCall] else [WriteCall]
    {
      OneCallEach(objs, w, run, c, t);
    }
    forall c | 0 <= c < 2 ensures Runs(objs[c], w[c], Seen(run, c)) && CarefulRun(objs[c], w[c], Seen(run, c)) {
      CarefulSeen(objs, w, run, c);
    }
    NeitherReturns(objs, w, run);
  }

  lemma CrossingRun<S(!new), O(!new), R>(objs: Objects<S, O, R>, w: World<S, O, R>) returns (run: seq<Move<S, O>>)
    requires |objs| == 2 && WStart(objs, w, 2)
    ensures WLed(objs, w, run, [Half(objs[0], 0, 1), Half(objs[1], 1, 0)])
  {
    var m := [HasRead(w[0], 0, false), HasRead(w[1], 1, false)];
    run := BothRead(objs, w);
    var more := BothWrite(objs, w, m);
    WLedOn(objs, w, run, m, more, [Half(objs[0], 0, 1), Half(objs[1], 1, 0)]);
    run := run + more;
  }

  lemma NeitherReturns<S(!new), O(!new), R>(objs: Objects<S, O, R>, w: World<S, O, R>, run: seq<Move<S, O>>)
    requires |objs| == 2 && WStart(objs, w, 2) && WRuns(objs, w, run)
    requires WExec(objs, w, run) == [Half(objs[0], 0, 1), Half(objs[1], 1, 0)]
    ensures Deadlocked(WExec(objs, w, run), {0, 1})
    ensures !WCanReturn(objs, WExec(objs, w, run), 0) && !WCanReturn(objs, WExec(objs, w, run), 1)
  {
    var e := WExec(objs, w, run);
    CrossedDeadlock(objs, e);
    WInvStart(objs, w, 2);
    WInvRun(objs, w, run);
    ReturnsNever(objs, e, 0, {0, 1});
    ReturnsNever(objs, e, 1, {0, 1});
  }

  lemma ReturnsNever<S(!new), O(!new), R>(objs: Objects<S, O, R>, e: World<S, O, R>, t: Tid, D: set<Tid>)
    requires WInv(objs, e) && Deadlocked(e, D) && t in D
    ensures !WCanReturn(objs, e, t)
  {
    forall run | WRuns(objs, e, run) ensures !Home(WExec(objs, e, run), t) {
      DeadlockedForever(objs, e, run, D);
    }
  }
}
