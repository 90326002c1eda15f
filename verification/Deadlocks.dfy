/**
 Deadlocks, on one container or across several: exactly which threads can still return from the
 call they are inside of, and exactly when everything can be completed. No discipline is
 assumed; two disciplines are then measured against the exact condition.
 */
module Deadlocks {
  import opened Sequential
  import opened Protocol
  import opened Guarantees
  import opened Progress
  import opened Stuck
  import opened Worlds

  // ---------------------------------------------------------------- sets of threads that wait for each other

  /** A guard is live that no thread outside `D` can drop: it is leaked, or its owner is in `D`. */
  ghost predicate Pins<S, O, R>(s: State<S, O, R>, D: set<Tid>) {
    exists g :: g in s.guards && (s.guards[g].leaked || s.guards[g].owner in D)
  }

  /** Some thread of `D` has the write mutex. */
  ghost predicate Locked<S, O, R>(s: State<S, O, R>, D: set<Tid>) {
    s.write.Some? && s.write.value in D
  }

  /**
   Thread `t` is inside a call on the container and waits within `D`: in begin_write for a guard or
   for the write mutex, or in begin_read for the holder of the write mutex to lower the flag.
   */
  ghost predicate Caught<S, O, R>(s: State<S, O, R>, t: Tid, D: set<Tid>) {
    && t < |s.pc|
    && (Entering(s.pc[t]) ==> Pins(s, D) || (s.pc[t].WLock? && Locked(s, D)))
    && (InRead(s.pc[t]) ==> s.writing && Locked(s, D))
    && (Entering(s.pc[t]) || InRead(s.pc[t]))
  }

  /** Every thread of `D` is inside a call on some container and waits there within `D`. */
  ghost predicate Deadlocked<S, O, R>(w: World<S, O, R>, D: set<Tid>) {
    forall t :: t in D ==> CaughtSomewhere(w, t, D)
  }

  ghost predicate CaughtSomewhere<S, O, R>(w: World<S, O, R>, t: Tid, D: set<Tid>) {
    exists c :: 0 <= c < |w| && Caught(w[c], t, D)
  }

  /** In its own code, whatever container one looks at. */
  ghost predicate Home<S, O, R>(w: World<S, O, R>, t: Tid) {
    forall c :: 0 <= c < |w| ==> Protocol.At(w[c], t, User)
  }

  // ---------------------------------------------------------------- they wait forever

  lemma PinsStay<S, O, R>(obj: Object<S, O, R>, s: State<S, O, R>, st: Step<S, O>, D: set<Tid>)
    requires GuardsKnown(s) && Enabled(s, st) && (st.t in D ==> !s.pc[st.t].User?)
    ensures Pins(s, D) ==> Pins(Do(obj, s, st), D)
  {
    if g :| g in s.guards && (s.guards[g].leaked || s.guards[g].owner in D) {
      PinStays(obj, s, st, D, g);
    }
  }

  lemma PinStays<S, O, R>(obj: Object<S, O, R>, s: State<S, O, R>, st: Step<S, O>, D: set<Tid>, g: Gid)
    requires GuardsKnown(s) && Enabled(s, st) && (st.t in D ==> !s.pc[st.t].User?)
    requires g in s.guards && (s.guards[g].leaked || s.guards[g].owner in D)
    ensures g in Do(obj, s, st).guards && Do(obj, s, st).guards[g] == s.guards[g]
  {
    GuardStep(obj, s, st, g);
  }

  lemma LockedStays<S, O, R>(obj: Object<S, O, R>, s: State<S, O, R>, st: Step<S, O>, D: set<Tid>)
    requires WriteMutex(s) && Enabled(s, st) && (st.t in D ==> !s.pc[st.t].Clear? && !s.pc[st.t].Unlock?)
    ensures Locked(s, D) ==> Do(obj, s, st).write == s.write && (s.writing ==> Do(obj, s, st).writing)
  {
    LockMoves(obj, s, st);
    assert WriterState(s, st.t);
  }

  /** A step of a thread that waits within `D` leaves it waiting. */
  lemma OwnStays<S, O, R>(obj: Object<S, O, R>, s: State<S, O, R>, st: Step<S, O>, D: set<Tid>)
    requires Quiet(s) && GuardsKnown(s) && Enabled(s, st) && Caught(s, st.t, D)
    ensures var p, p' := s.pc[st.t], Do(obj, s, st).pc[st.t];
            && (InRead(p) ==> InRead(p'))
            && (Entering(p) ==> Entering(p') && Pins(s, D))
  {
    if Entering(s.pc[st.t]) {
      WriterStays(obj, s, st, D);
    } else {
      ReaderStays(obj, s, st);
    }
  }

  lemma ReaderStays<S, O, R>(obj: Object<S, O, R>, s: State<S, O, R>, st: Step<S, O>)
    requires Enabled(s, st) && InRead(s.pc[st.t]) && s.writing
    ensures InRead(Do(obj, s, st).pc[st.t])
  {
  }

  lemma WriterStays<S, O, R>(obj: Object<S, O, R>, s: State<S, O, R>, st: Step<S, O>, D: set<Tid>)
    requires Quiet(s) && GuardsKnown(s) && Enabled(s, st) && Caught(s, st.t, D) && Entering(s.pc[st.t])
    ensures Entering(Do(obj, s, st).pc[st.t]) && Pins(s, D)
  {
    if s.pc[st.t].Scan? {
      var g :| g in s.guards && (s.guards[g].leaked || s.guards[g].owner in D);
      assert s.pc[st.t].i <= s.guards[g].slot < |s.counters|;
    }
    EnteringStays(obj, s, st);
  }

  /** A scan that has not passed all counters goes on or fails. */
  lemma EnteringStays<S, O, R>(obj: Object<S, O, R>, s: State<S, O, R>, st: Step<S, O>)
    requires Enabled(s, st) && Entering(s.pc[st.t]) && (s.pc[st.t].Scan? ==> s.pc[st.t].i < |s.counters|)
    ensures Entering(Do(obj, s, st).pc[st.t]) && (s.pc[st.t].WLock? ==> s.write.None?)
  {
  }

  lemma CaughtStays<S, O, R>(obj: Object<S, O, R>, s: State<S, O, R>, st: Step<S, O>, t: Tid, D: set<Tid>)
    requires Inv(obj, s) && Enabled(s, st) && t in D && Caught(s, t, D) && (st.t in D ==> Caught(s, st.t, D))
    ensures Caught(Do(obj, s, st), t, D)
  {
    LocalPc(obj, s, st);
    PinsStay(obj, s, st, D);
    LockedStays(obj, s, st, D);
    if t == st.t {
      OwnStays(obj, s, st, D);
    }
    StillCaught(s, Do(obj, s, st), t, D);
  }

  lemma StillCaught<S, O, R>(s: State<S, O, R>, s': State<S, O, R>, t: Tid, D: set<Tid>)
    requires Caught(s, t, D) && |s'.pc| == |s.pc|
    requires Pins(s, D) ==> Pins(s', D)
    requires Locked(s, D) ==> s'.write == s.write && (s.writing ==> s'.writing)
    requires InRead(s.pc[t]) ==> InRead(s'.pc[t])
    requires Entering(s.pc[t]) ==> Entering(s'.pc[t]) && (s'.pc[t] == s.pc[t] || Pins(s, D))
    ensures Caught(s', t, D)
  {
  }

  lemma DeadlockedStep<S, O, R>(objs: Objects<S, O, R>, w: World<S, O, R>, a: Move<S, O>, D: set<Tid>)
    requires WInv(objs, w) && WEnabled(w, a) && Deadlocked(w, D)
    ensures Deadlocked(WDo(objs, w, a), D)
  {
    var w' := WDo(objs, w, a);
    forall t | t in D ensures CaughtSomewhere(w', t, D) {
      assert CaughtSomewhere(w, t, D);
      var c :| 0 <= c < |w| && Caught(w[c], t, D);
      if c == a.c {
        if a.st.t in D {
          CaughtHere(w, a.c, a.st, D);
        }
        CaughtStays(objs[c], w[c], a.st, t, D);
      }
      assert Caught(w'[c], t, D);
    }
  }

  /** A thread of `D` that takes a step waits on the container of the step. */
  lemma CaughtHere<S, O, R>(w: World<S, O, R>, c: Cid, st: Step<S, O>, D: set<Tid>)
    requires c < |w| && Elsewhere(w, c, st) && CaughtSomewhere(w, st.t, D)
    ensures Caught(w[c], st.t, D)
  {
    var d :| 0 <= d < |w| && Caught(w[d], st.t, D);
  }

  /** In every continuation the threads of such a set are inside the calls they wait in. */
  lemma {:induction false} DeadlockedForever<S, O, R>(objs: Objects<S, O, R>, w: World<S, O, R>, run: seq<Move<S, O>>,
                                                      D: set<Tid>)
    requires WInv(objs, w) && WRuns(objs, w, run) && Deadlocked(w, D)
    ensures Deadlocked(WExec(objs, w, run), D)
    ensures forall t :: t in D ==> !Home(WExec(objs, w, run), t)
    decreases |run|
  {
    if run == [] {
      forall t | t in D ensures !Home(w, t) {
        assert CaughtSomewhere(w, t, D);
      }
    } else {
      DeadlockedStep(objs, w, run[0], D);
      WInvStep(objs, w, run[0]);
      DeadlockedForever(objs, WDo(objs, w, run[0]), run[1..], D);
    }
  }

  // ---------------------------------------------------------------- steps that catch nobody

  lemma PinsBack<S, O, R>(obj: Object<S, O, R>, s: State<S, O, R>, st: Step<S, O>, D: set<Tid>)
    requires Enabled(s, st) && Gentle(s, st) && Pins(Do(obj, s, st), D)
    requires st.t in D ==> !Do(obj, s, st).pc[st.t].User?
    ensures Pins(s, D)
  {
    var s' := Do(obj, s, st);
    var g :| g in s'.guards && (s'.guards[g].leaked || s'.guards[g].owner in D);
    PinBack(obj, s, st, D, g);
  }

  lemma PinBack<S, O, R>(obj: Object<S, O, R>, s: State<S, O, R>, st: Step<S, O>, D: set<Tid>, g: Gid)
    requires Enabled(s, st) && Gentle(s, st) && (st.t in D ==> !Do(obj, s, st).pc[st.t].User?)
    requires var s' := Do(obj, s, st); g in s'.guards && (s'.guards[g].leaked || s'.guards[g].owner in D)
    ensures g in s.guards && s.guards[g] == Do(obj, s, st).guards[g]
  {
  }

  /** What a gentle step does to the write mutex and the flag. */
  lemma LockBack<S, O, R>(obj: Object<S, O, R>, s: State<S, O, R>, st: Step<S, O>)
    requires Enabled(s, st) && Gentle(s, st)
    ensures var s' := Do(obj, s, st);
            && (s'.write == s.write || s'.write.None? || (st.LockWrite? && s.write.None? && s'.write == Some(st.t)))
            && (s'.writing ==>
                  s.writing || (st.StoreTrue? && s.guards == map[] && s'.guards == map[] && s'.pc[st.t].ScanLock?))
  {
  }

  /** A gentle step does not bring a thread into a wait. */
  lemma OwnBack<S, O, R>(obj: Object<S, O, R>, s: State<S, O, R>, st: Step<S, O>)
    requires Enabled(s, st) && Gentle(s, st)
    ensures var p, p' := s.pc[st.t], Do(obj, s, st).pc[st.t];
            && (InRead(p') ==> InRead(p))
            && (Entering(p') ==> Entering(p) && !p'.WLock?)
  {
  }

  lemma CaughtBack<S, O, R>(obj: Object<S, O, R>, s: State<S, O, R>, st: Step<S, O>, t: Tid, D: set<Tid>)
    requires Inv(obj, s) && Enabled(s, st) && Gentle(s, st)
    requires var s' := Do(obj, s, st); t in D && Caught(s', t, D) && (st.t in D ==> Caught(s', st.t, D))
    ensures Caught(s, t, D)
  {
    var s' := Do(obj, s, st);
    LocalPc(obj, s, st);
    LockBack(obj, s, st);
    OwnBack(obj, s, st);
    WriteHolder(s);
    if Pins(s', D) {
      PinsBack(obj, s, st, D);
    }
  }

  /** After a gentle step nobody waits in a circle who did not before. */
  lemma DeadlockedBack<S, O, R>(objs: Objects<S, O, R>, w: World<S, O, R>, a: Move<S, O>, D: set<Tid>)
    requires WInv(objs, w) && WEnabled(w, a) && Gentle(w[a.c], a.st) && Deadlocked(WDo(objs, w, a), D)
    ensures Deadlocked(w, D)
  {
    var w' := WDo(objs, w, a);
    forall t | t in D ensures CaughtSomewhere(w, t, D) {
      assert CaughtSomewhere(w', t, D);
      var c :| 0 <= c < |w'| && Caught(w'[c], t, D);
      if c == a.c {
        if a.st.t in D {
          CaughtHere(w', a.c, a.st, D);
        }
        CaughtBack(objs[c], w[c], a.st, t, D);
      }
      assert Caught(w[c], t, D);
    }
  }

  // ---------------------------------------------------------------- whoever does not wait in a circle gets on

  /** The threads inside calls. */
  ghost function Insiders<S, O, R>(w: World<S, O, R>): set<Tid> {
    set c, t | 0 <= c < |w| && 0 <= t < |w[c].pc| && !w[c].pc[t].User? :: t
  }

  /** Threads in their own code hold nothing more that they could release. */
  ghost predicate Exhausted<S, O, R>(s: State<S, O, R>, D: set<Tid>) {
    && (forall g :: g in s.guards ==> s.guards[g].leaked || s.guards[g].owner in D)
    && (forall t :: t in s.secs ==> t in D)
  }

  /** No thread inside a call on this container can go on. */
  ghost predicate Halted<S, O, R>(s: State<S, O, R>) {
    forall t :: 0 <= t < |s.pc| ==> !Quick(s.pc[t]) && !Unhindered(s, t)
  }

  ghost predicate WAdvances<S, O, R>(objs: Objects<S, O, R>, w: World<S, O, R>, a: Move<S, O>)
    requires |objs| == |w|
  {
    WEnabled(w, a) && Advances(objs[a.c], w[a.c], a.st)
  }

  lemma OfInsider<S, O, R>(w: World<S, O, R>, c: Cid, st: Step<S, O>)
    requires OneCall(w) && c < |w| && st.t < |w[c].pc| && !w[c].pc[st.t].User? && !st.HandOver?
    ensures Elsewhere(w, c, st)
  {
    forall d | 0 <= d < |w| && d != c ensures Protocol.At(w[d], st.t, User) {
      assert NotBoth(w[c], w[d]);
    }
  }

  /** Some step brings one container closer to completion, unless all have come to a standstill. */
  lemma WAdvance<S, O, R>(objs: Objects<S, O, R>, w: World<S, O, R>) returns (a: Option<Move<S, O>>)
    requires WInv(objs, w)
    ensures a.Some? ==> WAdvances(objs, w, a.value)
    ensures a.None? ==> forall c :: 0 <= c < |w| ==> Halted(w[c]) && Exhausted(w[c], Insiders(w))
  {
    if c: Cid :| c < |w| && !Halted(w[c]) {
      var st := GoesOn(objs, w, c);
      a := Some(Move(c, st));
    } else if c: Cid :| c < |w| && !Exhausted(w[c], Insiders(w)) {
      var st := Releases(objs, w, c);
      a := Some(Move(c, st));
    } else {
      a := None;
    }
  }

  lemma GoesOn<S, O, R>(objs: Objects<S, O, R>, w: World<S, O, R>, c: Cid) returns (st: Step<S, O>)
    requires WInv(objs, w) && c < |w| && !Halted(w[c])
    ensures WAdvances(objs, w, Move(c, st))
  {
    if t: Tid :| t < |w[c].pc| && Quick(w[c].pc[t]) {
      st := QuickStep(objs[c], w[c], t);
    } else {
      var t: Tid :| t < |w[c].pc| && Unhindered(w[c], t);
      st := NextStep(objs[c], w[c], t);
    }
    OfInsider(w, c, st);
  }

  lemma Releases<S, O, R>(objs: Objects<S, O, R>, w: World<S, O, R>, c: Cid) returns (st: Step<S, O>)
    requires WInv(objs, w) && c < |w| && !Exhausted(w[c], Insiders(w))
    ensures WAdvances(objs, w, Move(c, st))
  {
    var s := w[c];
    if g :| g in s.guards && !s.guards[g].leaked && s.guards[g].owner !in Insiders(w) {
      st := Drop(s.guards[g].owner, g);
      OutsiderIsHome(w, c, s.guards[g].owner);
      DropAGuard(objs[c], s, g);
    } else {
      var t :| t in s.secs && t !in Insiders(w);
      st := Leaving(s, t);
      OutsiderIsHome(w, c, t);
      LeaveSection(objs[c], s, st);
    }
  }

  lemma OutsiderIsHome<S, O, R>(w: World<S, O, R>, c: Cid, t: Tid)
    requires OneCall(w) && c < |w| && t < |w[c].pc| && t !in Insiders(w)
    ensures Home(w, t)
  {
    forall d | 0 <= d < |w| ensures Protocol.At(w[d], t, User) {
      assert |w[d].pc| == |w[c].pc|;
    }
  }

  /** In a standstill every thread inside a call waits for a thread inside a call, or for a leaked guard. */
  lemma StandstillCatches<S, O, R>(obj: Object<S, O, R>, s: State<S, O, R>, t: Tid, D: set<Tid>)
    requires Inv(obj, s) && Halted(s) && Exhausted(s, D) && t < |s.pc| && !s.pc[t].User?
    requires forall u :: 0 <= u < |s.pc| && !s.pc[u].User? ==> u in D
    ensures Caught(s, t, D)
  {
    WriteHolder(s);
    assert !Quick(s.pc[t]) && !Unhindered(s, t);
    if s.guards != map[] {
      assert Pins(s, D) by {
        var g :| g in s.guards;
      }
    }
  }

  lemma Standstill<S, O, R>(objs: Objects<S, O, R>, w: World<S, O, R>)
    requires WInv(objs, w) && forall c :: 0 <= c < |w| ==> Halted(w[c]) && Exhausted(w[c], Insiders(w))
    ensures Deadlocked(w, Insiders(w))
  {
    forall t | t in Insiders(w) ensures CaughtSomewhere(w, t, Insiders(w)) {
      var c := Where(w, t);
      StandstillHere(objs, w, c, t, Insiders(w));
    }
  }

  lemma Where<S, O, R>(w: World<S, O, R>, t: Tid) returns (c: Cid)
    requires t in Insiders(w)
    ensures c < |w| && t < |w[c].pc| && !w[c].pc[t].User?
  {
    c :| 0 <= c < |w| && 0 <= t < |w[c].pc| && !w[c].pc[t].User?;
  }

  lemma StandstillHere<S, O, R>(objs: Objects<S, O, R>, w: World<S, O, R>, c: Cid, t: Tid, D: set<Tid>)
    requires WInv(objs, w) && c < |w| && Halted(w[c]) && Exhausted(w[c], D) && D == Insiders(w)
    requires t < |w[c].pc| && !w[c].pc[t].User?
    ensures CaughtSomewhere(w, t, D)
  {
    StandstillCatches(objs[c], w[c], t, D);
  }

  /** Nobody who waits in a circle, and the step it is that keeps it so. */
  lemma StaysFree<S, O, R>(objs: Objects<S, O, R>, w: World<S, O, R>, a: Move<S, O>, t: Tid)
    requires WInv(objs, w) && WAdvances(objs, w, a) && !Hopeless(w, t)
    ensures WInv(objs, WDo(objs, w, a)) && !Hopeless(WDo(objs, w, a), t) && WMeasure(WDo(objs, w, a)) < WMeasure(w)
  {
    WInvStep(objs, w, a);
    WMeasureDrops(w, a.c, Do(objs[a.c], w[a.c], a.st));
    if D :| t in D && Deadlocked(WDo(objs, w, a), D) {
      DeadlockedBack(objs, w, a, D);
    }
  }

  /** Thread `t` is one of a set of threads that wait for each other. */
  ghost predicate Hopeless<S, O, R>(w: World<S, O, R>, t: Tid) {
    exists D: set<Tid> :: t in D && Deadlocked(w, D)
  }

  /** Some continuation brings thread `t` back to its own code. */
  ghost predicate WCanReturn<S(!new), O(!new), R>(objs: Objects<S, O, R>, w: World<S, O, R>, t: Tid)
    requires |objs| == |w|
  {
    exists run :: WRuns(objs, w, run) && Home(WExec(objs, w, run), t)
  }

  lemma {:induction false} ReturnRun<S, O, R>(objs: Objects<S, O, R>, w: World<S, O, R>, c: Cid, t: Tid)
    returns (run: seq<Move<S, O>>)
    requires WInv(objs, w) && c < |w| && t < |w[c].pc| && !Hopeless(w, t)
    ensures WRuns(objs, w, run) && Home(WExec(objs, w, run), t)
    decreases WMeasure(w)
  {
    var a := WAdvance(objs, w);
    if t !in Insiders(w) {
      OutsiderIsHome(w, c, t);
      run := [];
    } else if a.None? {
      Standstill(objs, w);
      assert false;
    } else {
      StaysFree(objs, w, a.value, t);
      var w' := WDo(objs, w, a.value);
      assert |w'[c].pc| == |w[c].pc| by {
        if a.value.c == c {
          StepGrows(objs[c], w[c], a.value.st);
        }
      }
      var rest := ReturnRun(objs, w', c, t);
      run := [a.value] + rest;
      WCons(objs, w, a.value, w', rest);
    }
  }

  /**
   Exactly which threads can return. In every state of any number of containers, a thread can get
   out of the call it is inside of if and only if it is in no set of threads each of which waits,
   inside a call on some container, within the set: in begin_write for a guard that is leaked
   or owned in the set, or for a write mutex held in the set; or in begin_read for a flag that
   a thread of the set would have to lower.
   */
  lemma ReturnsIff<S(!new), O(!new), R>(objs: Objects<S, O, R>, w: World<S, O, R>, c: Cid, t: Tid)
    requires WInv(objs, w) && c < |w| && t < |w[c].pc|
    ensures WCanReturn(objs, w, t) <==> !Hopeless(w, t)
  {
    if D :| t in D && Deadlocked(w, D) {
      forall run | WRuns(objs, w, run) ensures !Home(WExec(objs, w, run), t) {
        DeadlockedForever(objs, w, run, D);
      }
    } else {
      var run := ReturnRun(objs, w, c, t);
    }
  }

  // ---------------------------------------------------------------- a container by itself

  lemma {:induction false} Solo<S, O, R>(obj: Object<S, O, R>, s: State<S, O, R>, steps: seq<Step<S, O>>)
    returns (run: seq<Move<S, O>>)
    requires Runs(obj, s, steps)
    ensures WRuns([obj], [s], run) && WExec([obj], [s], run) == [Exec(obj, s, steps)]
    decreases |steps|
  {
    if steps == [] {
      run := [];
    } else {
      var s' := Do(obj, s, steps[0]);
      var rest := Solo(obj, s', steps[1..]);
      assert [s][0 := s'] == [s'];
      WCons([obj], [s], Move(0, steps[0]), [s'], rest);
      run := [Move(0, steps[0])] + rest;
    }
  }

  lemma SoloReturns<S(!new), O(!new), R>(obj: Object<S, O, R>, s: State<S, O, R>, t: Tid)
    requires Inv(obj, s)
    ensures CanReturn(obj, s, t) <==> WCanReturn([obj], [s], t)
  {
    if CanReturn(obj, s, t) {
      var steps :| Runs(obj, s, steps) && Protocol.At(Exec(obj, s, steps), t, User);
      var run := Solo(obj, s, steps);
      assert Home(WExec([obj], [s], run), t);
    }
    if WCanReturn([obj], [s], t) {
      var run :| WRuns([obj], [s], run) && Home(WExec([obj], [s], run), t);
      EachContainerRuns([obj], [s], run, 0);
      assert Protocol.At(WExec([obj], [s], run)[0], t, User);
      assert Runs(obj, s, Seen(run, 0)) && Protocol.At(Exec(obj, s, Seen(run, 0)), t, User);
    }
  }

  /**
   The same for one container: exactly when a thread, in begin_read or waiting for the write mutex
   as well as scanning, can get out of its call.
   */
  lemma SoloReturnsIff<S(!new), O(!new), R>(obj: Object<S, O, R>, s: State<S, O, R>, t: Tid)
    requires Inv(obj, s) && t < |s.pc|
    ensures CanReturn(obj, s, t) <==> !exists D: set<Tid> :: t in D && WaitsWithin(s, D)
  {
    ReturnsIff([obj], [s], 0, t);
    SoloReturns(obj, s, t);
    if D: set<Tid> :| t in D && WaitsWithin(s, D) {
      forall u | u in D ensures CaughtSomewhere([s], u, D) {
        assert Caught([s][0], u, D);
      }
      assert Deadlocked([s], D);
    }
    if D: set<Tid> :| t in D && Deadlocked([s], D) {
      forall u | u in D ensures Caught(s, u, D) {
        assert CaughtSomewhere([s], u, D);
      }
      assert WaitsWithin(s, D);
    }
  }

  ghost predicate WaitsWithin<S, O, R>(s: State<S, O, R>, D: set<Tid>) {
    forall u :: u in D ==> Caught(s, u, D)
  }

  // ---------------------------------------------------------------- completing everything

  ghost predicate NoLeak<S, O, R>(w: World<S, O, R>) {
    forall c, g :: 0 <= c < |w| && g in w[c].guards ==> !w[c].guards[g].leaked
  }

  ghost predicate AllIdle<S, O, R>(w: World<S, O, R>) {
    forall c :: 0 <= c < |w| ==> Idle(w[c])
  }

  /** No two threads or more, and no thread by itself, wait for each other. */
  ghost predicate NoDeadlock<S, O, R>(w: World<S, O, R>) {
    forall D: set<Tid> :: Deadlocked(w, D) ==> D == {}
  }

  lemma NoLeakStep<S, O, R>(obj: Object<S, O, R>, s: State<S, O, R>, st: Step<S, O>, g: Gid)
    requires Enabled(s, st) && !st.Leak? && g in Do(obj, s, st).guards && Do(obj, s, st).guards[g].leaked
    ensures g in s.guards && s.guards[g].leaked
  {
  }

  lemma LeakStays<S, O, R>(obj: Object<S, O, R>, s: State<S, O, R>, st: Step<S, O>, g: Gid)
    requires Enabled(s, st) && g in s.guards && s.guards[g].leaked && g < |s.hist|
    ensures g in Do(obj, s, st).guards && Do(obj, s, st).guards[g].leaked && g < |Do(obj, s, st).hist|
  {
    GuardStep(obj, s, st, g);
    StepGrows(obj, s, st);
  }

  lemma {:induction false} LeakForever<S, O, R>(objs: Objects<S, O, R>, w: World<S, O, R>, run: seq<Move<S, O>>, c: Cid,
                                                g: Gid)
    requires |objs| == |w| && WRuns(objs, w, run)
    requires c < |w| && g in w[c].guards && w[c].guards[g].leaked && g < |w[c].hist|
    ensures g in WExec(objs, w, run)[c].guards
    decreases |run|
  {
    if run == [] {
    } else {
      if run[0].c == c {
        LeakStays(objs[c], w[c], run[0].st, g);
      }
      LeakForever(objs, WDo(objs, w, run[0]), run[1..], c, g);
    }
  }

  lemma NoDeadlockStep<S, O, R>(objs: Objects<S, O, R>, w: World<S, O, R>, a: Move<S, O>)
    requires WInv(objs, w) && WAdvances(objs, w, a) && NoLeak(w) && NoDeadlock(w)
    ensures WInv(objs, WDo(objs, w, a)) && NoLeak(WDo(objs, w, a)) && NoDeadlock(WDo(objs, w, a))
    ensures WMeasure(WDo(objs, w, a)) < WMeasure(w)
  {
    var w' := WDo(objs, w, a);
    WInvStep(objs, w, a);
    WMeasureDrops(w, a.c, Do(objs[a.c], w[a.c], a.st));
    forall D | Deadlocked(w', D) ensures D == {} {
      DeadlockedBack(objs, w, a, D);
    }
    forall c, g | 0 <= c < |w'| && g in w'[c].guards ensures !w'[c].guards[g].leaked {
      if c == a.c && w'[c].guards[g].leaked {
        NoLeakStep(objs[c], w[c], a.st, g);
      }
    }
  }

  /** A schedule that completes everything: no new call, and no more steps than the containers' measures. */
  lemma {:induction false} CompleteRun<S, O, R>(objs: Objects<S, O, R>, w: World<S, O, R>)
    returns (run: seq<Move<S, O>>)
    requires WInv(objs, w) && NoLeak(w) && NoDeadlock(w)
    ensures WRuns(objs, w, run) && AllIdle(WExec(objs, w, run))
    ensures |run| <= WMeasure(w) && forall a :: a in run ==> NoCall(a.st) && !a.st.Leak?
    decreases WMeasure(w)
  {
    var a := WAdvance(objs, w);
    if a.None? {
      run := [];
      Standstill(objs, w);
      assert Insiders(w) == {};
      forall c | 0 <= c < |w| ensures Idle(w[c]) {
        NobodyInside(w, c);
      }
    } else {
      NoDeadlockStep(objs, w, a.value);
      var w' := WDo(objs, w, a.value);
      var rest := CompleteRun(objs, w');
      run := [a.value] + rest;
      WCons(objs, w, a.value, w', rest);
    }
  }

  lemma NobodyInside<S, O, R>(w: World<S, O, R>, c: Cid)
    requires c < |w| && Insiders(w) == {} && Exhausted(w[c], {}) && NoLeak(w)
    ensures Idle(w[c])
  {
    forall t | 0 <= t < |w[c].pc| ensures w[c].pc[t].User? {
      assert t !in Insiders(w);
    }
    assert forall g :: g !in w[c].guards;
    assert forall t :: t !in w[c].secs;
  }

  /** Some continuation completes all calls and drops all guards. */
  ghost predicate CanComplete<S(!new), O(!new), R>(objs: Objects<S, O, R>, w: World<S, O, R>)
    requires |objs| == |w|
  {
    exists run :: WRuns(objs, w, run) && AllIdle(WExec(objs, w, run))
  }

  /** Exactly when all calls can be completed and all guards dropped, on any number of containers. */
  lemma CompletableIff<S(!new), O(!new), R>(objs: Objects<S, O, R>, w: World<S, O, R>)
    requires WInv(objs, w)
    ensures CanComplete(objs, w) <==> NoLeak(w) && NoDeadlock(w)
  {
    if NoLeak(w) && NoDeadlock(w) {
      var run := CompleteRun(objs, w);
    } else if NoLeak(w) {
      var D :| Deadlocked(w, D) && D != {};
      var t :| t in D;
      DeadlockedNeverIdle(objs, w, D, t);
    } else {
      var c, g :| 0 <= c < |w| && g in w[c].guards && w[c].guards[g].leaked;
      LeakNeverIdle(objs, w, c, g);
    }
  }

  lemma LeakNeverIdle<S(!new), O(!new), R>(objs: Objects<S, O, R>, w: World<S, O, R>, c: Cid, g: Gid)
    requires WInv(objs, w) && c < |w| && g in w[c].guards && w[c].guards[g].leaked
    ensures !CanComplete(objs, w)
  {
    assert GuardsKnown(w[c]);
    forall run | WRuns(objs, w, run) ensures !AllIdle(WExec(objs, w, run)) {
      LeakForever(objs, w, run, c, g);
      assert !Idle(WExec(objs, w, run)[c]);
    }
  }

  lemma DeadlockedNeverIdle<S(!new), O(!new), R>(objs: Objects<S, O, R>, w: World<S, O, R>, D: set<Tid>, t: Tid)
    requires WInv(objs, w) && Deadlocked(w, D) && t in D
    ensures !CanComplete(objs, w)
  {
    forall run | WRuns(objs, w, run) ensures !AllIdle(WExec(objs, w, run)) {
      DeadlockedForever(objs, w, run, D);
      InsiderNotIdle(WExec(objs, w, run), t, D);
    }
  }

  lemma InsiderNotIdle<S, O, R>(w: World<S, O, R>, t: Tid, D: set<Tid>)
    requires CaughtSomewhere(w, t, D)
    ensures !AllIdle(w)
  {
    var c :| 0 <= c < |w| && Caught(w[c], t, D);
    assert !Idle(w[c]);
  }

  /** The steps that complete a container by itself. */
  lemma SoloCompletes<S, O, R>(obj: Object<S, O, R>, s: State<S, O, R>) returns (steps: seq<Step<S, O>>)
    requires Inv(obj, s) && NoLeak([s]) && NoDeadlock([s])
    ensures Runs(obj, s, steps) && Idle(Exec(obj, s, steps)) && |Exec(obj, s, steps).pc| == |s.pc|
  {
    var run := CompleteRun([obj], [s]);
    EachContainerRuns([obj], [s], run, 0);
    steps := Seen(run, 0);
    ThreadsFixed(obj, s, steps);
    assert Idle(WExec([obj], [s], run)[0]);
  }
}
