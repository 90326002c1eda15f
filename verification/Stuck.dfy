/**
 Where the protocol waits forever: exactly when a scanning writer can return, leaked slots, and
 a run that keeps to the documented discipline and deadlocks all the same.
 */
module Stuck {
  import opened Sequential
  import opened Protocol
  import opened Guarantees
  import opened Progress
  import opened Schedules

  /** In begin_write with the flag up. */
  predicate Scanning(p: Pc) { p.ScanLock? || p.Scan? || p.Fail? || p.Pass? }

  /** Nobody can release `g` now: it is leaked, or its owner is inside a call on the container. */
  predicate Pinned<S, O, R>(s: State<S, O, R>, g: Gid) {
    g in s.guards && (s.guards[g].leaked || !At(s, s.guards[g].owner, User))
  }

  lemma PinnedStep<S, O, R>(obj: Object<S, O, R>, s: State<S, O, R>, st: Step<S, O>, w: Tid, g: Gid)
    requires Inv(obj, s) && Enabled(s, st)
    requires w < |s.pc| && Scanning(s.pc[w]) && Pinned(s, g)
    ensures var s' := Do(obj, s, st);
            && |s'.pc| == |s.pc| && Scanning(s'.pc[w])
            && Pinned(s', g) && s'.guards[g] == s.guards[g]
  {
    WriteHolder(s);
    LocalPc(obj, s, st);
    InsideStays(obj, s, st);
    GuardStays(obj, s, st, g);
  }

  /** With the flag up and a guard live, no call on the container returns except that of a WriteLock's drop. */
  lemma InsideStays<S, O, R>(obj: Object<S, O, R>, s: State<S, O, R>, st: Step<S, O>)
    requires Quiet(s) && Enabled(s, st) && s.writing && s.guards != map[]
    ensures var p, p' := s.pc[st.t], Do(obj, s, st).pc[st.t];
            && (Scanning(p) ==> Scanning(p'))
            && (!p.User? && !p.Unlock? ==> !p'.User?)
  {
  }

  lemma GuardStays<S, O, R>(obj: Object<S, O, R>, s: State<S, O, R>, st: Step<S, O>, g: Gid)
    requires GuardsKnown(s) && Enabled(s, st) && Pinned(s, g)
    ensures g in Do(obj, s, st).guards && Do(obj, s, st).guards[g] == s.guards[g]
  {
    GuardStep(obj, s, st, g);
  }

  /**
   The states in which a writer scans while a guard is pinned form a closed set: in every
   continuation the guard stays pinned and the writer stays in begin_write.
   */
  lemma {:induction false} PinnedForever<S, O, R>(obj: Object<S, O, R>, s: State<S, O, R>, steps: seq<Step<S, O>>,
                                                  w: Tid, g: Gid)
    requires Inv(obj, s) && Runs(obj, s, steps)
    requires w < |s.pc| && Scanning(s.pc[w]) && Pinned(s, g)
    ensures var e := Exec(obj, s, steps);
            && w < |e.pc| && Scanning(e.pc[w])
            && Pinned(e, g) && e.guards[g] == s.guards[g]
    decreases |steps|
  {
    if steps == [] {
    } else {
      PinnedStep(obj, s, steps[0], w, g);
      InvStep(obj, s, steps[0]);
      PinnedForever(obj, Do(obj, s, steps[0]), steps[1..], w, g);
    }
  }

  /** Some continuation brings thread `t` back to its own code. */
  ghost predicate CanReturn<S(!new), O(!new), R>(obj: Object<S, O, R>, s: State<S, O, R>, t: Tid) {
    exists steps :: Runs(obj, s, steps) && At(Exec(obj, s, steps), t, User)
  }

  /** A scanning writer can return from begin_write exactly when no live guard is pinned. */
  lemma ScanReturnsIff<S(!new), O(!new), R>(obj: Object<S, O, R>, s: State<S, O, R>, w: Tid)
    requires Inv(obj, s) && w < |s.pc| && Scanning(s.pc[w])
    ensures CanReturn(obj, s, w) <==> forall g :: !Pinned(s, g)
  {
    if g :| Pinned(s, g) {
      forall steps | Runs(obj, s, steps) ensures !At(Exec(obj, s, steps), w, User) {
        PinnedForever(obj, s, steps, w, g);
      }
    } else {
      forall g | g in s.guards ensures !s.guards[g].leaked && At(s, s.guards[g].owner, User) {
        assert !Pinned(s, g);
      }
      assert WriterState(s, w);
      forall t | t in s.secs ensures s.pc[t].User? || s.pc[t].Clear? {
        SectionAlone(s, t);
      }
      var steps := Complete(obj, s);
      ThreadsFixed(obj, s, steps);
    }
  }

  /** Neither can a thread return that entered begin_read with a guard in hand under a scanning writer. */
  lemma NestedReadNeverReturns<S(!new), O(!new), R>(obj: Object<S, O, R>, s: State<S, O, R>, w: Tid, g: Gid)
    requires Inv(obj, s) && w < |s.pc| && Scanning(s.pc[w])
    requires g in s.guards && !s.guards[g].leaked && !s.pc[s.guards[g].owner].User?
    ensures !CanReturn(obj, s, w) && !CanReturn(obj, s, s.guards[g].owner)
  {
    ScanReturnsIff(obj, s, w);
    assert Pinned(s, g);
    forall steps | Runs(obj, s, steps) ensures !At(Exec(obj, s, steps), s.guards[g].owner, User) {
      PinnedForever(obj, s, steps, w, g);
    }
  }

  // ---------------------------------------------------------------- leaked slots

  /** In begin_write, before the end of the scan. */
  predicate Entering(p: Pc) { p.WLock? || p.Raise? || p.ScanLock? || p.Scan? || p.Fail? }

  lemma LeakStep<S, O, R>(obj: Object<S, O, R>, s: State<S, O, R>, st: Step<S, O>, g: Gid)
    requires Quiet(s) && Enabled(s, st) && g in s.guards && s.guards[g].leaked && g < |s.hist|
    ensures var s' := Do(obj, s, st);
            && g in s'.guards && s'.guards[g] == s.guards[g]
            && (forall t :: 0 <= t < |s.pc| && Entering(s.pc[t]) && !s'.pc[t].Pass? ==> Entering(s'.pc[t]))
  {
    GuardStep(obj, s, st, g);
    LocalPc(obj, s, st);
    EntersSlowly(obj, s, st);
  }

  lemma EntersSlowly<S, O, R>(obj: Object<S, O, R>, s: State<S, O, R>, st: Step<S, O>)
    requires Enabled(s, st)
    ensures var p, p' := s.pc[st.t], Do(obj, s, st).pc[st.t]; Entering(p) ==> Entering(p') || p'.Pass?
  {
  }

  /**
   A comparison or hash that panics inside `contains`, `get` or `contains_key` skips the matching
   decrement. From then on the counter stays positive and no begin_write ever returns, neither
   those under way nor those called later.
   */
  lemma {:induction false} LeakBlocksWriters<S, O, R>(obj: Object<S, O, R>, s: State<S, O, R>, steps: seq<Step<S, O>>,
                                                      g: Gid)
    requires Inv(obj, s) && Runs(obj, s, steps)
    requires g in s.guards && s.guards[g].leaked
    ensures var e := Exec(obj, s, steps);
            && g in e.guards && e.guards[g] == s.guards[g]
            && s.guards[g].slot < |e.counters| && e.counters[s.guards[g].slot] >= 1
            && e.secs == map[]
            && |e.pc| == |s.pc|
            && (forall t :: 0 <= t < |s.pc| && Entering(s.pc[t]) ==> Entering(e.pc[t]))
            && (forall t :: 0 <= t < |e.pc| ==> !e.pc[t].Pass?)
    decreases |steps|
  {
    ZeroMeansNoGuard(s, g);
    GuardSeesGrant(obj, s, g);
    if steps == [] {
    } else {
      var s' := Do(obj, s, steps[0]);
      LeakStep(obj, s, steps[0], g);
      InvStep(obj, s, steps[0]);
      LeakBlocksWriters(obj, s', steps[1..], g);
      forall t | 0 <= t < |s.pc| && Entering(s.pc[t]) ensures !s'.pc[t].Pass? {
        assert g in s'.guards;
      }
    }
  }

  // ---------------------------------------------------------------- runs

  /** The documented rule: no write method while the thread has a read or write guard. */
  ghost predicate Documented<S, O, R>(s: State<S, O, R>, st: Step<S, O>) {
    st.CallWrite? ==> st.t !in s.secs && forall g :: g in s.guards ==> s.guards[g].owner != st.t
  }

  ghost predicate DocumentedRun<S, O, R>(obj: Object<S, O, R>, s: State<S, O, R>, steps: seq<Step<S, O>>)
    requires Runs(obj, s, steps)
    decreases |steps|
  {
    steps == [] || (Documented(s, steps[0]) && DocumentedRun(obj, Do(obj, s, steps[0]), steps[1..]))
  }

  /** The strict discipline implies the documented rule. */
  lemma {:induction false} CarefulIsDocumented<S, O, R>(obj: Object<S, O, R>, s: State<S, O, R>, steps: seq<Step<S, O>>)
    requires Runs(obj, s, steps) && CarefulRun(obj, s, steps)
    ensures DocumentedRun(obj, s, steps)
    decreases |steps|
  {
    if steps == [] {
    } else {
      CarefulIsDocumented(obj, Do(obj, s, steps[0]), steps[1..]);
    }
  }

  lemma {:induction false} DocumentedConcat<S, O, R>(obj: Object<S, O, R>, s: State<S, O, R>, a: seq<Step<S, O>>,
                                                     b: seq<Step<S, O>>)
    requires Runs(obj, s, a) && Runs(obj, Exec(obj, s, a), b)
    requires DocumentedRun(obj, s, a) && DocumentedRun(obj, Exec(obj, s, a), b)
    ensures Runs(obj, s, a + b) && DocumentedRun(obj, s, a + b)
    decreases |a|
  {
    RunsConcat(obj, s, a, b);
    HeadOfConcat(a, b);
    if a == [] {
    } else {
      DocumentedConcat(obj, Do(obj, s, a[0]), a[1..], b);
    }
  }

  /** A careful run, and one more step that keeps the documented rule. */
  lemma LastStep<S(!new), O(!new), R>(obj: Object<S, O, R>, s: State<S, O, R>, who: set<Tid>, m: State<S, O, R>,
                                      st: Step<S, O>)
    returns (steps: seq<Step<S, O>>)
    requires Leads(obj, s, who, m) && Enabled(m, st) && Documented(m, st)
    ensures Runs(obj, s, steps) && DocumentedRun(obj, s, steps)
    ensures Exec(obj, s, steps) == Do(obj, m, st)
  {
    steps :| Led(obj, s, who, steps, m);
    CarefulIsDocumented(obj, s, steps);
    var b := [st];
    assert b[1..] == [];
    assert Runs(obj, m, b) && DocumentedRun(obj, m, b) && Exec(obj, m, b) == Do(obj, m, st);
    RunsConcat(obj, s, steps, b);
    DocumentedConcat(obj, s, steps, b);
    steps := steps + b;
  }

  /**
   The documented rule is not enough. Thread 0 compares a container with itself, which takes two
   read guards in turn; thread 1 starts a write between the two. Neither ever returns.
   */
  lemma SelfComparisonDeadlocks<S(!new), O(!new), R>(obj: Object<S, O, R>) returns (steps: seq<Step<S, O>>)
    ensures Runs(obj, Start(obj, 2), steps) && DocumentedRun(obj, Start(obj, 2), steps)
    ensures var s := Exec(obj, Start(obj, 2), steps);
            && s.pc == [Inc(0), ScanLock] && s.guards == map[0 := Guard(0, 0, false, false)]
            && !CanReturn(obj, s, 0) && !CanReturn(obj, s, 1)
  {
    var s0 := Start(obj, 2);
    FirstRead(obj, s0, 0, false);
    RaiseFlag(obj, HasRead(s0, 0, false), 1);
    var m := HasRaised(HasRead(s0, 0, false), 1);
    LeadsOn(obj, s0, {0}, HasRead(s0, 0, false), {1}, m);
    steps := LastStep(obj, s0, {0} + {1}, m, CallRead(0));
    var s := Exec(obj, s0, steps);
    assert s.pc == [Inc(0), ScanLock];
    assert s.guards == map[0 := Guard(0, 0, false, false)];
    Reachable(obj, 2, steps);
    NestedReadNeverReturns(obj, s, 1, 0);
  }

  /**
   A panic inside the first read of thread 0, or a forgotten guard, is all it takes: from then on no
   write that thread 1 starts ever returns, although neither thread broke the documented rule.
   */
  lemma LeakIsReachable<S(!new), O(!new), R>(obj: Object<S, O, R>) returns (steps: seq<Step<S, O>>)
    ensures Runs(obj, Start(obj, 2), steps) && DocumentedRun(obj, Start(obj, 2), steps)
    ensures var s := Exec(obj, Start(obj, 2), steps);
            && s.pc == [User, User] && s.guards == map[0 := Guard(0, 0, false, true)]
            && Enabled(s, Step<S, O>.CallWrite(1)) && !CanReturn(obj, Do(obj, s, CallWrite(1)), 1)
  {
    steps := LeakingRun(obj, Start(obj, 2));
    Reachable(obj, 2, steps);
    NoWriteAfterLeak(obj, Exec(obj, Start(obj, 2), steps), 0, 1);
  }

  lemma LeakingRun<S(!new), O(!new), R>(obj: Object<S, O, R>, s: State<S, O, R>) returns (steps: seq<Step<S, O>>)
    requires s == Start(obj, 2)
    ensures Runs(obj, s, steps) && DocumentedRun(obj, s, steps)
    ensures Exec(obj, s, steps).pc == [User, User]
    ensures Exec(obj, s, steps).guards == map[0 := Guard(0, 0, false, true)]
  {
    var m := HasRead(s, 0, false);
    FirstRead(obj, s, 0, false);
    assert m.guards == map[0 := Guard(0, 0, false, false)] && m.pc == [User, User];
    steps := LastStep(obj, s, {0}, m, Leak(0, 0));
    Leaking(obj, m);
  }

  lemma Leaking<S, O, R>(obj: Object<S, O, R>, m: State<S, O, R>)
    requires m.guards == map[0 := Guard(0, 0, false, false)] && m.pc == [User, User]
    ensures Enabled(m, Step<S, O>.Leak(0, 0))
    ensures var e := Do(obj, m, Leak(0, 0));
            e.pc == m.pc && e.guards == map[0 := Guard(0, 0, false, true)]
  {
  }

  lemma NoWriteAfterLeak<S(!new), O(!new), R>(obj: Object<S, O, R>, s: State<S, O, R>, g: Gid, t: Tid)
    requires Inv(obj, s) && g in s.guards && s.guards[g].leaked && At(s, t, User)
    ensures !CanReturn(obj, Do(obj, s, CallWrite(t)), t)
  {
    var s' := Do(obj, s, CallWrite(t));
    InvStep(obj, s, CallWrite(t));
    assert s'.pc[t].WLock? && g in s'.guards && s'.guards[g].leaked;
    forall steps | Runs(obj, s', steps) ensures !At(Exec(obj, s', steps), t, User) {
      LeakBlocksWriters(obj, s', steps, g);
    }
  }
}
