/**
 What the protocol promises, over every run from the creation of a container: exclusion, slot
 conservation, the handoff of the flag, linearizability and the stability of guarded contents.
 */
module Guarantees {
  import opened Sequential
  import opened Protocol

  lemma Reachable<S, O, R>(obj: Object<S, O, R>, n: nat, steps: seq<Step<S, O>>)
    requires Runs(obj, Start(obj, n), steps)
    ensures Inv(obj, Exec(obj, Start(obj, n), steps))
  {
    InvStart(obj, n);
    InvRun(obj, Start(obj, n), steps);
  }

  // ---------------------------------------------------------------- exclusion and counters

  /**
   A thread past begin_write is alone: no read guard is live, no other thread is past
   begin_write, and whatever the counters show are attempts that will be taken back.
   */
  lemma Exclusion<S, O, R>(obj: Object<S, O, R>, n: nat, steps: seq<Step<S, O>>, w: Tid)
    requires Runs(obj, Start(obj, n), steps)
    requires w in Exec(obj, Start(obj, n), steps).secs
    ensures var s := Exec(obj, Start(obj, n), steps);
            && s.guards == map[]
            && s.secs.Keys == {w}
            && (forall k :: 0 <= k < |s.counters| ==> s.counters[k] == |Attempts(s.pc, k)|)
            && (forall t: Tid, g: Gid :: !Enabled(s, Step<S, O>.Access(t, g)))
            && (forall t :: Writes(s, t) ==> t == w)
  {
    Reachable(obj, n, steps);
    var s := Exec(obj, Start(obj, n), steps);
    assert WriterState(s, w);
    SectionAlone(s, w);
    forall k | 0 <= k < |s.counters| ensures s.counters[k] == |Attempts(s.pc, k)| {
      assert GuardsAt(s.guards, k) == {};
    }
  }

  /**
   Counters are exact and never underflow: whoever is about to decrement one finds it positive,
   also when the guard is released by a thread that does not own the slot.
   */
  lemma NoUnderflow<S, O, R>(obj: Object<S, O, R>, n: nat, steps: seq<Step<S, O>>)
    requires Runs(obj, Start(obj, n), steps)
    ensures var s := Exec(obj, Start(obj, n), steps);
            && (forall k :: 0 <= k < |s.counters| ==>
                  s.counters[k] == |GuardsAt(s.guards, k)| + |Attempts(s.pc, k)|)
            && (forall t :: 0 <= t < |s.pc| && s.pc[t].Undo? ==> s.pc[t].k < |s.counters| && s.counters[s.pc[t].k] >= 1)
            && (forall g :: g in s.guards ==>
                  s.guards[g].slot < |s.counters| && s.counters[s.guards[g].slot] >= 1)
  {
    Reachable(obj, n, steps);
    var s := Exec(obj, Start(obj, n), steps);
    forall t | 0 <= t < |s.pc| && s.pc[t].Undo?
      ensures s.pc[t].k < |s.counters| && s.counters[s.pc[t].k] >= 1
    {
      assert ReaderState(s, t);
      assert t in Attempts(s.pc, s.pc[t].k);
    }
    forall g | g in s.guards ensures s.counters[s.guards[g].slot] >= 1 {
      ZeroMeansNoGuard(s, g);
    }
  }

  /**
   The flag is up exactly while one thread is between its store of true and its store of
   false, and that thread holds the write mutex throughout; so a departing writer that is
   about to store false cannot erase the flag of the next one.
   */
  lemma FlagHandoff<S, O, R>(obj: Object<S, O, R>, n: nat, steps: seq<Step<S, O>>, t: Tid, u: Tid)
    requires Runs(obj, Start(obj, n), steps)
    requires t < n && u < n
    ensures var s := Exec(obj, Start(obj, n), steps);
            && |s.pc| == n
            && (Raised(s.pc[t]) || t in s.secs ==> s.writing && s.write == Some(t))
            && (s.writing ==> exists h :: 0 <= h < n && s.write == Some(h) && (Raised(s.pc[h]) || h in s.secs))
            && (s.pc[t].Clear? && t != u ==> !HoldsWrite(s.pc[u]) && u !in s.secs)
  {
    Reachable(obj, n, steps);
    ThreadsFixed(obj, Start(obj, n), steps);
    WriteHolder(Exec(obj, Start(obj, n), steps));
  }

  /** Threads stay, what has taken effect stays in its place, and guard names are not used twice. */
  lemma StepGrows<S, O, R>(obj: Object<S, O, R>, s: State<S, O, R>, st: Step<S, O>)
    requires Enabled(s, st)
    ensures var s' := Do(obj, s, st);
            |s'.pc| == |s.pc| && s.hist <= s'.hist && forall g :: g < |s.hist| && g in s'.guards ==> g in s.guards
  {
  }

  lemma {:induction false} ThreadsFixed<S, O, R>(obj: Object<S, O, R>, s: State<S, O, R>, steps: seq<Step<S, O>>)
    requires Runs(obj, s, steps)
    ensures |Exec(obj, s, steps).pc| == |s.pc|
    decreases |steps|
  {
    if steps == [] {
    } else {
      StepGrows(obj, s, steps[0]);
      ThreadsFixed(obj, Do(obj, s, steps[0]), steps[1..]);
    }
  }

  // ---------------------------------------------------------------- linearizability

  /**
   Every run refines the sequential object. The history is legal for it; outside write sections
   the memory is its state after that history, although updates tear the memory while they
   run; and every live guard sees the state that was current when its `writing` load saw false.
   */
  lemma Linearizable<S, O, R>(obj: Object<S, O, R>, n: nat, steps: seq<Step<S, O>>)
    requires Runs(obj, Start(obj, n), steps)
    ensures var s := Exec(obj, Start(obj, n), steps);
            && Legal(obj, s.hist)
            && (s.secs == map[] ==> s.content == After(obj, s.hist))
            && (forall g :: g in s.guards ==> g < |s.hist| && s.content == After(obj, s.hist[..g]))
            && (forall t: Tid, g: Gid :: Enabled(s, Step<S, O>.Access(t, g)) ==>
                  g < |s.hist| && s.content == After(obj, s.hist[..g]))
  {
    Reachable(obj, n, steps);
    var s := Exec(obj, Start(obj, n), steps);
    forall g | g in s.guards ensures g < |s.hist| && s.content == After(obj, s.hist[..g]) {
      GuardSeesGrant(obj, s, g);
    }
  }

  lemma GuardSeesGrant<S, O, R>(obj: Object<S, O, R>, s: State<S, O, R>, g: Gid)
    requires Inv(obj, s) && g in s.guards
    ensures g < |s.hist| && s.secs == map[] && s.content == After(obj, s.hist[..g])
  {
    assert s.secs == map[];
    AfterReads(obj, s.hist, g);
  }

  /** The call a step starts, if it is one of `t`. */
  function Starts<S, O>(st: Step<S, O>, t: Tid): seq<Call> {
    if st.t != t then [] else if st.CallRead? then [ReadCall] else if st.CallWrite? then [WriteCall] else []
  }

  /** Calls of begin_read and begin_write by `t`, in order. */
  function Started<S, O>(steps: seq<Step<S, O>>, t: Tid): seq<Call> {
    if steps == [] then [] else Starts(steps[0], t) + Started(steps[1..], t)
  }

  /** The call a thread is inside of and that has not taken effect yet. */
  function Inside(p: Pc): seq<Call> {
    if InRead(p) then [ReadCall] else if InWrite(p) then [WriteCall] else []
  }

  /** Calls of `t` that have not taken effect yet: its write section, and the call it is inside of. */
  function Pending<S, O, R>(s: State<S, O, R>, t: Tid): seq<Call>
    requires t < |s.pc|
  {
    (if t in s.secs then [WriteCall] else []) + Inside(s.pc[t])
  }

  /** All calls of `t` so far: those with an event, then those pending. */
  function Made<S, O, R>(s: State<S, O, R>, t: Tid): seq<Call>
    requires t < |s.pc|
  {
    By(s.hist, t) + Pending(s, t)
  }

  lemma Regroup<T>(x: seq<T>, y: seq<T>, z: seq<T>)
    ensures x + (y + z) == (x + y) + z
  {
  }

  /**
   Every call takes effect exactly once, between its start and its end, and the calls of a thread in
   the order in which it makes them: the history has, for each thread, one event for each call
   started, of its kind and in its place, except for those still pending.
   */
  lemma {:induction false} EffectOnce<S, O, R>(obj: Object<S, O, R>, s: State<S, O, R>, steps: seq<Step<S, O>>, t: Tid)
    requires Inv(obj, s) && Runs(obj, s, steps) && t < |s.pc|
    ensures t < |Exec(obj, s, steps).pc|
    ensures Made(s, t) + Started(steps, t) == Made(Exec(obj, s, steps), t)
    decreases |steps|
  {
    if steps == [] {
    } else {
      var s' := Do(obj, s, steps[0]);
      StepGrows(obj, s, steps[0]);
      NoGrantInSection(obj, s, steps[0].t);
      EffectStep(obj, s, steps[0], t);
      InvStep(obj, s, steps[0]);
      EffectOnce(obj, s', steps[1..], t);
      Regroup(Made(s, t), Starts(steps[0], t), Started(steps[1..], t));
    }
  }

  /** From creation: the calls made are the calls started. */
  lemma CallsMade<S, O, R>(obj: Object<S, O, R>, s: State<S, O, R>, steps: seq<Step<S, O>>, e: State<S, O, R>, t: Tid)
    requires Inv(obj, s) && t < |s.pc| && Made(s, t) == []
    requires Runs(obj, s, steps) && Exec(obj, s, steps) == e
    ensures t < |e.pc| && Started(steps, t) == Made(e, t)
  {
    EffectOnce(obj, s, steps, t);
  }

  lemma NothingMade<S, O, R>(obj: Object<S, O, R>, n: nat, t: Tid)
    requires t < n
    ensures Inv(obj, Start(obj, n)) && |Start(obj, n).pc| == n && Made(Start(obj, n), t) == []
  {
    InvStart(obj, n);
  }

  lemma NoGrantInSection<S, O, R>(obj: Object<S, O, R>, s: State<S, O, R>, t: Tid)
    requires Inv(obj, s) && t < |s.pc|
    ensures WriterState(s, t) && (t in s.secs ==> s.writing)
  {
    if t in s.secs {
      SectionAlone(s, t);
    }
  }

  lemma EffectStep<S, O, R>(obj: Object<S, O, R>, s: State<S, O, R>, st: Step<S, O>, t: Tid)
    requires Enabled(s, st) && t < |s.pc| && WriterState(s, st.t) && (st.t in s.secs ==> s.writing)
    ensures var s' := Do(obj, s, st);
            t < |s'.pc| && Made(s, t) + Starts(st, t) == Made(s', t)
  {
    if t != st.t {
      EffectFrame(obj, s, st, t);
    } else if st.LoadFlag? {
      EffectGrant(obj, s, st);
    } else if st.StoreFalse? {
      EffectCommit(obj, s, st);
    } else {
      PendingOwn(obj, s, st);
      Regroup(By(s.hist, t), Pending(s, t), Starts(st, t));
    }
  }

  /** The effect of a step, if it has one, is an event of its own thread. */
  lemma OwnEvent<S, O, R>(obj: Object<S, O, R>, s: State<S, O, R>, st: Step<S, O>)
    requires Enabled(s, st)
    ensures var s' := Do(obj, s, st);
            || s'.hist == s.hist
            || (st.LoadFlag? && s'.hist == s.hist + [Read(st.t)])
            || (st.StoreFalse? && s'.hist == s.hist + [Write(st.t, s.secs[st.t].log)])
  {
  }

  /** The load of a lowered flag turns the pending read into an event; that of a raised one changes nothing. */
  lemma EffectGrant<S, O, R>(obj: Object<S, O, R>, s: State<S, O, R>, st: Step<S, O>)
    requires Enabled(s, st) && (st.t in s.secs ==> s.writing) && st.LoadFlag?
    ensures st.t < |Do(obj, s, st).pc| && Made(s, st.t) == Made(Do(obj, s, st), st.t)
  {
    var t, s' := st.t, Do(obj, s, st);
    if !s.writing {
      BySnoc(s.hist, Read(t), t);
      assert Pending(s, t) == [ReadCall] && Pending(s', t) == [];
    } else {
      assert s'.hist == s.hist && Pending(s', t) == Pending(s, t);
    }
  }

  /** The store of false turns the write section into an event. */
  lemma EffectCommit<S, O, R>(obj: Object<S, O, R>, s: State<S, O, R>, st: Step<S, O>)
    requires Enabled(s, st) && st.StoreFalse?
    ensures st.t < |Do(obj, s, st).pc| && Made(s, st.t) == Made(Do(obj, s, st), st.t)
  {
    var t, s' := st.t, Do(obj, s, st);
    BySnoc(s.hist, Write(t, s.secs[t].log), t);
    assert Pending(s, t) == [WriteCall] && Pending(s', t) == [];
  }

  lemma PendingOwn<S, O, R>(obj: Object<S, O, R>, s: State<S, O, R>, st: Step<S, O>)
    requires Enabled(s, st) && WriterState(s, st.t) && !st.LoadFlag? && !st.StoreFalse?
    ensures var s' := Do(obj, s, st);
            && s'.hist == s.hist && st.t < |s'.pc|
            && Pending(s, st.t) + Starts(st, st.t) == Pending(s', st.t)
  {
    OwnEvent(obj, s, st);
    SecsStep(obj, s, st);
    if st.Enter? {
      assert st.t !in s.secs;
    } else {
      InsideOwn(obj, s, st);
    }
  }

  lemma InsideOwn<S, O, R>(obj: Object<S, O, R>, s: State<S, O, R>, st: Step<S, O>)
    requires Enabled(s, st) && !st.LoadFlag? && !st.StoreFalse? && !st.Enter?
    ensures var s' := Do(obj, s, st);
            && st.t < |s'.pc|
            && Inside(s'.pc[st.t]) == Inside(s.pc[st.t]) + Starts(st, st.t)
  {
    LocalPc(obj, s, st);
    ReadPc(obj, s, st);
    WritePc(obj, s, st);
  }

  lemma ReadPc<S, O, R>(obj: Object<S, O, R>, s: State<S, O, R>, st: Step<S, O>)
    requires Enabled(s, st) && !st.LoadFlag?
    ensures st.CallRead? || st.CallWrite? ==> s.pc[st.t].User?
    ensures InRead(Do(obj, s, st).pc[st.t]) <==> st.CallRead? || InRead(s.pc[st.t])
  {
  }

  lemma WritePc<S, O, R>(obj: Object<S, O, R>, s: State<S, O, R>, st: Step<S, O>)
    requires Enabled(s, st)
    ensures InWrite(Do(obj, s, st).pc[st.t]) <==> st.CallWrite? || (InWrite(s.pc[st.t]) && !st.Enter?)
  {
  }

  lemma EffectFrame<S, O, R>(obj: Object<S, O, R>, s: State<S, O, R>, st: Step<S, O>, t: Tid)
    requires Enabled(s, st) && t < |s.pc| && t != st.t
    ensures t < |Do(obj, s, st).pc| && Pending(Do(obj, s, st), t) == Pending(s, t)
    ensures By(Do(obj, s, st).hist, t) == By(s.hist, t)
  {
    LocalStep(obj, s, st);
    OwnEvent(obj, s, st);
    EffectElsewhere(s, Do(obj, s, st), st.t, t);
  }

  lemma EffectElsewhere<S, O, R>(s: State<S, O, R>, s': State<S, O, R>, u: Tid, t: Tid)
    requires u < |s.pc| && Local(s, s', u) && t < |s.pc| && t != u
    requires s'.hist == s.hist
             || (|s'.hist| == |s.hist| + 1 && s'.hist[..|s.hist|] == s.hist && s'.hist[|s.hist|].thread == u)
    ensures Pending(s', t) == Pending(s, t) && By(s'.hist, t) == By(s.hist, t)
  {
    OtherThread(s, s', u, t);
  }

  /** What has taken effect stays, in its place; guard names are never used twice. */
  lemma {:induction false} HistoryGrows<S, O, R>(obj: Object<S, O, R>, s: State<S, O, R>, steps: seq<Step<S, O>>)
    requires Runs(obj, s, steps)
    ensures s.hist <= Exec(obj, s, steps).hist
    ensures forall g :: g < |s.hist| && g in Exec(obj, s, steps).guards ==> g in s.guards
    decreases |steps|
  {
    if steps == [] {
    } else {
      StepGrows(obj, s, steps[0]);
      HistoryGrows(obj, Do(obj, s, steps[0]), steps[1..]);
    }
  }

  /**
   Real-time order. Let run `b` follow run `a`. A call that has ended within `a` has its event there;
   a call started within `b` has its event, if any, after all of those: of two calls that do not
   overlap, the earlier one comes first in the history.
   */
  lemma RealTimeOrder<S, O, R>(obj: Object<S, O, R>, n: nat, a: seq<Step<S, O>>, b: seq<Step<S, O>>, t: Tid, i: nat,
                               u: Tid, j: nat)
    returns (p: nat)
    requires Runs(obj, Start(obj, n), a) && Runs(obj, Exec(obj, Start(obj, n), a), b) && t < n && u < n
    requires |Exec(obj, Start(obj, n), a).pc| == n && i + |Pending(Exec(obj, Start(obj, n), a), t)| < |Started(a, t)|
    requires |Started(a, u)| <= j
    ensures var m := Exec(obj, Start(obj, n), a);
            var e := Exec(obj, m, b);
            && EventOf(m.hist, p, t, i) && CallOf(m.hist[p]) == Started(a, t)[i]
            && m.hist <= e.hist
            && (forall k: nat :: EventOf(e.hist, k, t, i) ==> k < |m.hist|)
            && (forall q: nat :: EventOf(e.hist, q, u, j) ==> |m.hist| <= q)
  {
    var s, m := Start(obj, n), Exec(obj, Start(obj, n), a);
    InvStart(obj, n);
    p := EndedCall(obj, s, a, t, i);
    StartedLater(obj, s, a, u, j);
    HistoryGrows(obj, m, b);
    EventsPlaced(m.hist, Exec(obj, m, b).hist, t, i, u, j);
  }

  lemma EndedCall<S, O, R>(obj: Object<S, O, R>, s: State<S, O, R>, a: seq<Step<S, O>>, t: Tid, i: nat) returns (p: nat)
    requires Inv(obj, s) && Runs(obj, s, a) && t < |s.pc| && Made(s, t) == []
    requires t < |Exec(obj, s, a).pc| && i + |Pending(Exec(obj, s, a), t)| < |Started(a, t)|
    ensures var m := Exec(obj, s, a);
            i < |By(m.hist, t)| && EventOf(m.hist, p, t, i) && CallOf(m.hist[p]) == Started(a, t)[i]
  {
    EffectOnce(obj, s, a, t);
    p := CallFound(Exec(obj, s, a).hist, t, i, Pending(Exec(obj, s, a), t), Started(a, t));
  }

  lemma CallFound<O, R>(m: seq<Event<O, R>>, t: Tid, i: nat, pending: seq<Call>, started: seq<Call>) returns (p: nat)
    requires [] + started == By(m, t) + pending && i + |pending| < |started|
    ensures i < |By(m, t)| && EventOf(m, p, t, i) && CallOf(m[p]) == started[i]
  {
    assert started == By(m, t) + pending;
    p := EventFound(m, t, i);
  }

  lemma StartedLater<S, O, R>(obj: Object<S, O, R>, s: State<S, O, R>, a: seq<Step<S, O>>, u: Tid, j: nat)
    requires Inv(obj, s) && Runs(obj, s, a) && u < |s.pc| && Made(s, u) == []
    requires |Started(a, u)| <= j
    ensures |By(Exec(obj, s, a).hist, u)| <= j
  {
    EffectOnce(obj, s, a, u);
  }

  lemma EventsPlaced<O, R>(m: seq<Event<O, R>>, e: seq<Event<O, R>>, t: Tid, i: nat, u: Tid, j: nat)
    requires m <= e && i < |By(m, t)| && |By(m, u)| <= j
    ensures forall p: nat :: EventOf(e, p, t, i) ==> p < |m|
    ensures forall q: nat :: EventOf(e, q, u, j) ==> |m| <= q
  {
    assert e[..|m|] == m;
    forall p: nat | EventOf(e, p, t, i) ensures p < |m| {
      EventPlace(e, |m|, p, t, i);
    }
    forall q: nat | EventOf(e, q, u, j) ensures |m| <= q {
      EventPlace(e, |m|, q, u, j);
    }
  }

  lemma {:induction false} RunsSplit<S, O, R>(obj: Object<S, O, R>, s: State<S, O, R>, a: seq<Step<S, O>>,
                                              b: seq<Step<S, O>>)
    requires Runs(obj, s, a + b)
    ensures Runs(obj, s, a) && Runs(obj, Exec(obj, s, a), b)
    ensures Exec(obj, Exec(obj, s, a), b) == Exec(obj, s, a + b)
    decreases |a|
  {
    HeadOfConcat(a, b);
    if a == [] {
    } else {
      HeadAndTail(a[0], a[1..] + b);
      RunsSplit(obj, Do(obj, s, a[0]), a[1..], b);
    }
  }

  lemma HeadAndTail<T>(x: T, rest: seq<T>)
    ensures ([x] + rest)[0] == x && ([x] + rest)[1..] == rest
  {
  }

  /**
   Guard stability: from the grant of a guard to any later moment at which it is live, at no
   moment does the memory change, whatever other threads and waiting writers do meanwhile.
   */
  lemma GuardStability<S, O, R>(obj: Object<S, O, R>, s: State<S, O, R>, steps: seq<Step<S, O>>, g: Gid, j: nat)
    requires Inv(obj, s) && g in s.guards
    requires Runs(obj, s, steps) && g in Exec(obj, s, steps).guards && j <= |steps|
    ensures Runs(obj, s, steps[..j])
    ensures g in Exec(obj, s, steps[..j]).guards && Exec(obj, s, steps[..j]).content == s.content
  {
    assert steps == steps[..j] + steps[j..];
    RunsSplit(obj, s, steps[..j], steps[j..]);
    var m := Exec(obj, s, steps[..j]);
    InvRun(obj, s, steps[..j]);
    GuardSeesGrant(obj, s, g);
    HistoryGrows(obj, s, steps[..j]);
    HistoryGrows(obj, m, steps[j..]);
    GuardSeesGrant(obj, m, g);
    assert m.hist[..g] == s.hist[..g];
  }
}
