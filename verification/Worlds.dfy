/**
 Several containers, each with an object of its own. They share nothing but the threads, and a
 thread is inside a call on one container at a time. What holds on every run of one container
 holds for each of many.
 */
module Worlds {
  import opened Sequential
  import opened Protocol
  import opened Guarantees
  import opened Progress

  type Cid = nat

  /** The containers of a program: container `c` is a state of object `objs[c]`. */
  type World<S, O, R> = seq<State<S, O, R>>

  type Objects<!S, !O, !R> = seq<Object<S, O, R>>

  datatype Move<S, O> = Move(c: Cid, st: Step<S, O>)

  /** As far as containers other than `c` are concerned, the thread is in its own code, and so is a receiver. */
  ghost predicate Elsewhere<S, O, R>(w: World<S, O, R>, c: Cid, st: Step<S, O>) {
    forall d :: 0 <= d < |w| && d != c ==>
      Protocol.At(w[d], st.t, User) && (st.HandOver? ==> Protocol.At(w[d], st.to, User))
  }

  ghost predicate WEnabled<S, O, R>(w: World<S, O, R>, a: Move<S, O>) {
    a.c < |w| && Enabled(w[a.c], a.st) && Elsewhere(w, a.c, a.st)
  }

  ghost function WDo<S, O, R>(objs: Objects<S, O, R>, w: World<S, O, R>, a: Move<S, O>): (w': World<S, O, R>)
    requires |objs| == |w| && WEnabled(w, a)
    ensures |w'| == |w|
  {
    w[a.c := Do(objs[a.c], w[a.c], a.st)]
  }

  ghost predicate WRuns<S, O, R>(objs: Objects<S, O, R>, w: World<S, O, R>, run: seq<Move<S, O>>)
    requires |objs| == |w|
    decreases |run|
  {
    run == [] || (WEnabled(w, run[0]) && WRuns(objs, WDo(objs, w, run[0]), run[1..]))
  }

  ghost function WExec<S, O, R>(objs: Objects<S, O, R>, w: World<S, O, R>, run: seq<Move<S, O>>): (e: World<S, O, R>)
    requires |objs| == |w| && WRuns(objs, w, run)
    ensures |e| == |w|
    decreases |run|
  {
    if run == [] then w else WExec(objs, WDo(objs, w, run[0]), run[1..])
  }

  /** What happens to container `c`. */
  ghost function Seen<S, O>(run: seq<Move<S, O>>, c: Cid): seq<Step<S, O>> {
    if run == [] then [] else (if run[0].c == c then [run[0].st] else []) + Seen(run[1..], c)
  }

  /** Each container of a world goes through a run of its own, so all guarantees hold for it. */
  lemma {:induction false} EachContainerRuns<S, O, R>(objs: Objects<S, O, R>, w: World<S, O, R>, run: seq<Move<S, O>>,
                                                      c: Cid)
    requires |objs| == |w| && WRuns(objs, w, run) && c < |w|
    ensures Runs(objs[c], w[c], Seen(run, c))
    ensures WExec(objs, w, run)[c] == Exec(objs[c], w[c], Seen(run, c))
    decreases |run|
  {
    if run == [] {
    } else {
      var w' := WDo(objs, w, run[0]);
      EachContainerRuns(objs, w', run[1..], c);
      if run[0].c == c {
        RunsCons(objs[c], w[c], run[0].st, w'[c], Seen(run[1..], c));
      } else {
        assert Seen(run, c) == Seen(run[1..], c);
      }
    }
  }

  lemma WCons<S, O, R>(objs: Objects<S, O, R>, w: World<S, O, R>, a: Move<S, O>, w': World<S, O, R>,
                       rest: seq<Move<S, O>>)
    requires |objs| == |w| && WEnabled(w, a) && w' == WDo(objs, w, a) && WRuns(objs, w', rest)
    ensures WRuns(objs, w, [a] + rest) && WExec(objs, w, [a] + rest) == WExec(objs, w', rest)
  {
    var run := [a] + rest;
    assert run[0] == a && run[1..] == rest;
  }

  // ---------------------------------------------------------------- what every run keeps

  /** A thread inside a call on one container is in its own code as far as all others are concerned. */
  ghost predicate OneCall<S, O, R>(w: World<S, O, R>) {
    && (forall c, d :: 0 <= c < |w| && 0 <= d < |w| ==> |w[c].pc| == |w[d].pc|)
    && (forall c, d :: 0 <= c < |w| && 0 <= d < |w| && c != d ==> NotBoth(w[c], w[d]))
  }

  ghost predicate NotBoth<S, O, R>(s: State<S, O, R>, e: State<S, O, R>) {
    |s.pc| == |e.pc| && forall t :: 0 <= t < |s.pc| ==> s.pc[t].User? || e.pc[t].User?
  }

  ghost predicate WInv<S, O, R>(objs: Objects<S, O, R>, w: World<S, O, R>) {
    && |objs| == |w|
    && (forall c :: 0 <= c < |w| ==> Inv(objs[c], w[c]))
    && OneCall(w)
  }

  lemma NotBothStep<S, O, R>(obj: Object<S, O, R>, s: State<S, O, R>, st: Step<S, O>, e: State<S, O, R>)
    requires NotBoth(s, e) && Enabled(s, st) && Protocol.At(e, st.t, User)
    ensures NotBoth(Do(obj, s, st), e) && NotBoth(e, Do(obj, s, st))
  {
    LocalPc(obj, s, st);
  }

  lemma WInvStep<S, O, R>(objs: Objects<S, O, R>, w: World<S, O, R>, a: Move<S, O>)
    requires WInv(objs, w) && WEnabled(w, a)
    ensures WInv(objs, WDo(objs, w, a))
  {
    var w' := WDo(objs, w, a);
    InvStep(objs[a.c], w[a.c], a.st);
    StepGrows(objs[a.c], w[a.c], a.st);
    forall c, d | 0 <= c < |w| && 0 <= d < |w| && c != d ensures NotBoth(w'[c], w'[d]) {
      assert NotBoth(w[c], w[d]) && NotBoth(w[d], w[c]);
      if c == a.c {
        NotBothStep(objs[c], w[c], a.st, w[d]);
      } else if d == a.c {
        NotBothStep(objs[d], w[d], a.st, w[c]);
      }
    }
  }

  lemma {:induction false} WInvRun<S, O, R>(objs: Objects<S, O, R>, w: World<S, O, R>, run: seq<Move<S, O>>)
    requires WInv(objs, w) && WRuns(objs, w, run)
    ensures WInv(objs, WExec(objs, w, run))
    decreases |run|
  {
    if run == [] {
    } else {
      WInvStep(objs, w, run[0]);
      WInvRun(objs, WDo(objs, w, run[0]), run[1..]);
    }
  }

  /** Containers just created, with `n` threads. */
  ghost predicate WStart<S, O, R>(objs: Objects<S, O, R>, w: World<S, O, R>, n: nat) {
    |objs| == |w| && forall c :: 0 <= c < |w| ==> w[c] == Start(objs[c], n)
  }

  lemma WInvStart<S, O, R>(objs: Objects<S, O, R>, w: World<S, O, R>, n: nat)
    requires WStart(objs, w, n)
    ensures WInv(objs, w)
  {
    forall c | 0 <= c < |w| ensures Inv(objs[c], w[c]) {
      InvStart(objs[c], n);
    }
  }

  // ---------------------------------------------------------------- the measure of a world

  ghost function WMeasure<S, O, R>(w: World<S, O, R>): nat {
    if w == [] then 0 else WMeasure(w[..|w| - 1]) + Measure(w[|w| - 1])
  }

  lemma {:induction false} WMeasureDrops<S, O, R>(w: World<S, O, R>, c: Cid, s: State<S, O, R>)
    requires c < |w| && Measure(s) < Measure(w[c])
    ensures WMeasure(w[c := s]) < WMeasure(w)
  {
    var last := |w| - 1;
    var w' := w[c := s];
    if c == last {
      assert w'[..last] == w[..last];
    } else {
      WMeasureDrops(w[..last], c, s);
      assert w'[..last] == w[..last][c := s];
    }
  }
}
