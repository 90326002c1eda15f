/** Sequential objects and the histories that concurrent runs are compared with. */
module Sequential {
  datatype Option<+T> = None | Some(value: T)

  /** A sequential object: its first state, and what an update does to a state and returns. */
  datatype Object<!S, !O, !R> = Object(init: S, apply: (O, S) -> (S, R))

  /** An update that has been carried out, with the result it gave its caller. */
  datatype Done<+O, +R> = Done(op: O, result: R)

  /** One entry of a history: a read was granted, or a write section took effect. */
  datatype Event<+O, +R> =
    | Read(thread: nat)
    | Write(thread: nat, log: seq<Done<O, R>>)

  /** The state `log` leads to, its updates being applied one after the other to `s`. */
  function Replay<S, O, R>(obj: Object<S, O, R>, s: S, log: seq<Done<O, R>>): S {
    if log == [] then s
    else
      var before := Replay(obj, s, log[..|log| - 1]);
      obj.apply(log[|log| - 1].op, before).0
  }

  /** Every result in `log` is the one the sequential object returns at that point. */
  ghost predicate Faithful<S, O, R>(obj: Object<S, O, R>, s: S, log: seq<Done<O, R>>) {
    forall i {:trigger log[i]} :: 0 <= i < |log| ==>
      log[i].result == obj.apply(log[i].op, Replay(obj, s, log[..i])).1
  }

  /** The state of the sequential object after a history: only writes change it. */
  function After<S, O, R>(obj: Object<S, O, R>, hist: seq<Event<O, R>>): S {
    if hist == [] then obj.init
    else
      var before := After(obj, hist[..|hist| - 1]);
      match hist[|hist| - 1]
      case Read(_) => before
      case Write(_, log) => Replay(obj, before, log)
  }

  /** Every write of the history returned what the sequential object returns at its turn. */
  ghost predicate Legal<S, O, R>(obj: Object<S, O, R>, hist: seq<Event<O, R>>) {
    forall i {:trigger hist[i]} :: 0 <= i < |hist| && hist[i].Write? ==>
      Faithful(obj, After(obj, hist[..i]), hist[i].log)
  }

  lemma ReplaySnoc<S, O, R>(obj: Object<S, O, R>, s: S, log: seq<Done<O, R>>, d: Done<O, R>)
    ensures Replay(obj, s, log + [d]) == obj.apply(d.op, Replay(obj, s, log)).0
    ensures Faithful(obj, s, log) && d.result == obj.apply(d.op, Replay(obj, s, log)).1
            ==> Faithful(obj, s, log + [d])
  {
    var longer := log + [d];
    assert longer[..|log|] == log;
    forall i | 0 <= i < |longer|
      ensures longer[..i] == if i < |log| then log[..i] else log
    {
    }
  }

  lemma AfterSnoc<S, O, R>(obj: Object<S, O, R>, hist: seq<Event<O, R>>, e: Event<O, R>)
    ensures After(obj, hist + [e]) ==
            if e.Read? then After(obj, hist) else Replay(obj, After(obj, hist), e.log)
    ensures Legal(obj, hist) && (e.Write? ==> Faithful(obj, After(obj, hist), e.log))
            ==> Legal(obj, hist + [e])
  {
    var longer := hist + [e];
    assert longer[..|hist|] == hist;
    forall i | 0 <= i < |longer|
      ensures longer[..i] == if i < |hist| then hist[..i] else hist
    {
    }
  }

  lemma FaithfulFront<S, O, R>(obj: Object<S, O, R>, s: S, log: seq<Done<O, R>>, n: nat)
    requires Faithful(obj, s, log) && n <= |log|
    ensures Faithful(obj, s, log[..n])
    ensures n < |log| ==> log[n].result == obj.apply(log[n].op, Replay(obj, s, log[..n])).1
  {
    var front := log[..n];
    forall i | 0 <= i < |front| ensures front[i] == log[i] && front[..i] == log[..i] {
    }
  }

  lemma LegalFront<S, O, R>(obj: Object<S, O, R>, hist: seq<Event<O, R>>, n: nat)
    requires Legal(obj, hist) && n <= |hist|
    ensures Legal(obj, hist[..n])
    ensures n < |hist| && hist[n].Write? ==> Faithful(obj, After(obj, hist[..n]), hist[n].log)
  {
    var front := hist[..n];
    forall i | 0 <= i < |front| ensures front[i] == hist[i] && front[..i] == hist[..i] {
    }
  }

  /** Reads leave the object alone, so the state before a tail of reads is the final state. */
  lemma {:induction false} AfterReads<S, O, R>(obj: Object<S, O, R>, hist: seq<Event<O, R>>, from: nat)
    requires from <= |hist|
    requires forall i :: from <= i < |hist| ==> hist[i].Read?
    ensures After(obj, hist[..from]) == After(obj, hist)
  {
    if from == |hist| {
      assert hist[..from] == hist;
    } else {
      var shorter := hist[..|hist| - 1];
      AfterReads(obj, shorter, from);
      assert shorter[..from] == hist[..from];
    }
  }

  /** The two kinds of calls. */
  datatype Call = ReadCall | WriteCall

  function CallOf<O, R>(e: Event<O, R>): Call {
    if e.Read? then ReadCall else WriteCall
  }

  /** The calls of thread `t` that have an event in the history, in its order. */
  function By<O, R>(hist: seq<Event<O, R>>, t: nat): seq<Call> {
    if hist == [] then []
    else By(hist[..|hist| - 1], t) + if hist[|hist| - 1].thread == t then [CallOf(hist[|hist| - 1])] else []
  }

  lemma BySnoc<O, R>(hist: seq<Event<O, R>>, e: Event<O, R>, t: nat)
    ensures By(hist + [e], t) == By(hist, t) + if e.thread == t then [CallOf(e)] else []
  {
    assert (hist + [e])[..|hist|] == hist;
  }

  lemma {:induction false} ByPrefix<O, R>(hist: seq<Event<O, R>>, n: nat, t: nat)
    requires n <= |hist|
    ensures By(hist[..n], t) <= By(hist, t)
  {
    if n == |hist| {
      assert hist[..n] == hist;
    } else {
      var shorter := hist[..|hist| - 1];
      ByPrefix(shorter, n, t);
      assert shorter[..n] == hist[..n];
    }
  }

  /** Position `p` of the history is the event of call number `i` of thread `t`. */
  predicate EventOf<O, R>(hist: seq<Event<O, R>>, p: nat, t: nat, i: nat) {
    p < |hist| && hist[p].thread == t && |By(hist[..p], t)| == i
  }

  /** Every call in By has its event. */
  lemma {:induction false} EventFound<O, R>(hist: seq<Event<O, R>>, t: nat, i: nat) returns (p: nat)
    requires i < |By(hist, t)|
    ensures EventOf(hist, p, t, i) && CallOf(hist[p]) == By(hist, t)[i]
  {
    var last := |hist| - 1;
    if i < |By(hist[..last], t)| {
      p := EventFound(hist[..last], t, i);
      assert hist[..last][..p] == hist[..p];
    } else {
      p := last;
    }
  }

  /** Events of early calls are early, those of late calls are late. */
  lemma EventPlace<O, R>(hist: seq<Event<O, R>>, n: nat, p: nat, t: nat, i: nat)
    requires n <= |hist| && EventOf(hist, p, t, i)
    ensures p < n <==> i < |By(hist[..n], t)|
  {
    if p < n {
      assert hist[..n][..p + 1] == hist[..p + 1] == hist[..p] + [hist[p]];
      BySnoc(hist[..p], hist[p], t);
      ByPrefix(hist[..n], p + 1, t);
    } else {
      assert hist[..p][..n] == hist[..n];
      ByPrefix(hist[..p], n, t);
    }
  }

  lemma HeadOfConcat<T>(a: seq<T>, b: seq<T>)
    ensures a + b == if a == [] then b else [a[0]] + (a[1..] + b)
  {
  }
}
