/**
 The sequential objects behind the containers: SyncVec as a sequence, SyncHashMap and
 SyncBtreeMap as a map, SyncIndexMap as a sequence of entries with `swap_remove`. What the
 protocol guarantees about any object is put to work on them.
 */
module Containers {
  import opened Sequential
  import opened Protocol
  import opened Guarantees

  /**
   What a call gives its caller; an index out of bounds in `insert` or `set` panics. A plain store
   through a reference from `get_mut` gives nothing back.
   */
  datatype Outcome<+V> = Returned(value: Option<V>) | Stored | Panicked

  // ---------------------------------------------------------------- SyncVec

  datatype VecOp<V> =
    | Insert(i: nat, v: V) | Set(i: nat, v: V) | Push(v: V) | Pushes(vs: seq<V>)
    | Pop | Remove(i: nat) | Clear | Shrink
    | Assign(i: nat, v: V)     // get_mut or iter_mut, and a store through the reference
    | Exchange(i: nat, v: V)   // the same with mem::replace, which hands the old element out

  function VecApply<V>(o: VecOp<V>, s: seq<V>): (seq<V>, Outcome<V>) {
    match o
    case Insert(i, v) => if i <= |s| then (s[..i] + [v] + s[i..], Returned(None)) else (s, Panicked)
    case Set(i, v) => if i < |s| then (s[i := v], Returned(None)) else (s, Panicked)
    case Push(v) => (s + [v], Returned(None))
    case Pushes(vs) => (s + vs, Returned(None))
    case Pop => if s == [] then (s, Returned(None)) else (s[..|s| - 1], Returned(Some(s[|s| - 1])))
    case Remove(i) => if i < |s| then (s[..i] + s[i + 1..], Returned(Some(s[i]))) else (s, Returned(None))
    case Clear => ([], Returned(None))
    case Shrink => (s, Returned(None))
    case Assign(i, v) => if i < |s| then (s[i := v], Stored) else (s, Returned(None))
    case Exchange(i, v) => if i < |s| then (s[i := v], Returned(Some(s[i]))) else (s, Returned(None))
  }

  /** The same elements at the same positions. */
  ghost predicate Same<V>(s: seq<V>, s': seq<V>) {
    |s'| == |s| && forall j :: 0 <= j < |s| ==> s'[j] == s[j]
  }

  /** Position `i` now has `v`, the others what they had. */
  ghost predicate Overwritten<V>(s: seq<V>, s': seq<V>, i: nat, v: V) {
    |s'| == |s| && forall j :: 0 <= j < |s| ==> s'[j] == if j == i then v else s[j]
  }

  /** `v` is at position `i`, and what was there and behind has moved one up. */
  ghost predicate PutAt<V>(s: seq<V>, s': seq<V>, i: nat, v: V)
    requires i <= |s|
  {
    && |s'| == |s| + 1
    && forall j {:trigger s'[j]} :: 0 <= j < |s'| ==>
         s'[j] == if j < i then s[j] else if j == i then v else s[j - 1]
  }

  /** What was behind position `i` has moved one down. */
  ghost predicate TakenFrom<V>(s: seq<V>, s': seq<V>, i: nat)
    requires i < |s|
  {
    |s'| == |s| - 1 && forall j {:trigger s'[j]} :: 0 <= j < |s'| ==> s'[j] == if j < i then s[j] else s[j + 1]
  }

  /** What each call does to every position, and what it gives its caller. */
  ghost predicate VecEffect<V>(o: VecOp<V>, s: seq<V>, s': seq<V>, r: Outcome<V>) {
    match o
    case Insert(i, v) => if i > |s| then Same(s, s') && r == Panicked else PutAt(s, s', i, v) && r == Returned(None)
    case Set(i, v) => if i >= |s| then Same(s, s') && r == Panicked else Overwritten(s, s', i, v) && r == Returned(None)
    case Push(v) => PutAt(s, s', |s|, v) && r == Returned(None)
    case Pushes(vs) =>
      && |s'| == |s| + |vs| && r == Returned(None)
      && forall j :: 0 <= j < |s'| ==> s'[j] == if j < |s| then s[j] else vs[j - |s|]
    case Pop =>
      if |s| == 0 then Same(s, s') && r == Returned(None)
      else TakenFrom(s, s', |s| - 1) && r == Returned(Some(s[|s| - 1]))
    case Remove(i) =>
      if i >= |s| then Same(s, s') && r == Returned(None) else TakenFrom(s, s', i) && r == Returned(Some(s[i]))
    case Clear => |s'| == 0 && r == Returned(None)
    case Shrink => Same(s, s') && r == Returned(None)
    case Assign(i, v) =>
      if i >= |s| then Same(s, s') && r == Returned(None) else Overwritten(s, s', i, v) && r == Stored
    case Exchange(i, v) =>
      if i >= |s| then Same(s, s') && r == Returned(None) else Overwritten(s, s', i, v) && r == Returned(Some(s[i]))
  }

  /** The positions tell all there is. */
  lemma VecByPosition<V>(o: VecOp<V>, s: seq<V>, s': seq<V>, r: Outcome<V>)
    ensures VecEffect(o, s, s', r) <==> VecApply(o, s) == (s', r)
  {
    var (m, x) := VecApply(o, s);
    assert VecEffect(o, s, m, x);
    if VecEffect(o, s, s', r) {
      assert |m| == |s'| && r == x;
      forall j | 0 <= j < |m| ensures m[j] == s'[j] {
      }
      assert m == s';
    }
  }

  function VecObject<V>(init: seq<V>): Object<seq<V>, VecOp<V>, Outcome<V>> {
    Object(init, VecApply)
  }

  /** The elements a completed call put in. A call that panicked put in nothing. */
  function Added<V>(d: Done<VecOp<V>, Outcome<V>>): multiset<V> {
    if d.result.Panicked? then multiset{}
    else match d.op
      case Insert(_, v) => multiset{v}
      case Set(_, v) => multiset{v}
      case Push(v) => multiset{v}
      case Pushes(vs) => multiset(vs)
      case Assign(_, v) => if d.result.Stored? then multiset{v} else multiset{}
      case Exchange(_, v) => if d.result.Returned? && d.result.value.Some? then multiset{v} else multiset{}
      case _ => multiset{}
  }

  function AllAdded<V>(log: seq<Done<VecOp<V>, Outcome<V>>>): multiset<V> {
    if log == [] then multiset{} else AllAdded(log[..|log| - 1]) + Added(log[|log| - 1])
  }

  /** The element a completed call handed back, and so took out. */
  function Given<V>(d: Done<VecOp<V>, Outcome<V>>): multiset<V> {
    if d.result.Returned? && d.result.value.Some? then multiset{d.result.value.value} else multiset{}
  }

  function HandedBack<V>(log: seq<Done<VecOp<V>, Outcome<V>>>): multiset<V> {
    if log == [] then multiset{} else HandedBack(log[..|log| - 1]) + Given(log[|log| - 1])
  }

  /** The elements an update destroys: what `set` or a store overwrites, and what `clear` drops. */
  function Lost<V>(o: VecOp<V>, s: seq<V>): multiset<V> {
    match o
    case Set(i, _) => if i < |s| then multiset{s[i]} else multiset{}
    case Assign(i, _) => if i < |s| then multiset{s[i]} else multiset{}
    case Clear => multiset(s)
    case _ => multiset{}
  }

  function AllLost<V>(init: seq<V>, s: seq<V>, log: seq<Done<VecOp<V>, Outcome<V>>>): multiset<V> {
    if log == [] then multiset{}
    else
      var front := log[..|log| - 1];
      AllLost(init, s, front) + Lost(log[|log| - 1].op, Replay(VecObject(init), s, front))
  }

  /** Calls that destroy elements. */
  predicate Destroys<V>(o: VecOp<V>) { o.Set? || o.Assign? || o.Clear? }

  lemma InsertSplits<V>(s: seq<V>, i: nat, v: V)
    requires i <= |s|
    ensures multiset(s[..i] + [v] + s[i..]) == multiset(s) + multiset{v}
  {
    assert s == s[..i] + s[i..];
  }

  lemma RemoveSplits<V>(s: seq<V>, i: nat)
    requires i < |s|
    ensures multiset(s) == multiset(s[..i] + s[i + 1..]) + multiset{s[i]}
  {
    assert s == s[..i] + [s[i]] + s[i + 1..];
  }

  lemma ChangeSplits<V>(s: seq<V>, i: nat, v: V)
    requires i < |s|
    ensures multiset(s[i := v]) + multiset{s[i]} == multiset(s) + multiset{v}
  {
    RemoveSplits(s, i);
    RemoveSplits(s[i := v], i);
    assert s[i := v][..i] + s[i := v][i + 1..] == s[..i] + s[i + 1..];
  }

  lemma PopSplits<V>(s: seq<V>)
    requires s != []
    ensures multiset(s) == multiset(s[..|s| - 1]) + multiset{s[|s| - 1]}
  {
    assert s == s[..|s| - 1] + [s[|s| - 1]];
  }

  /** What one update does to the elements. */
  ghost predicate Balanced<V>(s: seq<V>, d: Done<VecOp<V>, Outcome<V>>) {
    multiset(VecApply(d.op, s).0) + Given(d) + Lost(d.op, s) == multiset(s) + Added(d)
  }

  lemma PutBalanced<V>(s: seq<V>, d: Done<VecOp<V>, Outcome<V>>)
    requires d.result == VecApply(d.op, s).1 && (d.op.Insert? || d.op.Set? || d.op.Assign? || d.op.Exchange?)
    ensures Balanced(s, d)
  {
    if d.op.Insert? && d.op.i <= |s| {
      InsertSplits(s, d.op.i, d.op.v);
    } else if !d.op.Insert? && d.op.i < |s| {
      ChangeSplits(s, d.op.i, d.op.v);
    }
  }

  lemma TakeBalanced<V>(s: seq<V>, d: Done<VecOp<V>, Outcome<V>>)
    requires d.result == VecApply(d.op, s).1 && (d.op.Pop? || d.op.Remove?)
    ensures Balanced(s, d)
  {
    if d.op.Pop? && s != [] {
      PopSplits(s);
    } else if d.op.Remove? && d.op.i < |s| {
      RemoveSplits(s, d.op.i);
    }
  }

  lemma VecConservesOne<V>(s: seq<V>, d: Done<VecOp<V>, Outcome<V>>)
    requires d.result == VecApply(d.op, s).1
    ensures Balanced(s, d)
  {
    if d.op.Insert? || d.op.Set? || d.op.Assign? || d.op.Exchange? {
      PutBalanced(s, d);
    } else if d.op.Pop? || d.op.Remove? {
      TakeBalanced(s, d);
    }
  }

  lemma AddUp<V>(s: multiset<V>, a: multiset<V>, h: multiset<V>, l: multiset<V>, p: multiset<V>,
                 a': multiset<V>, g: multiset<V>, x: multiset<V>, y: multiset<V>)
    requires a' + g + x == a + y && a + h + l == s + p
    ensures a' + (h + g) + (l + x) == s + (p + y)
  {
    assert a' + (h + g) + (l + x) == (a' + g + x) + h + l;
    assert (a + y) + h + l == (a + h + l) + y;
    assert (s + p) + y == s + (p + y);
  }

  /**
   Conservation: what is in the vector, was handed back or was destroyed is what was there at
   first and what was put in, each element as often as it was put in; and only `set`, stores
   through references and `clear` destroy elements.
   */
  lemma {:induction false} VecConserves<V>(init: seq<V>, s: seq<V>, log: seq<Done<VecOp<V>, Outcome<V>>>)
    requires Faithful(VecObject(init), s, log)
    ensures multiset(Replay(VecObject(init), s, log)) + HandedBack(log) + AllLost(init, s,
            log) == multiset(s) + AllAdded(log)
    ensures (forall d :: d in log ==> !Destroys(d.op)) ==> AllLost(init, s, log) == multiset{}
  {
    if log == [] {
    } else {
      var last := |log| - 1;
      FaithfulFront(VecObject(init), s, log, last);
      VecConserves(init, s, log[..last]);
      var m, d := Replay(VecObject(init), s, log[..last]), log[last];
      VecConservesOne(m, d);
      AddUp(multiset(s), multiset(m), HandedBack(log[..last]), AllLost(init, s, log[..last]), AllAdded(log[..last]),
            multiset(VecApply(d.op, m).0), Given(d), Lost(d.op, m), Added(d));
    }
  }

  /** remove(i) undoes insert(i, v), and insert undoes remove. */
  lemma VecRoundTrip<V>(s: seq<V>, i: nat, v: V)
    ensures i <= |s| ==> VecApply(Remove(i), VecApply(Insert(i, v), s).0) == (s, Returned(Some(v)))
    ensures i < |s| ==> VecApply(Insert(i, s[i]), VecApply(Remove(i), s).0).0 == s
  {
    if i <= |s| {
      var t := s[..i] + [v] + s[i..];
      assert t[..i] == s[..i] && t[i + 1..] == s[i..];
      assert s == s[..i] + s[i..];
    }
    if i < |s| {
      var t := s[..i] + s[i + 1..];
      assert t[..i] == s[..i] && t[i..] == s[i + 1..];
    }
  }

  // ---------------------------------------------------------------- the maps

  datatype MapOp<K, V> =
    | MapInsert(k: K, v: V) | MapRemove(k: K) | MapClear | MapShrink
    | MapAssign(k: K, v: V)    // get_mut, and a store through the reference
    | MapExchange(k: K, v: V)  // the same with mem::replace, which hands the old value out

  function Lookup<K, V>(m: map<K, V>, k: K): Option<V> {
    if k in m then Some(m[k]) else None
  }

  function MapApply<K, V>(o: MapOp<K, V>, m: map<K, V>): (map<K, V>, Outcome<V>) {
    match o
    case MapInsert(k, v) => (m[k := v], Returned(Lookup(m, k)))
    case MapRemove(k) => (m - {k}, Returned(Lookup(m, k)))
    case MapClear => (map[], Returned(None))
    case MapShrink => (m, Returned(None))
    case MapAssign(k, v) => if k in m then (m[k := v], Stored) else (m, Returned(None))
    case MapExchange(k, v) => (if k in m then m[k := v] else m, Returned(Lookup(m, k)))
  }

  function MapObject<K, V>(init: map<K, V>): Object<map<K, V>, MapOp<K, V>, Outcome<V>> {
    Object(init, MapApply)
  }

  // ---------------------------------------------------------------- SyncIndexMap

  type Entries<K, V> = seq<(K, V)>

  /** Where the key is, if it is. */
  function IndexOf<K(==), V>(s: Entries<K, V>, k: K): (i: Option<nat>)
    ensures i.Some? ==> i.value < |s| && s[i.value].0 == k
    ensures i.None? ==> forall j :: 0 <= j < |s| ==> s[j].0 != k
  {
    if s == [] then None
    else if s[|s| - 1].0 == k then Some(|s| - 1)
    else IndexOf(s[..|s| - 1], k)
  }

  /** swap_remove: the last entry takes the place of the one removed. */
  function SwapRemove<K, V>(s: Entries<K, V>, i: nat): Entries<K, V>
    requires i < |s|
  {
    s[i := s[|s| - 1]][..|s| - 1]
  }

  function IndexApply<K(==), V>(o: MapOp<K, V>, s: Entries<K, V>): (Entries<K, V>, Outcome<V>) {
    match o
    case MapInsert(k, v) =>
      (match IndexOf(s, k)
       case Some(i) => (s[i := (k, v)], Returned(Some(s[i].1)))
       case None => (s + [(k, v)], Returned(None)))
    case MapRemove(k) =>
      (match IndexOf(s, k)
       case Some(i) => (SwapRemove(s, i), Returned(Some(s[i].1)))
       case None => (s, Returned(None)))
    case MapClear => ([], Returned(None))
    case MapShrink => (s, Returned(None))
    case MapAssign(k, v) =>
      (match IndexOf(s, k)
       case Some(i) => (s[i := (k, v)], Stored)
       case None => (s, Returned(None)))
    case MapExchange(k, v) =>
      (match IndexOf(s, k)
       case Some(i) => (s[i := (k, v)], Returned(Some(s[i].1)))
       case None => (s, Returned(None)))
  }

  ghost predicate Distinct<K, V>(s: Entries<K, V>) {
    forall i, j :: 0 <= i < |s| && 0 <= j < |s| && s[i].0 == s[j].0 ==> i == j
  }

  /** The last entry has taken the place of entry `i`, if that is another one. */
  ghost predicate LastMovedTo<K, V>(s: Entries<K, V>, s': Entries<K, V>, i: nat) {
    |s'| == |s| - 1 && forall j {:trigger s'[j]} :: 0 <= j < |s'| ==> s'[j] == if j == i then s[|s| - 1] else s[j]
  }

  /** What an update does to every position if the key it names is at position `i`, and what it gives its caller. */
  ghost predicate EffectAt<K, V>(o: MapOp<K, V>, s: Entries<K, V>, s': Entries<K, V>, r: Outcome<V>, i: nat)
    requires i < |s|
  {
    match o
    case MapInsert(k, v) => Overwritten(s, s', i, (k, v)) && r == Returned(Some(s[i].1))
    case MapRemove(_) => LastMovedTo(s, s', i) && r == Returned(Some(s[i].1))
    case MapAssign(k, v) => Overwritten(s, s', i, (k, v)) && r == Stored
    case MapExchange(k, v) => Overwritten(s, s', i, (k, v)) && r == Returned(Some(s[i].1))
    case MapClear => |s'| == 0 && r == Returned(None)
    case MapShrink => Same(s, s') && r == Returned(None)
  }

  /** The same if the key is nowhere: only an insertion changes anything, and adds its entry at the end. */
  ghost predicate EffectAbsent<K, V>(o: MapOp<K, V>, s: Entries<K, V>, s': Entries<K, V>, r: Outcome<V>) {
    && r == Returned(None)
    && match o
       case MapInsert(k, v) => PutAt(s, s', |s|, (k, v))
       case MapClear => |s'| == 0
       case _ => Same(s, s')
  }

  predicate Names<K(==), V>(o: MapOp<K, V>, k: K) {
    match o
    case MapInsert(l, _) => l == k
    case MapRemove(l) => l == k
    case MapAssign(l, _) => l == k
    case MapExchange(l, _) => l == k
    case _ => false
  }

  ghost predicate IndexEffect<K, V>(o: MapOp<K, V>, s: Entries<K, V>, s': Entries<K, V>, r: Outcome<V>) {
    && (forall i :: 0 <= i < |s| && Names(o, s[i].0) ==> EffectAt(o, s, s', r, i))
    && ((forall i :: 0 <= i < |s| ==> !Names(o, s[i].0)) ==> EffectAbsent(o, s, s', r))
  }

  /** The positions tell all there is, as long as no key occurs twice. */
  lemma IndexByPosition<K, V>(o: MapOp<K, V>, s: Entries<K, V>, s': Entries<K, V>, r: Outcome<V>)
    requires Distinct(s)
    ensures IndexEffect(o, s, s', r) <==> IndexApply(o, s) == (s', r)
  {
    var (m, x) := IndexApply(o, s);
    IndexHasEffect(o, s);
    if IndexEffect(o, s, s', r) {
      if i :| 0 <= i < |s| && Names(o, s[i].0) {
        assert EffectAt(o, s, m, x, i) && EffectAt(o, s, s', r, i);
      }
      assert |m| == |s'| && r == x;
      forall j | 0 <= j < |m| ensures m[j] == s'[j] {
      }
      assert m == s';
    }
  }

  lemma IndexHasEffect<K, V>(o: MapOp<K, V>, s: Entries<K, V>)
    requires Distinct(s)
    ensures IndexEffect(o, s, IndexApply(o, s).0, IndexApply(o, s).1)
  {
    var (m, x) := IndexApply(o, s);
    forall i | 0 <= i < |s| && Names(o, s[i].0) ensures EffectAt(o, s, m, x, i) {
      assert IndexOf(s, s[i].0) == Some(i);
    }
  }

  function IndexObject<K(==), V>(init: Entries<K, V>): Object<Entries<K, V>, MapOp<K, V>, Outcome<V>> {
    Object(init, IndexApply)
  }

  /** The entries list the map: every key once, with its value. */
  ghost predicate Lists<K, V>(s: Entries<K, V>, m: map<K, V>) {
    && Distinct(s)
    && (forall i :: 0 <= i < |s| ==> s[i].0 in m && m[s[i].0] == s[i].1)
    && (forall k :: k in m ==> exists i :: 0 <= i < |s| && s[i].0 == k)
  }

  /** An index map does to the entries what a map does to the map they list, with the same results. */
  lemma IndexStep<K, V>(s: Entries<K, V>, m: map<K, V>, o: MapOp<K, V>)
    requires Lists(s, m)
    ensures Lists(IndexApply(o, s).0, MapApply(o, m).0)
    ensures IndexApply(o, s).1 == MapApply(o, m).1
  {
    var s', m' := IndexApply(o, s).0, MapApply(o, m).0;
    if o.MapRemove? {
      RemoveLists(s, m, o.k);
    } else if o.MapInsert? || o.MapAssign? || o.MapExchange? {
      AssignLists(s, m, o);
    }
  }

  lemma RemoveLists<K, V>(s: Entries<K, V>, m: map<K, V>, k: K)
    requires Lists(s, m)
    ensures Lists(IndexApply(MapRemove(k), s).0, m - {k})
    ensures IndexApply(MapRemove(k), s).1 == Returned(Lookup(m, k))
  {
    match IndexOf(s, k)
    case None =>
    case Some(i) =>
      var s', last := SwapRemove(s, i), |s| - 1;
      assert forall j :: 0 <= j < last ==> s'[j] == if j == i then s[last] else s[j];
      forall l | l in m && l != k ensures exists j :: 0 <= j < |s'| && s'[j].0 == l {
        var j :| 0 <= j < |s| && s[j].0 == l;
        assert s'[if j == last then i else j].0 == l;
      }
  }

  /** Where the search finds the key, and that it finds every key of the map. */
  lemma Found<K, V>(s: Entries<K, V>, m: map<K, V>, k: K)
    requires Lists(s, m)
    ensures match IndexOf(s, k)
            case Some(i) => k in m && m[k] == s[i].1
            case None => k !in m
  {
  }

  lemma ChangeLists<K, V>(s: Entries<K, V>, m: map<K, V>, i: nat, v: V)
    requires Lists(s, m) && i < |s|
    ensures Lists(s[i := (s[i].0, v)], m[s[i].0 := v])
  {
    var s' := s[i := (s[i].0, v)];
    assert forall j :: 0 <= j < |s| ==> s'[j].0 == s[j].0;
    forall l | l in m ensures exists j :: 0 <= j < |s'| && s'[j].0 == l {
      var j :| 0 <= j < |s| && s[j].0 == l;
      assert s'[j].0 == l;
    }
  }

  lemma AppendLists<K, V>(s: Entries<K, V>, m: map<K, V>, k: K, v: V)
    requires Lists(s, m) && k !in m
    ensures Lists(s + [(k, v)], m[k := v])
  {
    var s', m' := s + [(k, v)], m[k := v];
    forall l | l in m' ensures exists j :: 0 <= j < |s'| && s'[j].0 == l {
      if l == k {
        assert s'[|s|].0 == k;
      } else {
        var j :| 0 <= j < |s| && s[j].0 == l;
        assert s'[j].0 == l;
      }
    }
  }

  lemma AssignLists<K, V>(s: Entries<K, V>, m: map<K, V>, o: MapOp<K, V>)
    requires Lists(s, m) && (o.MapInsert? || o.MapAssign? || o.MapExchange?)
    ensures Lists(IndexApply(o, s).0, MapApply(o, m).0)
    ensures IndexApply(o, s).1 == MapApply(o, m).1
  {
    Found(s, m, o.k);
    match IndexOf(s, o.k)
    case Some(i) => ChangeLists(s, m, i, o.v);
    case None =>
      if o.MapInsert? {
        AppendLists(s, m, o.k, o.v);
      }
  }

  lemma {:induction false} IndexLog<K, V>(e: Entries<K, V>, f: map<K, V>, s: Entries<K, V>, m: map<K, V>,
                                          log: seq<Done<MapOp<K, V>, Outcome<V>>>)
    requires Lists(s, m)
    ensures Lists(Replay(IndexObject(e), s, log), Replay(MapObject(f), m, log))
  {
    if log == [] {
    } else {
      var front := log[..|log| - 1];
      IndexLog(e, f, s, m, front);
      IndexStep(Replay(IndexObject(e), s, front), Replay(MapObject(f), m, front), log[|log| - 1].op);
    }
  }

  lemma IndexFaithful<K, V>(e: Entries<K, V>, f: map<K, V>, s: Entries<K, V>, m: map<K, V>,
                            log: seq<Done<MapOp<K, V>, Outcome<V>>>)
    requires Lists(s, m) && Faithful(IndexObject(e), s, log)
    ensures Faithful(MapObject(f), m, log)
  {
    forall i | 0 <= i < |log|
      ensures log[i].result == MapApply(log[i].op, Replay(MapObject(f), m, log[..i])).1
    {
      IndexLog(e, f, s, m, log[..i]);
      IndexStep(Replay(IndexObject(e), s, log[..i]), Replay(MapObject(f), m, log[..i]), log[i].op);
    }
  }

  /** Histories of index maps are histories of maps. */
  lemma {:induction false} IndexHistory<K, V>(e: Entries<K, V>, f: map<K, V>, hist: seq<Event<MapOp<K, V>, Outcome<V>>>)
    requires Lists(e, f) && Legal(IndexObject(e), hist)
    ensures Lists(After(IndexObject(e), hist), After(MapObject(f), hist)) && Legal(MapObject(f), hist)
  {
    if hist == [] {
    } else {
      var last := |hist| - 1;
      LegalFront(IndexObject(e), hist, last);
      IndexHistory(e, f, hist[..last]);
      IndexEvent(e, f, hist[..last], hist[last]);
      assert hist[..last] + [hist[last]] == hist;
    }
  }

  lemma IndexEvent<K, V>(e: Entries<K, V>, f: map<K, V>, front: seq<Event<MapOp<K, V>, Outcome<V>>>,
                         x: Event<MapOp<K, V>, Outcome<V>>)
    requires Lists(After(IndexObject(e), front), After(MapObject(f), front)) && Legal(MapObject(f), front)
    requires x.Write? ==> Faithful(IndexObject(e), After(IndexObject(e), front), x.log)
    ensures Lists(After(IndexObject(e), front + [x]), After(MapObject(f), front + [x]))
            && Legal(MapObject(f), front + [x])
  {
    if x.Write? {
      IndexFaithful(e, f, After(IndexObject(e), front), After(MapObject(f), front), x.log);
      IndexLog(e, f, After(IndexObject(e), front), After(MapObject(f), front), x.log);
    }
    AfterSnoc(IndexObject(e), front, x);
    AfterSnoc(MapObject(f), front, x);
  }

  /**
   SyncIndexMap is a concurrent map: over every run its results are those of one sequential map,
   the same as for SyncHashMap, and every guard sees entries that list the map of the moment
   its `writing` load saw false, `swap_remove` moving entries about notwithstanding.
   */
  lemma IndexMapIsAMap<K, V>(e: Entries<K, V>, f: map<K, V>, n: nat, steps: seq<Step<Entries<K, V>, MapOp<K, V>>>)
    requires Lists(e, f) && Runs(IndexObject(e), Start(IndexObject(e), n), steps)
    ensures var s := Exec(IndexObject(e), Start(IndexObject(e), n), steps);
            && Legal(MapObject(f), s.hist)
            && (s.secs == map[] ==> Lists(s.content, After(MapObject(f), s.hist)))
            && (forall g :: g in s.guards ==> g < |s.hist| && Lists(s.content, After(MapObject(f), s.hist[..g])))
  {
    Linearizable(IndexObject(e), n, steps);
    var s := Exec(IndexObject(e), Start(IndexObject(e), n), steps);
    IndexHistory(e, f, s.hist);
    forall g | g in s.guards ensures g < |s.hist| && Lists(s.content, After(MapObject(f), s.hist[..g])) {
      var front := s.hist[..g];
      LegalFront(IndexObject(e), s.hist, g);
      IndexHistory(e, f, front);
    }
  }

  /** Reads of the entries are reads of the map: get and contains_key. */
  lemma IndexGet<K, V>(s: Entries<K, V>, m: map<K, V>, k: K)
    requires Lists(s, m)
    ensures Lookup(m, k) == match IndexOf(s, k) case Some(i) => Some(s[i].1) case None => None
  {
  }

  ghost function KeySet<K, V>(s: Entries<K, V>): set<K> {
    set e | e in s :: e.0
  }

  lemma {:induction false} KeysCount<K, V>(s: Entries<K, V>)
    requires Distinct(s)
    ensures |KeySet(s)| == |s|
  {
    if s == [] {
    } else {
      var last := |s| - 1;
      KeysCount(s[..last]);
      assert s == s[..last] + [s[last]];
      assert KeySet(s) == KeySet(s[..last]) + {s[last].0};
    }
  }

  /** len */
  lemma IndexLen<K, V>(s: Entries<K, V>, m: map<K, V>)
    requires Lists(s, m)
    ensures |s| == |m|
  {
    KeysCount(s);
    forall k | k in m ensures k in KeySet(s) {
      var i :| 0 <= i < |s| && s[i].0 == k;
      assert s[i] in s;
    }
    assert m.Keys == KeySet(s);
  }

  // ---------------------------------------------------------------- SyncVec in concurrent runs

  /** The updates of a history, one section after the other. */
  function Updates<O, R>(hist: seq<Event<O, R>>): seq<Done<O, R>> {
    if hist == [] then []
    else
      var x := hist[|hist| - 1];
      Updates(hist[..|hist| - 1]) + if x.Write? then x.log else []
  }

  lemma {:induction false} ReplayConcat<S, O, R>(obj: Object<S, O, R>, s: S, a: seq<Done<O, R>>, b: seq<Done<O, R>>)
    requires Faithful(obj, s, a) && Faithful(obj, Replay(obj, s, a), b)
    ensures Replay(obj, s, a + b) == Replay(obj, Replay(obj, s, a), b) && Faithful(obj, s, a + b)
  {
    if b == [] {
      assert a + b == a;
    } else {
      var last := |b| - 1;
      FaithfulFront(obj, Replay(obj, s, a), b, last);
      ReplayConcat(obj, s, a, b[..last]);
      ReplayOneMore(obj, s, a, b[..last], b[last]);
      assert b[..last] + [b[last]] == b;
    }
  }

  lemma ReplayOneMore<S, O, R>(obj: Object<S, O, R>, s: S, a: seq<Done<O, R>>, front: seq<Done<O, R>>, d: Done<O, R>)
    requires Faithful(obj, s, a + front) && Replay(obj, s, a + front) == Replay(obj, Replay(obj, s, a), front)
    requires d.result == obj.apply(d.op, Replay(obj, Replay(obj, s, a), front)).1
    ensures Faithful(obj, s, a + (front + [d]))
    ensures Replay(obj, s, a + (front + [d])) == Replay(obj, Replay(obj, s, a), front + [d])
  {
    ReplaySnoc(obj, s, a + front, d);
    ReplaySnoc(obj, Replay(obj, s, a), front, d);
    assert a + (front + [d]) == (a + front) + [d];
  }

  lemma {:induction false} UpdatesReplay<S, O, R>(obj: Object<S, O, R>, hist: seq<Event<O, R>>)
    requires Legal(obj, hist)
    ensures Faithful(obj, obj.init, Updates(hist)) && Replay(obj, obj.init, Updates(hist)) == After(obj, hist)
  {
    if hist == [] {
    } else {
      var last := |hist| - 1;
      LegalFront(obj, hist, last);
      UpdatesReplay(obj, hist[..last]);
      if hist[last].Write? {
        ReplayConcat(obj, obj.init, Updates(hist[..last]), hist[last].log);
      } else {
        assert Updates(hist) == Updates(hist[..last]);
      }
    }
  }

  /**
   Elements are conserved over every concurrent run of a SyncVec: what calls handed back, what calls
   destroyed and what is in the vector when nobody is writing is what was put in, each element
   as often; without `set`, stores through references and `clear` none is destroyed.
   */
  lemma VecRunConserves<V>(init: seq<V>, n: nat, steps: seq<Step<seq<V>, VecOp<V>>>)
    requires Runs(VecObject(init), Start(VecObject(init), n), steps)
    requires Exec(VecObject(init), Start(VecObject(init), n), steps).secs == map[]
    ensures var s := Exec(VecObject(init), Start(VecObject(init), n), steps);
            var log := Updates(s.hist);
            && multiset(s.content) + HandedBack(log) + AllLost(init, init, log) == multiset(init) + AllAdded(log)
            && ((forall d :: d in log ==> !Destroys(d.op)) ==> AllLost(init, init, log) == multiset{})
  {
    Linearizable(VecObject(init), n, steps);
    var s := Exec(VecObject(init), Start(VecObject(init), n), steps);
    UpdatesReplay(VecObject(init), s.hist);
    VecConserves(init, init, Updates(s.hist));
  }

  // ---------------------------------------------------------------- SyncHashMap in concurrent runs

  /** The value of `k` told from the updates alone, going back to the last one that matters for `k`. */
  function LastValue<K(==), V>(first: Option<V>, log: seq<Done<MapOp<K, V>, Outcome<V>>>, k: K): Option<V> {
    if log == [] then first
    else
      var front := log[..|log| - 1];
      match log[|log| - 1].op
      case MapInsert(l, v) => if l == k then Some(v) else LastValue(first, front, k)
      case MapRemove(l) => if l == k then None else LastValue(first, front, k)
      case MapClear => None
      case MapShrink => LastValue(first, front, k)
      case MapAssign(l, v) =>
        if l == k && LastValue(first, front, k).Some? then Some(v) else LastValue(first, front, k)
      case MapExchange(l, v) =>
        if l == k && LastValue(first, front, k).Some? then Some(v) else LastValue(first, front, k)
  }

  lemma {:induction false} LookupIsLast<K, V>(f: map<K, V>, m: map<K, V>, log: seq<Done<MapOp<K, V>, Outcome<V>>>, k: K)
    ensures Lookup(Replay(MapObject(f), m, log), k) == LastValue(Lookup(m, k), log, k)
  {
    if log == [] {
    } else {
      LookupIsLast(f, m, log[..|log| - 1], k);
    }
  }

  /**
   In every run of a SyncHashMap, what a live guard finds under a key is what the last update of
   that key wrote, among the updates that took effect before the guard was granted.
   */
  lemma MapReadsLastWrite<K, V>(f: map<K, V>, n: nat, steps: seq<Step<map<K, V>, MapOp<K, V>>>, g: Gid, k: K)
    requires Runs(MapObject(f), Start(MapObject(f), n), steps)
    requires g in Exec(MapObject(f), Start(MapObject(f), n), steps).guards
    ensures var s := Exec(MapObject(f), Start(MapObject(f), n), steps);
            g < |s.hist| && Lookup(s.content, k) == LastValue(Lookup(f, k), Updates(s.hist[..g]), k)
  {
    Linearizable(MapObject(f), n, steps);
    var s := Exec(MapObject(f), Start(MapObject(f), n), steps);
    var front := s.hist[..g];
    LegalFront(MapObject(f), s.hist, g);
    UpdatesReplay(MapObject(f), front);
    LookupIsLast(f, f, Updates(front), k);
  }

  /** What the caller of update `i` is told, if the updates before it and the first map are all one knows. */
  ghost predicate Told<K, V>(f: map<K, V>, log: seq<Done<MapOp<K, V>, Outcome<V>>>, i: nat)
    requires i < |log|
  {
    match log[i].op
    case MapInsert(k, _) => log[i].result == Returned(LastValue(Lookup(f, k), log[..i], k))
    case MapRemove(k) => log[i].result == Returned(LastValue(Lookup(f, k), log[..i], k))
    case MapExchange(k, _) => log[i].result == Returned(LastValue(Lookup(f, k), log[..i], k))
    case MapAssign(k, _) =>
      log[i].result == if LastValue(Lookup(f, k), log[..i], k).Some? then Stored else Returned(None)
    case MapClear => log[i].result == Returned(None)
    case MapShrink => log[i].result == Returned(None)
  }

  lemma FaithfulTold<K, V>(f: map<K, V>, log: seq<Done<MapOp<K, V>, Outcome<V>>>, i: nat)
    requires Faithful(MapObject(f), f, log) && i < |log|
    ensures Told(f, log, i)
  {
    match log[i].op
    case MapInsert(k, _) => LookupIsLast(f, f, log[..i], k);
    case MapRemove(k) => LookupIsLast(f, f, log[..i], k);
    case MapExchange(k, _) => LookupIsLast(f, f, log[..i], k);
    case MapAssign(k, _) => LookupIsLast(f, f, log[..i], k);
    case _ =>
  }

  /**
   In every run of a SyncHashMap or SyncBtreeMap every update tells its caller what the last update of
   that key before it wrote: the old value, or none if it was removed or never there.
   */
  lemma MapResults<K, V>(f: map<K, V>, n: nat, steps: seq<Step<map<K, V>, MapOp<K, V>>>, i: nat)
    requires Runs(MapObject(f), Start(MapObject(f), n), steps)
    requires i < |Updates(Exec(MapObject(f), Start(MapObject(f), n), steps).hist)|
    ensures Told(f, Updates(Exec(MapObject(f), Start(MapObject(f), n), steps).hist), i)
  {
    Linearizable(MapObject(f), n, steps);
    var hist := Exec(MapObject(f), Start(MapObject(f), n), steps).hist;
    UpdatesReplay(MapObject(f), hist);
    FaithfulTold(f, Updates(hist), i);
  }

  /** The same for SyncIndexMap. */
  lemma IndexResults<K, V>(e: Entries<K, V>, f: map<K, V>, n: nat, steps: seq<Step<Entries<K, V>, MapOp<K, V>>>, i: nat)
    requires Lists(e, f) && Runs(IndexObject(e), Start(IndexObject(e), n), steps)
    requires i < |Updates(Exec(IndexObject(e), Start(IndexObject(e), n), steps).hist)|
    ensures Told(f, Updates(Exec(IndexObject(e), Start(IndexObject(e), n), steps).hist), i)
  {
    IndexMapIsAMap(e, f, n, steps);
    var hist := Exec(IndexObject(e), Start(IndexObject(e), n), steps).hist;
    UpdatesReplay(MapObject(f), hist);
    FaithfulTold(f, Updates(hist), i);
  }

  /** In every run of a SyncVec each update does at every position what it says, given what the ones before left. */
  lemma VecRunByPosition<V>(init: seq<V>, n: nat, steps: seq<Step<seq<V>, VecOp<V>>>, i: nat)
    requires Runs(VecObject(init), Start(VecObject(init), n), steps)
    requires i < |Updates(Exec(VecObject(init), Start(VecObject(init), n), steps).hist)|
    ensures var log := Updates(Exec(VecObject(init), Start(VecObject(init), n), steps).hist);
            VecEffect(log[i].op, Replay(VecObject(init), init, log[..i]), Replay(VecObject(init), init, log[..i + 1]),
                      log[i].result)
  {
    Linearizable(VecObject(init), n, steps);
    var hist := Exec(VecObject(init), Start(VecObject(init), n), steps).hist;
    UpdatesReplay(VecObject(init), hist);
    var log := Updates(hist);
    ReplayNext(VecObject(init), init, log, i);
    VecByPosition(log[i].op, Replay(VecObject(init), init, log[..i]), Replay(VecObject(init), init, log[..i + 1]),
                  log[i].result);
  }

  /** In every run of a SyncIndexMap each update moves the entries as it says. */
  lemma IndexRunByPosition<K, V>(e: Entries<K, V>, f: map<K, V>, n: nat, steps: seq<Step<Entries<K, V>, MapOp<K, V>>>,
                                 i: nat)
    requires Lists(e, f) && Runs(IndexObject(e), Start(IndexObject(e), n), steps)
    requires i < |Updates(Exec(IndexObject(e), Start(IndexObject(e), n), steps).hist)|
    ensures var log := Updates(Exec(IndexObject(e), Start(IndexObject(e), n), steps).hist);
            IndexEffect(log[i].op, Replay(IndexObject(e), e, log[..i]), Replay(IndexObject(e), e, log[..i + 1]),
                        log[i].result)
  {
    Linearizable(IndexObject(e), n, steps);
    var hist := Exec(IndexObject(e), Start(IndexObject(e), n), steps).hist;
    UpdatesReplay(IndexObject(e), hist);
    var log := Updates(hist);
    IndexLog(e, f, e, f, log[..i]);
    ReplayNext(IndexObject(e), e, log, i);
    IndexByPosition(log[i].op, Replay(IndexObject(e), e, log[..i]), Replay(IndexObject(e), e, log[..i + 1]),
                    log[i].result);
  }

  lemma ReplayNext<S, O, R>(obj: Object<S, O, R>, s: S, log: seq<Done<O, R>>, i: nat)
    requires Faithful(obj, s, log) && i < |log|
    ensures obj.apply(log[i].op, Replay(obj, s, log[..i])) == (Replay(obj, s, log[..i + 1]), log[i].result)
  {
    assert log[..i + 1] == log[..i] + [log[i]];
    ReplaySnoc(obj, s, log[..i], log[i]);
  }
}
