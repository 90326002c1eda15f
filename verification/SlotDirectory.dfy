/**
 The thread-local slot directory: a one-entry cache in front of a list in front of the
 registries, for many threads and many containers that come and go. Counters live at
 addresses; a dropped container frees its counters, and the allocator may hand their
 addresses out again, so that entries of dropped containers dangle or point into others.
 */
module SlotDirectory {
  import opened Sequential

  type Tid = nat
  type Id = nat      // CONTAINER_ID; taken to be unbounded
  type Addr = nat

  /** The address in the first entry for `id`, if there is one. */
  function FirstFor(all: seq<(Id, Addr)>, id: Id): (c: Option<Addr>)
    ensures c.Some? ==> (id, c.value) in all
    ensures c.None? <==> forall i :: 0 <= i < |all| ==> all[i].0 != id
  {
    if all == [] then None
    else if all[0].0 == id then Some(all[0].1)
    else
      var c := FirstFor(all[1..], id);
      assert all == [all[0]] + all[1..];
      c
  }

  /** The thread-local ReaderSlots of one thread. */
  class ReaderSlots {
    var last: (Id, Option<Addr>)     // no address: the null pointer
    var all: seq<(Id, Addr)>

    constructor (noId: Id)
      ensures last == (noId, None) && all == []
    {
      last, all := (noId, None), [];
    }

    /** `all.iter().find(|(k, _)| *k == id)`: the first entry for `id`. */
    method Find(id: Id) returns (c: Option<Addr>)
      ensures c == FirstFor(all, id)
      ensures c.Some? ==>
                exists i :: 0 <= i < |all| && all[i] == (id, c.value) && forall j :: 0 <= j < i ==> all[j].0 != id
    {
      var i := 0;
      while i < |all|
        invariant 0 <= i <= |all|
        invariant forall j :: 0 <= j < i ==> all[j].0 != id
        invariant FirstFor(all, id) == FirstFor(all[i..], id)
      {
        if all[i].0 == id {
          return Some(all[i].1);
        }
        i := i + 1;
      }
      return None;
    }
  }

  /** The simple function the directory stands for: the counter of a thread for a live container. */
  type Table = map<(Tid, Id), Addr>

  /** Ids given out so far, the registries of the containers that live, the counters allocated. */
  datatype Store = Store(nextId: Id, registry: map<Id, seq<Addr>>, memory: map<Addr, int>)

  /** Thread `t`'s cache and list: right about live containers, whatever they say about others. */
  ghost predicate Truthful(st: Store, table: Table, t: Tid, last: (Id, Option<Addr>), all: seq<(Id, Addr)>) {
    && (forall i :: 0 <= i < |all| ==> Entry(st, table, t, all[i]))
    && (last.1.Some? ==> (last.0, last.1.value) in all)
    && (forall id :: (t, id) in table ==> (id, table[(t, id)]) in all)
  }

  ghost predicate Entry(st: Store, table: Table, t: Tid, e: (Id, Addr)) {
    e.0 < st.nextId && (e.0 in st.registry ==> (t, e.0) in table && table[(t, e.0)] == e.1)
  }

  /** Live counters belong to one container each, and the table is one-to-one into the registries. */
  ghost predicate Sound(st: Store, table: Table) {
    && (forall id :: id in st.registry ==> id < st.nextId)
    && (forall id, p :: id in st.registry && p in st.registry[id] ==> p in st.memory)
    && (forall i, j, p :: i in st.registry && j in st.registry && p in st.registry[i] && p in st.registry[j] ==> i == j)
    && (forall t, id :: (t, id) in table ==> id in st.registry && table[(t, id)] in st.registry[id])
    && (forall k, l :: k in table && l in table && table[k] == table[l] ==> k == l)
  }

  function Created(st: Store): Store {
    st.(nextId := st.nextId + 1, registry := st.registry[st.nextId := []])
  }

  function Dropped(st: Store, id: Id): Store
    requires id in st.registry
  {
    st.(registry := st.registry - {id}, memory := st.memory - set p | p in st.registry[id])
  }

  function Without(table: Table, id: Id): Table {
    map k | k in table && k.1 != id :: table[k]
  }

  function Registered(st: Store, id: Id, at: Addr): Store
    requires id in st.registry
  {
    st.(registry := st.registry[id := st.registry[id] + [at]], memory := st.memory[at := 0])
  }

  /**
   A counter is pushed to the registry of `id`: it starts at zero, it is the last of that registry, and
   nothing else changes.
   */
  ghost predicate Pushed(st: Store, st': Store, id: Id, p: Addr) {
    && p !in st.memory && st'.memory.Keys == st.memory.Keys + {p} && st'.memory[p] == 0
    && (forall q :: q in st.memory ==> st'.memory[q] == st.memory[q])
    && id in st.registry && st'.registry.Keys == st.registry.Keys
    && (forall j :: j in st.registry ==> st'.registry[j] == if j == id then st.registry[j] + [p] else st.registry[j])
    && st'.nextId == st.nextId
  }

  lemma RegisteredPushes(st: Store, id: Id, p: Addr)
    requires id in st.registry && p !in st.memory
    ensures Pushed(st, Registered(st, id, p), id, p)
  {
  }

  /** What cache and list have for `id`. */
  function Cached(last: (Id, Option<Addr>), all: seq<(Id, Addr)>, id: Id): Option<Addr> {
    if last.0 == id && last.1.Some? then last.1 else FirstFor(all, id)
  }

  /** What reader_count_for answers with such a cache and list, and the store it leaves behind. */
  function Answer(st: Store, last: (Id, Option<Addr>), all: seq<(Id, Addr)>, id: Id, at: Addr): (Addr, Store)
    requires id in st.registry
  {
    match Cached(last, all, id)
    case Some(p) => (p, st)
    case None => (at, Registered(st, id, at))
  }

  lemma CreatedSound(st: Store, table: Table)
    requires Sound(st, table)
    ensures Sound(Created(st), table)
  {
  }

  /** A new id cannot match an entry made before, so no list has to be told of the new container. */
  lemma CreatedTruthful(st: Store, table: Table, t: Tid, last: (Id, Option<Addr>), all: seq<(Id, Addr)>)
    requires Truthful(st, table, t, last, all)
    ensures Truthful(Created(st), table, t, last, all)
  {
    forall i | 0 <= i < |all| ensures Entry(Created(st), table, t, all[i]) {
      assert Entry(st, table, t, all[i]);
    }
  }

  /**
   Exactly when an id used before may be given to a new container, as far as thread `t` is
   concerned: the first call for it returns a counter of that container if and only if the
   thread's list has no entry for the id, not even a stale one.
   */
  lemma NewIdIff(st: Store, table: Table, t: Tid, last: (Id, Option<Addr>), all: seq<(Id, Addr)>, id: Id, at: Addr)
    requires Truthful(st, table, t, last, all) && id !in st.registry
    ensures var (p, after) := Answer(st.(registry := st.registry[id := []]), last, all, id, at);
            p in after.registry[id] <==> forall i :: 0 <= i < |all| ==> all[i].0 != id
  {
    var st' := st.(registry := st.registry[id := []]);
    if last.1.Some? && last.0 == id {
      var i :| 0 <= i < |all| && all[i] == (last.0, last.1.value);
      assert all[i].0 == id;
    }
  }

  lemma DroppedSound(st: Store, table: Table, id: Id)
    requires Sound(st, table) && id in st.registry
    ensures Sound(Dropped(st, id), Without(table, id))
  {
    var st', table' := Dropped(st, id), Without(table, id);
    forall j, p | j in st'.registry && p in st'.registry[j] ensures p in st'.memory {
      assert p !in st.registry[id];
    }
  }

  /** Entries for a dropped container stay, and nobody can ask for it again. */
  lemma DroppedTruthful(st: Store, table: Table, id: Id, t: Tid, last: (Id, Option<Addr>), all: seq<(Id, Addr)>)
    requires Truthful(st, table, t, last, all) && id in st.registry
    ensures Truthful(Dropped(st, id), Without(table, id), t, last, all)
  {
    forall i | 0 <= i < |all| ensures Entry(Dropped(st, id), Without(table, id), t, all[i]) {
      assert Entry(st, table, t, all[i]);
    }
  }

  lemma RegisteredSound(st: Store, table: Table, t: Tid, id: Id, at: Addr)
    requires Sound(st, table) && id in st.registry && at !in st.memory && (t, id) !in table
    ensures Sound(Registered(st, id, at), table[(t, id) := at])
  {
    forall k | k in table ensures table[k] in st.memory {
      assert (k.0, k.1) in table;
    }
  }

  lemma RegisteredTruthful(st: Store, table: Table, t: Tid, id: Id, at: Addr, u: Tid, last: (Id, Option<Addr>),
                           all: seq<(Id, Addr)>)
    requires Truthful(st, table, u, last, all) && id in st.registry && id < st.nextId && (t, id) !in table
    ensures u != t ==> Truthful(Registered(st, id, at), table[(t, id) := at], u, last, all)
    ensures u == t ==> Truthful(Registered(st, id, at), table[(t, id) := at], u, (id, Some(at)), all + [(id, at)])
  {
    var st', table', all' := Registered(st, id, at), table[(t, id) := at], all + [(id, at)];
    forall i | 0 <= i < |all| ensures Entry(st', table', u, all[i]) {
      assert Entry(st, table, u, all[i]);
    }
    if u == t {
      assert all'[|all|] == (id, at) && Entry(st', table', t, (id, at));
      forall j | (t, j) in table' ensures (j, table'[(t, j)]) in all' {
        assert j != id ==> (j, table[(t, j)]) in all;
      }
    }
  }

  /** What cache and list say about a live container is what the table says. */
  lemma InList(st: Store, table: Table, t: Tid, last: (Id, Option<Addr>), all: seq<(Id, Addr)>, id: Id, p: Addr)
    requires Truthful(st, table, t, last, all) && Sound(st, table) && id in st.registry && (id, p) in all
    ensures (t, id) in table && table[(t, id)] == p && p in st.registry[id] && p in st.memory
  {
    var i :| 0 <= i < |all| && all[i] == (id, p);
    assert Entry(st, table, t, all[i]);
  }

  /** What other threads may do. */
  datatype Other = Creates | Drops(id: Id) | Registers(t: Tid, id: Id, at: Addr)

  /** One thing that others do while `t` is about to register for `id`, if it is possible. */
  function Then(st: Store, table: Table, threads: set<Tid>, t: Tid, id: Id, other: Other): (Store, Table) {
    match other
    case Creates => (Created(st), table)
    case Drops(d) => if d != id && d in st.registry then (Dropped(st, d), Without(table, d)) else (st, table)
    case Registers(u, d, at) =>
      if u in threads && u != t && d in st.registry && at !in st.memory && (u, d) !in table
      then (Registered(st, d, at), table[(u, d) := at]) else (st, table)
  }

  function AfterOthers(st: Store, table: Table, threads: set<Tid>, t: Tid, id: Id, others: seq<Other>): (Store, Table) {
    if others == [] then (st, table)
    else
      var (m, tb) := AfterOthers(st, table, threads, t, id, others[..|others| - 1]);
      Then(m, tb, threads, t, id, others[|others| - 1])
  }

  /** The registry of `id` has at most grown, its counters have their values, and any other is as it was or new. */
  ghost predicate Undisturbed(st: Store, st': Store, id: Id) {
    && id in st.registry && id in st'.registry && st.registry[id] <= st'.registry[id]
    && (forall q :: q in st.registry[id] && q in st.memory ==> q in st'.memory && st'.memory[q] == st.memory[q])
    && (forall q :: q in st'.memory ==> st'.memory[q] == 0 || (q in st.memory && st'.memory[q] == st.memory[q]))
  }

  lemma ThenUndisturbed(st: Store, m: Store, tb: Table, threads: set<Tid>, t: Tid, id: Id, other: Other)
    requires Undisturbed(st, m, id) && Sound(m, tb)
    requires forall q :: q in st.registry[id] ==> q in m.registry[id]
    ensures Undisturbed(st, Then(m, tb, threads, t, id, other).0, id)
    ensures Sound(Then(m, tb, threads, t, id, other).0, Then(m, tb, threads, t, id, other).1)
  {
    match other
    case Creates => CreatedSound(m, tb);
    case Drops(d) =>
      if d != id && d in m.registry {
        DroppedSound(m, tb, d);
        forall q | q in st.registry[id] ensures q !in m.registry[d] {
          assert q in m.registry[id];
        }
      }
    case Registers(u, d, at) =>
      if u in threads && u != t && d in m.registry && at !in m.memory && (u, d) !in tb {
        RegisteredSound(m, tb, u, d, at);
      }
  }

  /** Whatever others do, the container asked for keeps its counters and their values, and new ones start at zero. */
  lemma {:induction false} OthersUndisturbed(st: Store, table: Table, threads: set<Tid>, t: Tid, id: Id,
                                             others: seq<Other>)
    requires Sound(st, table) && id in st.registry
    ensures var (m, tb) := AfterOthers(st, table, threads, t, id, others); Sound(m, tb) && Undisturbed(st, m, id)
  {
    if others == [] {
    } else {
      var last := |others| - 1;
      OthersUndisturbed(st, table, threads, t, id, others[..last]);
      var (m, tb) := AfterOthers(st, table, threads, t, id, others[..last]);
      ThenUndisturbed(st, m, tb, threads, t, id, others[last]);
    }
  }

  /** The threads and containers of a program. */
  class Process {
    var store: Store
    var slots: map<Tid, ReaderSlots>       // of the threads that live
    ghost var table: Table

    ghost predicate Valid()
      reads this, slots.Values
    {
      && (forall t, u :: t in slots && u in slots && slots[t] == slots[u] ==> t == u)
      && (forall t :: t in slots ==> Truthful(store, table, t, slots[t].last, slots[t].all))
      && Sound(store, table)
      && (forall t, id :: (t, id) in table ==> t in slots)
    }

    constructor ()
      ensures Valid() && slots == map[] && store == Store(0, map[], map[]) && table == map[]
    {
      store, slots, table := Store(0, map[], map[]), map[], map[];
    }

    /** A thread starts with empty slots. */
    method Spawn(t: Tid, noId: Id)
      requires Valid() && t !in slots
      modifies this
      ensures Valid() && slots.Keys == old(slots.Keys) + {t} && fresh(slots[t])
      ensures slots[t].last == (noId, None) && slots[t].all == []
      ensures forall u :: u in old(slots) ==> slots[u] == old(slots)[u]
      ensures table == old(table) && store == old(store)
    {
      var mine := new ReaderSlots(noId);
      slots := slots[t := mine];
    }

    /** A container is created under an id never used before. */
    method Create() returns (id: Id)
      requires Valid()
      modifies this
      ensures Valid() && id !in old(store.registry) && id == old(store.nextId) && store == Created(old(store))
      ensures store.registry.Keys == old(store.registry.Keys) + {id} && store.registry[id] == []
      ensures forall j :: j in old(store.registry) ==> store.registry[j] == old(store.registry)[j]
      ensures store.memory == old(store.memory) && id < store.nextId
      ensures table == old(table) && slots == old(slots)
    {
      id := store.nextId;
      CreatedSound(store, table);
      forall t | t in slots {
        CreatedTruthful(store, table, t, slots[t].last, slots[t].all);
      }
      store := Created(store);
    }

    /** A container is dropped and its counters are freed. No thread's slots are told. */
    method DropContainer(id: Id)
      requires Valid() && id in store.registry
      modifies this
      ensures Valid() && slots == old(slots)
      ensures store == Dropped(old(store), id) && table == Without(old(table), id)
      ensures id !in store.registry && store.nextId == old(store.nextId)
      ensures forall j :: j != id ==> (j in store.registry <==> j in old(store.registry))
      ensures forall j :: j in store.registry ==> store.registry[j] == old(store.registry)[j]
      ensures forall q :: q in store.memory <==> q in old(store.memory) && q !in old(store.registry)[id]
      ensures forall q :: q in store.memory ==> store.memory[q] == old(store.memory)[q]
      ensures forall k :: k in table <==> k in old(table) && k.1 != id
      ensures forall k :: k in table ==> table[k] == old(table)[k]
    {
      DroppedSound(store, table, id);
      forall t | t in slots {
        DroppedTruthful(store, table, id, t, slots[t].last, slots[t].all);
      }
      store := Dropped(store, id);
      table := Without(table, id);
    }

    /** The search: the cache, then the list. What is found in the list goes into the cache. */
    method Search(t: Tid, id: Id) returns (c: Option<Addr>)
      requires Valid() && t in slots && id in store.registry
      modifies slots[t]
      ensures Valid() && slots[t].all == old(slots[t].all) && c == Cached(old(slots[t].last), slots[t].all, id)
      ensures c.Some? <==> (t, id) in table
      ensures c.Some? ==> c.value == table[(t, id)] && c.value in store.registry[id] && c.value in store.memory
      ensures slots[t].last == if c.Some? then (id, c) else old(slots[t].last)
    {
      var mine := slots[t];
      if mine.last.0 == id && mine.last.1.Some? {
        InList(store, table, t, mine.last, mine.all, id, mine.last.1.value);
        return mine.last.1;
      }
      c := mine.Find(id);
      if c.Some? {
        InList(store, table, t, mine.last, mine.all, id, c.value);
        mine.last := (id, c);
      }
    }

    /** The registration, under the registry mutex of the container. */
    method Register(t: Tid, id: Id, at: Addr)
      requires Valid() && t in slots && id in store.registry && at !in store.memory && (t, id) !in table
      modifies this, slots[t]
      ensures Valid() && slots == old(slots)
      ensures table == old(table)[(t, id) := at] && store == Registered(old(store), id, at)
      ensures Pushed(old(store), store, id, at)
      ensures slots[t].last == (id, Some(at)) && slots[t].all == old(slots[t].all) + [(id, at)]
    {
      var mine := slots[t];
      RegisteredPushes(store, id, at);
      RegisteredSound(store, table, t, id, at);
      forall u | u in slots {
        RegisteredTruthful(store, table, t, id, at, u, slots[u].last, slots[u].all);
      }
      store := Registered(store, id, at);
      table := table[(t, id) := at];
      mine.all := mine.all + [(id, at)];
      mine.last := (id, Some(at));
    }

    /**
     reader_count_for. `at` is where the allocator would put a new counter: any address not in use,
     be it one that a stale entry of this or another thread still holds. The counter returned is
     in the registry of the container asked for, and no other thread or container has it.
     */
    method ReaderCountFor(t: Tid, id: Id, at: Addr) returns (p: Addr)
      requires Valid() && t in slots && id in store.registry && at !in store.memory
      modifies this, slots[t]
      ensures Valid() && slots == old(slots)
      ensures (p, store) == Answer(old(store), old(slots[t].last), old(slots[t].all), id, at)
      ensures (t, id) in table && p == table[(t, id)]
      ensures p in store.registry[id] && p in store.memory
      ensures forall k :: k in table && table[k] == p ==> k == (t, id)
      ensures (t, id) in old(table) ==> table == old(table) && store == old(store)
      ensures (t, id) !in old(table) ==>
                p == at && table == old(table)[(t, id) := at] && store == Registered(old(store), id, at)
      ensures (t, id) !in old(table) ==> Pushed(old(store), store, id, p)
      ensures slots[t].last == (id, Some(p))
      ensures slots[t].all == old(slots[t].all) + if (t, id) in old(table) then [] else [(id, p)]
    {
      var c := Search(t, id);
      if c.Some? {
        return c.value;
      }
      Register(t, id, at);
      return at;
    }

    /** What goes on between a failed search of thread `t` and its registration, if it is possible. */
    method Others(t: Tid, id: Id, others: seq<Other>)
      requires Valid() && t in slots && id in store.registry && (t, id) !in table
      modifies this, slots.Values
      ensures Valid() && slots == old(slots) && id in store.registry && (t, id) !in table
      ensures slots[t].last == old(slots[t].last) && slots[t].all == old(slots[t].all)
      ensures (store, table) == AfterOthers(old(store), old(table), slots.Keys, t, id, others)
    {
      for i := 0 to |others|
        invariant Valid() && slots == old(slots) && id in store.registry && (t, id) !in table
        invariant slots[t].last == old(slots[t].last) && slots[t].all == old(slots[t].all)
        invariant (store, table) == AfterOthers(old(store), old(table), slots.Keys, t, id, others[..i])
      {
        assert others[..i + 1][..i] == others[..i];
        match others[i]
        case Creates =>
          var d := Create();
        case Drops(d) =>
          if d != id && d in store.registry {
            DropContainer(d);
          }
        case Registers(u, d, at) =>
          if u in slots && u != t && d in store.registry && at !in store.memory {
            var p := ReaderCountFor(u, d, at);
          }
      }
      assert others[..|others|] == others;
    }

    /** The same call with others going on in between; the allocator chooses the address at the push. */
    method ReaderCountAmong(t: Tid, id: Id, others: seq<Other>, alloc: Store -> Addr) returns (p: Addr)
      requires Valid() && t in slots && id in store.registry
      requires forall st :: alloc(st) !in st.memory
      modifies this, slots.Values
      ensures Valid() && slots == old(slots) && id in store.registry
      ensures (t, id) in table && p == table[(t, id)] && p in store.registry[id] && p in store.memory
      ensures forall k :: k in table && table[k] == p ==> k == (t, id)
      ensures (t, id) in old(table) ==> store == old(store) && table == old(table)
      ensures (t, id) !in old(table) ==>
                var (m, tb) := AfterOthers(old(store), old(table), slots.Keys, t, id, others);
                && Undisturbed(old(store), m, id) && Pushed(m, store, id, p)
                && p == alloc(m) && table == tb[(t, id) := p]
      ensures slots[t].last == (id, Some(p))
      ensures slots[t].all == old(slots[t].all) + if (t, id) in old(table) then [] else [(id, p)]
    {
      var c := Search(t, id);
      if c.Some? {
        return c.value;
      }
      OthersUndisturbed(store, table, slots.Keys, t, id, others);
      Others(t, id, others);
      p := alloc(store);
      Register(t, id, p);
    }
  }
}
