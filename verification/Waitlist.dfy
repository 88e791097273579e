/** The waitlist, run by one thread: a map from slots to exchange cells. */
module Waitlist {
  import opened Base
  import opened Atomic
  import SlotMap

  ghost function SomeSlot(ks: set<Slot>): (k: Slot)
    requires ks != {}
    ensures k in ks
  {
    var k :| k in ks; k
  }

  function One<T>(item: Option<T>): multiset<T> {
    if item.Some? then multiset{item.value} else multiset{}
  }

  /** The items stored in the slots `ks`, each as often as it is stored. */
  ghost function StoredIn<T>(m: SlotMap.Items<T>, ks: set<Slot>): multiset<T>
    requires ks <= m.Keys
    decreases ks
  {
    if ks == {} then multiset{} else StoredIn(m, ks - {SomeSlot(ks)}) + One(m[SomeSlot(ks)])
  }

  /** The slots among `ks` that hold `x`. */
  ghost function Holding<T(!new)>(m: SlotMap.Items<T>, ks: set<Slot>, x: T): set<Slot> {
    set k | k in ks && k in m && m[k] == Some(x)
  }

  /** An item is stored as often as there are slots that hold it. */
  lemma {:induction false} StoredCounts<T(!new)>(m: SlotMap.Items<T>, ks: set<Slot>, x: T)
    requires ks <= m.Keys
    ensures StoredIn(m, ks)[x] == |Holding(m, ks, x)|
    decreases ks
  {
    if ks != {} {
      var k := SomeSlot(ks);
      StoredCounts(m, ks - {k}, x);
      if m[k] == Some(x) {
        assert Holding(m, ks, x) == Holding(m, ks - {k}, x) + {k};
      } else {
        assert Holding(m, ks, x) == Holding(m, ks - {k}, x);
      }
    } else {
      assert Holding(m, ks, x) == {};
    }
  }

  ghost function Stored<T>(m: SlotMap.Items<T>): multiset<T> {
    StoredIn(m, m.Keys)
  }

  /** It does not matter in which order the slots are added up. */
  lemma {:induction false} StoredAt<T>(m: SlotMap.Items<T>, ks: set<Slot>, k: Slot)
    requires ks <= m.Keys && k in ks
    ensures StoredIn(m, ks) == StoredIn(m, ks - {k}) + One(m[k])
    decreases ks
  {
    var j := SomeSlot(ks);
    if j != k {
      StoredAt(m, ks - {j}, k);
      StoredAt(m, ks - {k}, j);
      assert (ks - {j}) - {k} == (ks - {k}) - {j};
    }
  }

  /** Only the slots in question matter. */
  lemma {:induction false} StoredElsewhere<T>(m: SlotMap.Items<T>, m': SlotMap.Items<T>, ks: set<Slot>)
    requires ks <= m.Keys && ks <= m'.Keys
    requires forall k :: k in ks ==> m[k] == m'[k]
    ensures StoredIn(m, ks) == StoredIn(m', ks)
    decreases ks
  {
    if ks != {} {
      StoredElsewhere(m, m', ks - {SomeSlot(ks)});
    }
  }

  lemma StoredAfterTake<T>(m: SlotMap.Items<T>, k: Slot)
    requires k in m
    ensures Stored(m) == Stored(SlotMap.Take(m, k).0) + One(m[k])
  {
    var m' := SlotMap.Take(m, k).0;
    assert m'.Keys == m.Keys;
    StoredAt(m, m.Keys, k);
    StoredAt(m', m.Keys, k);
    StoredElsewhere(m, m', m.Keys - {k});
  }

  lemma {:induction false} NothingStored<T>(m: SlotMap.Items<T>, ks: set<Slot>)
    requires ks <= m.Keys && forall k :: k in ks ==> m[k] == None
    ensures StoredIn(m, ks) == multiset{}
    decreases ks
  {
    if ks != {} {
      NothingStored(m, ks - {SomeSlot(ks)});
    }
  }

  class Waitlist<T(!new)> {
    var items: map<Slot, AtomicOption<T>>

    /** No two slots share a cell. */
    ghost predicate Valid()
      reads this
    {
      forall j, k :: j in items && k in items && items[j] == items[k] ==> j == k
    }

    /** The waitlist as a value. */
    ghost function Items(): SlotMap.Items<T>
      reads this, items.Values
    {
      map k | k in items :: items[k].value
    }

    constructor ()
      ensures Valid() && Items() == map[]
    {
      items := map[];
    }

    /** Adds an empty slot under a key that is not in use. */
    method Register() returns (k: Slot)
      requires Valid()
      modifies this
      ensures Valid() && k !in old(items) && Items() == SlotMap.Register(old(Items()), k)
      ensures items.Keys == old(items.Keys) + {k} && fresh(items.Values - old(items.Values))
    {
      k := SlotMap.FreshKey(items.Keys);
      var cell := new AtomicOption<T>();
      items := items[k := cell];
    }

    /** The slot must be registered: the source unwraps the result of the removal. */
    method Deregister(k: Slot) returns (r: Option<T>)
      requires Valid() && k in items
      modifies this
      ensures Valid() && (Items(), r) == SlotMap.Deregister(old(Items()), k)
    {
      r := items[k].IntoInner();
      items := items - {k};
      assert Items() == old(Items()) - {k};
    }

    method Insert(k: Slot, item: T) returns (r: Option<T>)
      requires Valid() && k in items
      modifies items[k]
      ensures Valid() && (Items(), r) == SlotMap.Swap(old(Items()), k, item)
    {
      r := items[k].Swap(item);
      assert Items() == old(Items())[k := Some(item)];
    }

    method Remove(k: Slot) returns (r: Option<T>)
      requires Valid() && k in items
      modifies items[k]
      ensures Valid() && (Items(), r) == SlotMap.Take(old(Items()), k)
    {
      r := items[k].Take();
      assert Items() == old(Items())[k := None];
    }

    /** Visits the slots in any order and takes the first item it finds; `None` means that every slot was empty. */
    method Pop() returns (r: Option<T>, ghost at: Slot)
      requires Valid()
      modifies items.Values
      ensures Valid()
      ensures r.Some? ==> at in old(Items()) && (Items(), r) == SlotMap.Take(old(Items()), at)
      ensures r.None? ==> Items() == old(Items()) && forall k :: k in Items() ==> Items()[k] == None
    {
      var left := items.Keys;
      at := 0;
      while left != {}
        invariant left <= items.Keys
        invariant Items() == old(Items())
        invariant forall k :: k in items && k !in left ==> items[k].value == None
        decreases left
      {
        var k :| k in left;
        r := items[k].Take();
        if r.Some? {
          at := k;
          assert Items() == old(Items())[k := None];
          return;
        }
        left := left - {k};
      }
      r := None;
    }

    /** Popping until nothing is found: terminates, returns each item as often as there were slots that held it,
        empties every slot and keeps the registered slots. */
    method PopAll() returns (taken: seq<T>)
      requires Valid()
      modifies items.Values
      ensures Valid()
      ensures multiset(taken) == old(Stored(Items()))
      ensures forall x :: multiset(taken)[x] == |Holding(old(Items()), old(Items()).Keys, x)|
      ensures Items().Keys == old(Items().Keys)
      ensures forall k :: k in Items() ==> Items()[k] == None
    {
      taken := [];
      var done := false;
      while !done
        invariant Valid() && items == old(items)
        invariant multiset(taken) + Stored(Items()) == old(Stored(Items()))
        invariant done ==> forall k :: k in Items() ==> Items()[k] == None
        decreases |Stored(Items())|, !done
      {
        ghost var before := Items();
        var r, at := Pop();
        if r.Some? {
          StoredAfterTake(before, at);
          taken := taken + [r.value];
        } else {
          NothingStored(before, before.Keys);
          done := true;
        }
      }
      NothingStored(Items(), Items().Keys);
      forall x ensures multiset(taken)[x] == |Holding(old(Items()), old(Items()).Keys, x)| {
        StoredCounts(old(Items()), old(Items()).Keys, x);
      }
    }
  }
}
