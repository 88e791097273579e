/** The waitlist as a value: what each of its operations does to the map from slots to optional items. */
module SlotMap {
  import opened Base

  type Items<T> = map<Slot, Option<T>>

  /** A key that is not in use yet. */
  method FreshKey(keys: set<Slot>) returns (k: Slot)
    ensures k !in keys
  {
    k := 0;
    var rest := keys;
    while rest != {}
      invariant rest <= keys
      invariant forall x :: x in keys && x !in rest ==> x < k
      decreases rest
    {
      var x :| x in rest;
      if k <= x { k := x + 1; }
      rest := rest - {x};
    }
  }

  function Register<T>(m: Items<T>, k: Slot): Items<T> {
    m[k := None]
  }

  function Deregister<T>(m: Items<T>, k: Slot): (Items<T>, Option<T>)
    requires k in m
  {
    (m - {k}, m[k])
  }

  function Swap<T>(m: Items<T>, k: Slot, x: T): (Items<T>, Option<T>)
    requires k in m
  {
    (m[k := Some(x)], m[k])
  }

  function Take<T>(m: Items<T>, k: Slot): (Items<T>, Option<T>)
    requires k in m
  {
    (m[k := None], m[k])
  }
}
