/** A Python list object. Panels and notebooks hold it by reference, so an
    update made through one holder is seen by every other holder. */
module PyList {
  class ListRef<T> {
    var items: seq<T>

    constructor (items: seq<T>)
      ensures this.items == items
    {
      this.items := items;
    }

    /** `list.append(x)` */
    method Append(x: T)
      modifies this
      ensures items == old(items) + [x]
    {
      items := items + [x];
    }

    /** `list.pop(i)` for an index inside the list (otherwise Python raises). */
    method Pop(i: nat) returns (x: T)
      requires i < |items|
      modifies this
      ensures x == old(items)[i]
      ensures items == old(items)[..i] + old(items)[i + 1..]
    {
      x := items[i];
      items := items[..i] + items[i + 1..];
    }

    /** `list[i] = x` for an index inside the list (otherwise Python raises). */
    method SetItem(i: nat, x: T)
      requires i < |items|
      modifies this
      ensures items == old(items)[i := x]
    {
      items := items[i := x];
    }
  }
}
