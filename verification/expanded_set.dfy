/**
 * The set of expanded chapter ids kept by both chapter sidebars. A click
 * copies the set and adds or deletes one id (`new Set(prev)`, `.add`,
 * `.delete`); as a value that is one toggle.
 */
module ExpandedSet {

  /** The set after clicking `x`: `x` flips its membership, every other element keeps it. */
  function Toggled(s: set<string>, x: string): (r: set<string>)
    ensures x in r <==> x !in s
    ensures forall y :: y != x ==> (y in r <==> y in s)
  {
    if x in s then s - {x} else s + {x}
  }

  /** Clicking the same chapter twice restores the set. */
  lemma ToggleTwiceRestores(s: set<string>, x: string)
    ensures Toggled(Toggled(s, x), x) == s
  {
    var once := Toggled(s, x);
    var twice := Toggled(once, x);
    forall y ensures y in twice <==> y in s {
      if y == x {
        assert x in once <==> x !in s;
      }
    }
  }
}
