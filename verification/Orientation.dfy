/** A tree of servers can be hung from any of them: the same links, another root. */
module Orientation {
  import opened SearchTree

  predicate Adjacent(t: Tree, x: nat, y: nat) {
    Kid(t, x, y) || Kid(t, y, x)
  }

  predicate SameLinks(t: Tree, t': Tree) {
    && Size(t) == Size(t')
    && forall x, y :: 0 <= x < Size(t) && 0 <= y < Size(t) ==> (Adjacent(t, x, y) <==> Adjacent(t', x, y))
  }

  // Turn the link between the root and its child o around.
  function Flip(t: Tree, o: nat): Tree
    requires IsTree(t) && Kid(t, t.root, o)
  {
    Tree(o, t.parent[t.root := o],
         seq(Size(t), y requires 0 <= y < Size(t) => Flipped(t, o, y)))
  }

  function Flipped(t: Tree, o: nat, y: nat): nat
    requires IsTree(t) && y < Size(t)
  {
    if !Below(t, o, y) then t.depth[y] + 1 else if t.depth[y] == 0 then 0 else t.depth[y] - 1
  }

  lemma FlipIsTree(t: Tree, o: nat)
    requires IsTree(t) && Kid(t, t.root, o)
    ensures IsTree(Flip(t, o)) && Flip(t, o).root == o && SameLinks(t, Flip(t, o))
  {
    var f := Flip(t, o);
    forall y | 0 <= y < Size(t) && y != o
      ensures f.parent[y] < Size(t) && f.depth[y] == f.depth[f.parent[y]] + 1
    {
      if y != t.root && Below(t, o, y) {
        BelowDeeper(t, o, t.parent[y]);
      }
    }
  }

  // The tree hung from o.
  function Reroot(t: Tree, o: nat): (r: Tree)
    requires IsTree(t) && o < Size(t)
    ensures IsTree(r) && r.root == o && SameLinks(t, r)
    decreases t.depth[o]
  {
    if o == t.root then t
    else
      var up := Reroot(t, t.parent[o]);
      assert Adjacent(up, t.parent[o], o) by { assert Adjacent(t, t.parent[o], o); }
      FlipIsTree(up, o);
      Flip(up, o)
  }
}
