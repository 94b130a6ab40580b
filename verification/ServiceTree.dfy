/** A binary tree of queues in service order, as an rbtree keeps it: inserting goes down by comparisons, and rebalancing may
  * give it any shape that keeps the order. */
module ServiceTree {
  datatype Tree = Leaf | Branch(left: Tree, q: nat, right: Tree)

  function Inorder(t: Tree): seq<nat> {
    if t.Leaf? then [] else Inorder(t.left) + [t.q] + Inorder(t.right)
  }

  /** rb_first. */
  function First(t: Tree): nat
    requires t.Branch?
  {
    if t.left.Leaf? then t.q else First(t.left)
  }

  lemma {:induction false} FirstIsFirst(t: Tree)
    requires t.Branch?
    ensures Inorder(t) != [] && First(t) == Inorder(t)[0]
  {
    if t.left.Branch? {
      FirstIsFirst(t.left);
    }
  }

  /** The descent of cfq_service_tree_add: left where goes says so. */
  function Insert(t: Tree, q: nat, goes: nat -> bool): Tree {
    if t.Leaf? then Branch(Leaf, q, Leaf)
    else if goes(t.q) then Branch(Insert(t.left, q, goes), t.q, t.right)
    else Branch(t.left, t.q, Insert(t.right, q, goes))
  }

  /** The descent went left at every step. */
  predicate AllLeft(t: Tree, goes: nat -> bool) {
    t.Leaf? || (goes(t.q) && AllLeft(t.left, goes))
  }

  /** How many queues come before a new one. */
  function Before(t: Tree, goes: nat -> bool): (i: nat)
    ensures i <= |Inorder(t)|
  {
    if t.Leaf? then 0
    else if goes(t.q) then Before(t.left, goes)
    else |Inorder(t.left)| + 1 + Before(t.right, goes)
  }

  lemma {:induction false} InsertInorder(t: Tree, q: nat, goes: nat -> bool)
    ensures var i := Before(t, goes); Inorder(Insert(t, q, goes)) == Inorder(t)[..i] + [q] + Inorder(t)[i..]
    ensures AllLeft(t, goes) <==> Before(t, goes) == 0
  {
    if t.Branch? {
      var i := Before(t, goes);
      var l, r := Inorder(t.left), Inorder(t.right);
      if goes(t.q) {
        InsertInorder(t.left, q, goes);
        assert l[..i] + [q] + l[i..] + [t.q] + r == (l + [t.q] + r)[..i] + [q] + (l + [t.q] + r)[i..];
      } else {
        InsertInorder(t.right, q, goes);
        var j := Before(t.right, goes);
        assert l + [t.q] + (r[..j] + [q] + r[j..]) == (l + [t.q] + r)[..i] + [q] + (l + [t.q] + r)[i..];
      }
    }
  }
}
