/** The generic scene-graph element: a node with a name, a backslash-joined
    path, a depth, two transforms, a non-owning parent pointer and an ordered
    list of child pointers. The model follows the code as written, including
    `setParent` ignoring its argument and `removeChild` leaving the removed
    node's parent pointer in place. */
module Nodes {
  import opened Types

  /** The one-character string "\\" that prefixes every path segment. */
  const Separator: string := ['\\']

  /** `a` is `b` with some elements left out and the rest in their order. */
  predicate IsSubsequence<T(==)>(a: seq<T>, b: seq<T>)
    decreases |b|
  {
    if a == [] then true
    else if b == [] then false
    else (a[0] == b[0] && IsSubsequence(a[1..], b[1..])) || IsSubsequence(a, b[1..])
  }

  /** What `std::list::remove(x)` leaves: every copy of `x` is dropped and
      the other elements keep their relative order. */
  function RemoveAll<T(==)>(s: seq<T>, x: T): (r: seq<T>)
    ensures x !in r
    ensures forall i :: 0 <= i < |r| ==> r[i] in s && r[i] != x
    ensures multiset(r) == multiset(s)[x := 0]
    ensures IsSubsequence(r, s)
  {
    if s == [] then []
    else
      assert s == [s[0]] + s[1..];
      if s[0] == x then RemoveAll(s[1..], x)
      else
        var r := [s[0]] + RemoveAll(s[1..], x);
        assert r[1..] == RemoveAll(s[1..], x);
        r
  }

  /** Removing `x` after appending one more copy of it is the same as removing
      it from the original list. */
  lemma {:induction false} RemoveAllAppendSame<T>(s: seq<T>, x: T)
    ensures RemoveAll(s + [x], x) == RemoveAll(s, x)
  {
    if s == [] {
      assert [x][1..] == [];
    } else {
      assert (s + [x])[1..] == s[1..] + [x];
      RemoveAllAppendSame(s[1..], x);
    }
  }

  /** Position of the first node in `kids` whose name is `name`, or `|kids|`
      when there is none: the linear search `std::find_if` performs. */
  function FirstNamed(kids: seq<Node>, name: string): (i: nat)
    ensures i <= |kids|
    ensures forall j :: 0 <= j < i ==> kids[j].name != name
    ensures i < |kids| ==> kids[i].name == name
  {
    if kids == [] then 0
    else if kids[0].name == name then 0
    else 1 + FirstNamed(kids[1..], name)
  }

  /** Appending a node never changes an earlier match, and the appended node
      is found exactly when no earlier node carries the name. */
  lemma {:induction false} FirstNamedAppend(kids: seq<Node>, n: Node, name: string)
    ensures FirstNamed(kids + [n], name) ==
      if FirstNamed(kids, name) < |kids| then FirstNamed(kids, name)
      else if n.name == name then |kids|
      else |kids| + 1
  {
    if kids != [] {
      assert (kids + [n])[1..] == kids[1..] + [n];
      FirstNamedAppend(kids[1..], n, name);
    }
  }

  /** The names of `kids`, in list order. */
  function Names(kids: seq<Node>): (names: seq<string>)
    ensures |names| == |kids|
    ensures forall i :: 0 <= i < |kids| ==> names[i] == kids[i].name
  {
    seq(|kids|, i requires 0 <= i < |kids| => kids[i].name)
  }

  /** The names of a concatenation are the concatenated names. */
  lemma NamesAppend(a: seq<Node>, b: seq<Node>)
    ensures Names(a + b) == Names(a) + Names(b)
  {
  }

  /** A lookup finds position `i` when the name is there and nowhere earlier. */
  lemma FoundAt(kids: seq<Node>, i: nat, name: string)
    requires i < |kids| && kids[i].name == name
    requires forall k :: 0 <= k < i ==> kids[k].name != name
    ensures FirstNamed(kids, name) == i
  {
  }

  /** No two entries of `kids` share a name. */
  predicate UniqueNames(kids: seq<Node>) {
    forall i, j :: 0 <= i < j < |kids| ==> kids[i].name != kids[j].name
  }

  class Node {
    var parent: Node?
    var children: seq<Node>
    const name: string
    var path: string
    var depth: int
    var localTransform: Mat4
    var worldTransform: Mat4
    /** `color_` is never initialised by a constructor. */
    var color: Option<Vec3>

    /** The state both constructors produce: detached, childless, at depth 0,
        path "\" + name, identity transforms and no colour yet. */
    predicate InitialState(n: string)
      reads this
    {
      name == n && path == Separator + n && depth == 0 &&
      parent == null && children == [] &&
      localTransform == Identity && worldTransform == Identity &&
      color == None
    }

    constructor (name: string)
      ensures InitialState(name)
    {
      this.name := name;
      path := Separator + name;
      depth := 0;
      localTransform := Identity;
      worldTransform := Identity;
      parent := null;
      children := [];
      color := None;
    }

    /** `Node()`: the same as `Node("name")`. */
    constructor Default()
      ensures InitialState("name")
    {
      name := "name";
      path := Separator + "name";
      depth := 0;
      localTransform := Identity;
      worldTransform := Identity;
      parent := null;
      children := [];
      color := None;
    }

    function GetParent(): Node? reads this { parent }
    function GetChildrenList(): seq<Node> reads this { children }
    function GetName(): string { name }
    function GetPath(): string reads this { path }
    function GetDepth(): int reads this { depth }
    function GetLocalTransform(): Mat4 reads this { localTransform }
    function GetWorldTransform(): Mat4 reads this { worldTransform }

    /** Reading the colour before it was ever set reads an uninitialised value. */
    function GetColor(): Vec3
      reads this
      requires color.Some?
    {
      color.value
    }

    /** The first direct child in list order that has the name, or null.
        Grandchildren are never searched. */
    function GetChild(name: string): (r: Node?)
      reads this
      ensures r == null <==> forall c :: c in children ==> c.name != name
      ensures r != null ==>
        r.name == name &&
        exists i :: 0 <= i < |children| && children[i] == r &&
          forall k :: 0 <= k < i ==> children[k].name != name
    {
      var i := FirstNamed(children, name);
      if i < |children| then children[i] else null
    }

    method SetLocalTransform(m: Mat4)
      modifies this`localTransform
      ensures GetLocalTransform() == m
    {
      localTransform := m;
    }

    /** Sets only this node's world transform; nothing reaches the children. */
    method SetWorldTransform(m: Mat4)
      modifies this`worldTransform
      ensures GetWorldTransform() == m
    {
      worldTransform := m;
    }

    method SetColor(c: Vec3)
      modifies this`color
      ensures color.Some? && GetColor() == c
    {
      color := Some(c);
    }

    /** Appends `node` (no duplicate check) and rewrites four fields of it:
        its parent, its depth, its path (this path prefixed to its old one)
        and its world transform (seeded with this node's local transform).
        The appended node's own children are left alone. */
    method AddChild(node: Node)
      modifies this`children, node`path, node`depth, node`parent, node`worldTransform
      ensures GetChildrenList() == old(children) + [node]
      ensures node.parent == this
      ensures node.depth == old(depth) + 1
      ensures node.path == old(path) + old(node.path)
      ensures node.worldTransform == old(localTransform)
    {
      children := children + [node];
      node.path := path + node.path;
      node.depth := depth + 1;
      node.parent := this;
      node.worldTransform := localTransform;
    }

    /** As written, the argument is ignored: the node is appended once more
        to its current parent, which must exist. */
    method SetParent(newParent: Node?)
      requires parent != null
      modifies parent`children, this`path, this`depth, this`parent, this`worldTransform
      ensures parent == old(parent)
      ensures parent.children == old(parent.children) + [this]
      ensures depth == old(parent.depth) + 1
      ensures path == old(parent.path) + old(path)
      ensures worldTransform == old(parent.localTransform)
    {
      parent.AddChild(this);
    }

    /** Looks the child up without a null check, resets its path to
        "\" + name, re-adds it through its own parent (`setParent`), then
        drops every copy of it from this node's list and returns it. */
    method RemoveChild(name: string) returns (removed: Node)
      requires GetChild(name) != null && GetChild(name).parent != null
      modifies this`children, GetChild(name)`path, GetChild(name)`depth,
               GetChild(name)`parent, GetChild(name)`worldTransform,
               GetChild(name).parent`children
      ensures removed == old(GetChild(name)) && removed.name == name
      ensures removed !in children
      ensures children == RemoveAll(old(children), removed)
      ensures removed.parent == old(removed.parent)
      ensures removed.depth == old(removed.parent.depth) + 1
      ensures removed.path ==
        (if old(removed.parent) == removed then Separator + name else old(removed.parent.path))
        + Separator + name
      ensures removed.worldTransform == old(removed.parent.localTransform)
      ensures old(removed.parent) != this ==>
        removed.parent.children == old(removed.parent.children) + [removed]
    {
      var unwanted: Node := GetChild(name);
      ghost var before, q := children, unwanted.parent;
      ghost var qPath := if q == unwanted then Separator + name else q.path;
      unwanted.path := Separator + name;
      unwanted.SetParent(null);
      assert unwanted.path == qPath + Separator + name;
      if q == this {
        // setParent appended the node to this very list once more
        RemoveAllAppendSame(before, unwanted);
      }
      children := RemoveAll(children, unwanted);
      removed := unwanted;
    }

    /** The node that `parent->removeChild(name_)` detaches during teardown:
        the first sibling-or-self with this node's name, if there is a parent. */
    function Victim(): Node?
      reads this, parent
    {
      if parent == null then null else parent.GetChild(name)
    }

    /** Teardown does not dereference null: either there is no parent, or
        the parent finds a child under this node's name whose parent is set. */
    predicate CanTearDown()
      reads this, parent, Victim()
    {
      parent != null ==> Victim() != null && Victim().parent != null
    }

    /** The objects the parent's `removeChild` may write during teardown. */
    ghost function DetachFrame(): set<object>
      reads this, parent, Victim()
    {
      if parent == null then {}
      else if Victim() == null then {parent}
      else if Victim().parent == null then {parent, Victim()}
      else {parent, Victim(), Victim().parent}
    }

    /** The second half of the destructor: every child's parent pointer is
        nulled and the list is cleared. The children are not destroyed. */
    method OrphanChildren()
      modifies this`children, children
      ensures children == []
      ensures forall c :: c in old(children) ==> c.parent == null
      ensures forall c :: c in old(children) && c != this ==>
        c.children == old(c.children) && c.path == old(c.path) &&
        c.depth == old(c.depth) && c.localTransform == old(c.localTransform) &&
        c.worldTransform == old(c.worldTransform) && c.color == old(c.color)
    {
      var i := 0;
      while i < |children|
        invariant 0 <= i <= |children| && children == old(children)
        invariant forall j :: 0 <= j < i ==> children[j].parent == null
        invariant forall c :: c in old(children) && c != this ==>
          c.children == old(c.children) && c.path == old(c.path) &&
          c.depth == old(c.depth) && c.localTransform == old(c.localTransform) &&
          c.worldTransform == old(c.worldTransform) && c.color == old(c.color)
      {
        children[i].parent := null;
        i := i + 1;
      }
      children := [];
    }

    /** The destructor's unlinking, without the deallocation: detach from the
        parent through its `removeChild`, null the parent pointer, then orphan
        the children. The parent drops every copy of the node its lookup by
        this name finds first, which is an earlier namesake when there is one:
        this node then stays in the parent's list. */
    method Teardown()
      requires CanTearDown()
      modifies this, children, DetachFrame()
      ensures parent == null && children == []
      ensures old(parent) != this ==> forall c :: c in old(children) ==> c.parent == null
      ensures old(parent) != null && old(parent) != this ==>
        old(parent).children == RemoveAll<Node>(old(parent.children), old(Victim()))
      ensures forall c :: c in old(children) && c != this && c !in old(DetachFrame()) ==>
        c.children == old(c.children) && c.path == old(c.path) && c.depth == old(c.depth) &&
        c.localTransform == old(c.localTransform) && c.worldTransform == old(c.worldTransform) &&
        c.color == old(c.color)
      // the parent loses list entries and nothing else
      ensures (old(parent) != null && old(parent) != this && old(parent) != old(Victim()) &&
               old(parent) !in old(children)) ==>
        old(parent).parent == old(parent.parent) && old(parent).path == old(parent.path) &&
        old(parent).depth == old(parent.depth) &&
        old(parent).localTransform == old(parent.localTransform) &&
        old(parent).worldTransform == old(parent.worldTransform) &&
        old(parent).color == old(parent.color)
      // the node the lookup found keeps its back-pointer and sits one level below it
      ensures (old(parent) != null && old(Victim()) != this && old(Victim().parent) != this &&
               old(Victim()) !in old(children)) ==>
        old(Victim()).parent == old(Victim().parent) &&
        old(Victim()).depth == old(Victim().parent.depth) + 1
      // ... and that back-pointer's list, when it is another node, gains a copy of it
      ensures (old(parent) != null && old(parent) != this && old(Victim().parent) != this &&
               old(Victim().parent) != old(parent) && old(Victim().parent) !in old(children)) ==>
        old(Victim().parent).children == old(Victim().parent.children) + [old(Victim())]
    {
      if parent != null {
        var p := parent;
        var _ := p.RemoveChild(name);
        parent := null;
      }
      OrphanChildren();
    }
  }

  /** The consequence of `removeChild` leaving the back-pointer in place:
      once a node has been removed from its parent's list (sibling names
      being unique), tearing it down would look itself up in that parent,
      miss, and dereference the null result. */
  lemma RemovedChildCannotBeTornDown(p: Node, kids: seq<Node>, x: Node)
    requires UniqueNames(kids) && x in kids
    requires p.children == RemoveAll(kids, x) && x.parent == p
    ensures p.GetChild(x.name) == null
    ensures !x.CanTearDown()
  {
  }
}
