/** The owner object of the tree: a root pointer and a display name. It never
    frees, unlinks or walks the tree. */
module Scene {
  import opened Nodes

  class SceneGraph {
    var root: Node?
    var name: string

    /** The root starts out null; the name is the empty std::string. */
    constructor ()
      ensures GetRoot() == null && GetName() == ""
    {
      root := null;
      name := "";
    }

    function GetRoot(): Node? reads this { root }
    function GetName(): string reads this { name }

    /** Renames the graph; the root pointer is untouched. */
    method SetName(s: string)
      modifies this`name
      ensures GetName() == s && GetRoot() == old(GetRoot())
    {
      name := s;
    }

    /** Replaces the root pointer. The previous tree is neither freed nor
        changed: only this object's `root` field is written. */
    method SetRoot(r: Node?)
      modifies this`root
      ensures GetRoot() == r && GetName() == old(GetName())
    {
      root := r;
    }

    /** Dereferences the root without a check and yields its name alone. */
    function PrintGraph(): (s: string)
      reads this
      requires GetRoot() != null
      ensures s == GetRoot().GetName()
    {
      root.name
    }

    /** The destructor only forgets the root; the tree stays as it was. */
    method Destroy()
      modifies this`root
      ensures GetRoot() == null && GetName() == old(GetName())
    {
      root := null;
    }
  }
}
