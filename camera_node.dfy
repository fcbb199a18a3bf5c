/** A camera is a node plus three attributes: the projection kind, an enabled
    flag and a projection matrix. */
module Camera {
  import opened Types
  import opened Nodes

  class CameraNode {
    /** The node part, which is what goes into the tree. */
    const node: Node
    var isPerspective: bool
    var isEnabled: bool
    var projectionMatrix: Mat4

    /** Perspective, enabled, identity projection, over a fresh `Node(name)`. */
    constructor (name: string)
      ensures fresh(node) && node.InitialState(name)
      ensures GetPerspective() && GetEnabled() && GetProjectionMatrix() == Identity
    {
      node := new Node(name);
      isPerspective := true;
      isEnabled := true;
      projectionMatrix := Identity;
    }

    function GetPerspective(): bool reads this { isPerspective }
    function GetEnabled(): bool reads this { isEnabled }
    function GetProjectionMatrix(): Mat4 reads this { projectionMatrix }

    method SetPerspective(value: bool)
      modifies this`isPerspective
      ensures GetPerspective() == value
      ensures GetEnabled() == old(GetEnabled()) && GetProjectionMatrix() == old(GetProjectionMatrix())
    {
      isPerspective := value;
    }

    method SetEnabled(value: bool)
      modifies this`isEnabled
      ensures GetEnabled() == value
      ensures GetPerspective() == old(GetPerspective()) && GetProjectionMatrix() == old(GetProjectionMatrix())
    {
      isEnabled := value;
    }

    method SetProjectionMatrix(projection: Mat4)
      modifies this`projectionMatrix
      ensures GetProjectionMatrix() == projection
      ensures GetPerspective() == old(GetPerspective()) && GetEnabled() == old(GetEnabled())
    {
      projectionMatrix := projection;
    }
  }
}
