/** A point light is a node plus a colour and an intensity, which no
    constructor initialises: each reads as `None` until its setter runs. */
module PointLight {
  import opened Types
  import opened Nodes

  class PointLightNode {
    /** The node part, which is what goes into the tree. */
    const node: Node
    var lightColour: Option<Vec3>
    var lightIntensity: Option<real>

    /** `PointLightNode()`: a fresh `Node()`, colour and intensity unset. */
    constructor Default()
      ensures fresh(node) && node.InitialState("name")
      ensures lightColour == None && lightIntensity == None
    {
      node := new Node.Default();
      lightColour := None;
      lightIntensity := None;
    }

    /** `PointLightNode(name)`: a fresh `Node(name)`, colour and intensity unset. */
    constructor (name: string)
      ensures fresh(node) && node.InitialState(name)
      ensures lightColour == None && lightIntensity == None
    {
      node := new Node(name);
      lightColour := None;
      lightIntensity := None;
    }

    /** `getLightIntesity`: only meaningful once the intensity was set. */
    function GetLightIntensity(): real
      reads this
      requires lightIntensity.Some?
    {
      lightIntensity.value
    }

    /** `getlightColour`: only meaningful once the colour was set. */
    function GetLightColour(): Vec3
      reads this
      requires lightColour.Some?
    {
      lightColour.value
    }

    method SetLightColour(c: Vec3)
      modifies this`lightColour
      ensures lightColour.Some? && GetLightColour() == c
      ensures lightIntensity == old(lightIntensity)
    {
      lightColour := Some(c);
    }

    method SetLightIntensity(x: real)
      modifies this`lightIntensity
      ensures lightIntensity.Some? && GetLightIntensity() == x
      ensures lightColour == old(lightColour)
    {
      lightIntensity := Some(x);
    }
  }
}
