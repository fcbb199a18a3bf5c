/** A geometry node is a node plus the mesh, colour and pixels it is drawn
    with, and the GPU texture record made from those pixels. */
module Geometry {
  import opened Types
  import opened Nodes

  class GeometryNode {
    /** The node part, which is what goes into the tree. */
    const node: Node
    var geometry: Model
    /** Shadows the node's own colour: the two are separate fields. */
    var color: Vec3
    var texture: PixelData
    var textureObj: TextureObject

    /** Stores the three given attributes; the texture record starts empty. */
    constructor (name: string, geometryModel: Model, color: Vec3, texture: PixelData)
      ensures fresh(node) && node.InitialState(name)
      ensures GetGeometry() == geometryModel && GetColor() == color && GetTexture() == texture
      ensures GetTextureObj() == NoTexture
    {
      node := new Node(name);
      geometry := geometryModel;
      this.color := color;
      this.texture := texture;
      textureObj := NoTexture;
    }

    function GetGeometry(): Model reads this { geometry }
    function GetColor(): Vec3 reads this { color }
    function GetTexture(): PixelData reads this { texture }
    function GetTextureObj(): TextureObject reads this { textureObj }

    method SetGeometry(m: Model)
      modifies this`geometry
      ensures GetGeometry() == m
    {
      geometry := m;
    }

    method SetColor(c: Vec3)
      modifies this`color
      ensures GetColor() == c
    {
      color := c;
    }

    method SetTexture(t: PixelData)
      modifies this`texture
      ensures GetTexture() == t
    {
      texture := t;
    }

    method SetTextureObj(o: TextureObject)
      modifies this`textureObj
      ensures GetTextureObj() == o
    {
      textureObj := o;
    }

    /** Writes the record's two members one by one; nothing else changes. */
    method SetTextureObjAttribute(handle: GLuint, target: GLenum)
      modifies this`textureObj
      ensures GetTextureObj() == TextureObject(handle, target)
      ensures GetGeometry() == old(GetGeometry()) && GetColor() == old(GetColor())
      ensures GetTexture() == old(GetTexture())
    {
      textureObj := textureObj.(handle := handle);
      textureObj := textureObj.(target := target);
    }
  }
}
