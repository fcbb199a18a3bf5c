/** Value types the scene graph stores but never computes with: glm matrices and
    vectors, the loaded mesh, the loaded pixels and the OpenGL texture record. */
module Types {

  datatype Option<T> = None | Some(value: T)

  /** A glm::mat4: sixteen floats in column-major order, modelled as reals.
      No arithmetic on matrices is part of the scene-graph core. */
  datatype Mat4 = Mat4(cells: seq<real>)

  /** The matrix that both `glm::fmat4{}` and `glm::mat4{1}` produce. */
  const Identity: Mat4 := Mat4([1.0, 0.0, 0.0, 0.0,
                                0.0, 1.0, 0.0, 0.0,
                                0.0, 0.0, 1.0, 0.0,
                                0.0, 0.0, 0.0, 1.0])

  /** A glm::fvec3, used for colours. */
  datatype Vec3 = Vec3(x: real, y: real, z: real)

  /** The mesh read from a model file; opaque to the scene graph. */
  type Model

  /** The pixel buffer read from an image file; opaque to the scene graph. */
  type PixelData

  /** OpenGL's unsigned 32-bit object names and enumerants. */
  newtype GLuint = x: int | 0 <= x < 0x1_0000_0000
  newtype GLenum = x: int | 0 <= x < 0x1_0000_0000

  /** The enumerant GL_NONE. */
  const GlNone: GLenum := 0

  /** The GPU-side texture record: an object name and its binding point. */
  datatype TextureObject = TextureObject(handle: GLuint, target: GLenum)

  /** What `texture_object()` builds: no texture, bound nowhere. */
  const NoTexture: TextureObject := TextureObject(0, GlNone)
}
