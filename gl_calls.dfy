/**
 * The OpenGL API is outside the model. Object ids that the driver hands out
 * are parameters of the operations that request them, and the calls an
 * operation issues are returned as a list of these events.
 */
module GLCalls {

  /** INVALID_GL_ID is `(GLuint)(-1)`. */
  const INVALID_GL_ID: nat := 0xFFFF_FFFF

  datatype GLCall =
    | GenTexture(texture: nat)           // glGenTextures + glTexImage2D
    | TexSubImage(texture: nat)          // glTexSubImage2D on an existing texture
    | DeleteTexture(texture: nat)
    | GenFramebuffer(framebuffer: nat)
    | DeleteFramebuffer(framebuffer: nat)
    | FramebufferTexture(framebuffer: nat, texture: nat)   // attach (texture 0 detaches)
    | UseProgram(program: nat)           // 0 unbinds
    | DeleteProgram(program: nat)
    | GenBuffer(buffer: nat, byteSize: int)   // glGenBuffers + glBufferData
    | BufferSubData(buffer: nat, byteSize: int)
    | DeleteBuffer(buffer: nat)
    | GenVertexArray(vao: int)
    | BindVertexArray(vao: int)          // 0 unbinds
    | DeleteVertexArray(vao: int)
    | Scissor(x: int, y: int, width: int, height: int)
    | Viewport(x: int, y: int, width: int, height: int)
    | ClearColor(red: real, green: real, blue: real, alpha: real)
    | Clear
}
