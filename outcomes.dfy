/** Failure-compatible results shared by every module of the model. Each Kotlin
    exception the core throws becomes one constructor of Error; a call that
    throws becomes a Fail/Failure value. */
module Outcomes {

  datatype Option<+T> = None | Some(value: T)

  datatype Error =
    | ArityMismatch(arity: int, remainder: int)        // VBO.validateArity
    | ArityZero                                         // `size % 0` on a VBO of arity 0
    | ArityConflict(bufferArity: int, attributeArity: int) // VBO.withAttribute
    | UnsupportedKind(kind: string)                     // classToGLType
    | MatrixTooSmall                                    // Uniform init: 1x1 matrix
    | SizeTooLarge                                      // Uniform init: size > 4
    | ShapeMismatch(actual: int, size: int)             // Uniform.validate
    | NotMatrix4                                        // Uniform.set(Matrix4f)
    | NotLinked                                         // ident before link
    | InvalidAttribute(name: string)                    // location -1
    | InvalidUniform(name: string)                      // location -1
    | UndefinedAttribute(name: string)                  // Program.get
    | UndefinedUniform(name: string)                    // Program.getUniform
    | LinkFailed(log: string)                           // ProgramLinkException
    | CompileFailed(log: string)                        // ShaderCompilationException
    | MissingBuffer(fixture: int)                       // GameObject: no VBO for fixture
    | NotGameObject                                     // GameWorld: `it as GameObject`

  datatype Result<+T> = Success(value: T) | Failure(error: Error)

  datatype Outcome = Pass | Fail(error: Error)
}
