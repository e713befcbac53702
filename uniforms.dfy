/** Uniform.kt: a named uniform of a program with a declared shape (size 1-4,
    vector or square matrix). Every upload is checked against the shape before
    anything is written, and the shape selects the glUniform* entry point. */
module Uniforms {
  import opened Outcomes
  import opened Gl

  /** The 16 floats a Matrix4f writes into a buffer (column-major). */
  type Matrix4 = m: seq<real> | |m| == 16 witness seq(16, _ => 0.0)

  /** The argument of set(Number), by runtime class. */
  datatype Number = IntNumber(i: int) | FloatNumber(f: real) | OtherNumber

  /** The checks of the init block. Size is not bounded below. */
  function CheckShape(size: int, matrix: bool): (o: Outcome)
    ensures o.Pass? <==> !(matrix && size == 1) && size <= 4
    ensures matrix && size == 1 ==> o == Fail(MatrixTooSmall)
    ensures o.Fail? && !(matrix && size == 1) ==> o == Fail(SizeTooLarge)
  {
    if matrix && size == 1 then Fail(MatrixTooSmall)
    else if size > 4 then Fail(SizeTooLarge)
    else Pass
  }

  /** Kotlin Int arithmetic: the two's-complement 32-bit value congruent to x. */
  function Wrap32(x: int): (r: int)
    ensures -0x8000_0000 <= r < 0x8000_0000
    ensures (r - x) % 0x1_0000_0000 == 0
    ensures -0x8000_0000 <= x < 0x8000_0000 ==> r == x
  {
    (x + 0x8000_0000) % 0x1_0000_0000 - 0x8000_0000
  }

  /** The element count an upload must have: size*size for a matrix, computed
      as a wrapping Int product, and size otherwise. */
  function ExpectedCount(size: int, matrix: bool): int {
    if matrix then Wrap32(size * size) else size
  }

  /** validate: the count must be exactly the expected one. */
  function Validate(size: int, matrix: bool, total: int): (o: Outcome)
    ensures o.Pass? <==> total == ExpectedCount(size, matrix)
    ensures o.Fail? ==> o.error == ShapeMismatch(total, size)
  {
    if matrix then
      if total != Wrap32(size * size) then Fail(ShapeMismatch(total, size)) else Pass
    else
      if total != size then Fail(ShapeMismatch(total, size)) else Pass
  }

  /** The array entry points of the float family: glUniformNfv and glUniformMatrixNfv. */
  predicate IsFloatFn(fn: UniformFn) {
    fn.Uniform1fv? || fn.Uniform2fv? || fn.Uniform3fv? || fn.Uniform4fv? || IsMatrixFn(fn)
  }

  predicate IsMatrixFn(fn: UniformFn) {
    fn.UniformMatrix2fv? || fn.UniformMatrix3fv? || fn.UniformMatrix4fv?
  }

  /** The integer vector entry points glUniformNiv. */
  predicate IsIntVectorFn(fn: UniformFn) {
    fn.Uniform1iv? || fn.Uniform2iv? || fn.Uniform3iv? || fn.Uniform4iv?
  }

  /** The `when(size)` of set(FloatArray)/set(FloatBuffer); sizes outside 1-4 issue nothing. */
  function FloatCall(size: int, matrix: bool): (r: Option<UniformFn>)
    ensures r.Some? <==> 1 <= size <= 4
    ensures r.Some? ==> IsFloatFn(r.value) && (IsMatrixFn(r.value) <==> matrix && size != 1)
    ensures r.Some? ==> Components(r.value) == if matrix && size != 1 then size * size else size
  {
    if size == 1 then Some(Uniform1fv)
    else if size == 2 then Some(if matrix then UniformMatrix2fv else Uniform2fv)
    else if size == 3 then Some(if matrix then UniformMatrix3fv else Uniform3fv)
    else if size == 4 then Some(if matrix then UniformMatrix4fv else Uniform4fv)
    else None
  }

  /** The `when(size)` of set(IntArray)/set(IntBuffer). */
  function IntCall(size: int): (r: Option<UniformFn>)
    ensures r.Some? <==> 1 <= size <= 4
    ensures r.Some? ==> IsIntVectorFn(r.value)
    ensures r.Some? ==> Components(r.value) == size
  {
    if size == 1 then Some(Uniform1iv)
    else if size == 2 then Some(Uniform2iv)
    else if size == 3 then Some(Uniform3iv)
    else if size == 4 then Some(Uniform4iv)
    else None
  }

  /** How many values one call of each entry point consumes. */
  function Components(fn: UniformFn): nat {
    match fn
    case Uniform1iv => 1 case Uniform2iv => 2 case Uniform3iv => 3 case Uniform4iv => 4
    case Uniform1fv => 1 case Uniform2fv => 2 case Uniform3fv => 3 case Uniform4fv => 4
    case UniformMatrix2fv => 4 case UniformMatrix3fv => 9 case UniformMatrix4fv => 16
    case Uniform1i => 1 case Uniform1f => 1
  }

  /** For every shape the init block admits with a positive size, the float
      entry point chosen consumes exactly the count validate demands. */
  lemma FloatDispatchMatchesValidate(size: int, matrix: bool)
    requires CheckShape(size, matrix).Pass? && 1 <= size
    ensures FloatCall(size, matrix).Some?
    ensures Components(FloatCall(size, matrix).value) == ExpectedCount(size, matrix)
  {
  }

  /** The 1x1 matrix, which init rejects, would otherwise reach the plain
      glUniform1fv: the `when(size)` has no matrix entry point of size 1. */
  lemma OneByOneMatrixIsRejected()
    ensures FloatCall(1, true) == Some(Uniform1fv)
    ensures CheckShape(1, true) == Fail(MatrixTooSmall)
  {
  }

  /** For a vector uniform, the integer entry point consumes exactly `size` values. */
  lemma IntDispatchMatchesValidate(size: int)
    requires 1 <= size <= 4
    ensures IntCall(size).Some? && Components(IntCall(size).value) == ExpectedCount(size, false)
  {
  }

  function ToReals(values: seq<int>): (r: seq<real>)
    ensures |r| == |values| && forall i :: 0 <= i < |values| ==> r[i] == values[i] as real
  {
    seq(|values|, i requires 0 <= i < |values| => values[i] as real)
  }

  /** What one `when(size)` branch passes to its glUniform* call besides the location. */
  datatype Payload = Floats(fn: UniformFn, floats: seq<real>) | Ints(fn: UniformFn, ints: seq<int>)

  function CallAt(p: Payload, loc: int): (c: Call)
    ensures !c.ObjectCall()
  {
    match p
    case Floats(fn, v) => UniformFloats(fn, loc, v)
    case Ints(fn, v) => UniformInts(fn, loc, v)
  }

  /** The GL write of one `when(size)` branch: `ident` is read only when a branch is taken. */
  function Write(p: Option<Payload>, res: Result<int>): Run {
    match p
    case None => Done
    case Some(payload) =>
      match res
      case Failure(e) => Raise(e)
      case Success(loc) => Issued([CallAt(payload, loc)])
  }

  function FloatPayload(size: int, matrix: bool, values: seq<real>): Option<Payload> {
    match FloatCall(size, matrix)
    case None => None
    case Some(fn) => Some(Floats(fn, values))
  }

  function IntPayload(size: int, values: seq<int>): Option<Payload> {
    match IntCall(size)
    case None => None
    case Some(fn) => Some(Ints(fn, values))
  }

  /** set(FloatArray) and set(FloatBuffer), given what `ident` yields. */
  function FloatUpload(size: int, matrix: bool, res: Result<int>, values: seq<real>): (r: Run)
    ensures Validate(size, matrix, |values|).Fail? ==> r == Run(Validate(size, matrix, |values|), [])
    ensures r.outcome.Pass? <==> Validate(size, matrix, |values|).Pass? && (FloatCall(size, matrix).None? || res.Success?)
    ensures r.calls != [] ==> && Validate(size, matrix, |values|).Pass? && res.Success? && FloatCall(size, matrix).Some?
                              && r.calls == [UniformFloats(FloatCall(size, matrix).value, res.value, values)]
    ensures Validate(size, matrix, |values|).Pass? && FloatCall(size, matrix).Some? && res.Success? ==>
              r == Issued([UniformFloats(FloatCall(size, matrix).value, res.value, values)])
    ensures Validate(size, matrix, |values|).Pass? && FloatCall(size, matrix).Some? && res.Failure? ==>
              r == Raise(res.error)
    ensures Validate(size, matrix, |values|).Pass? && FloatCall(size, matrix).None? ==> r == Done
  {
    var v := Validate(size, matrix, |values|);
    if v.Fail? then Run(v, []) else Write(FloatPayload(size, matrix, values), res)
  }

  function IntVectorWrite(size: int, res: Result<int>, values: seq<int>): Run {
    Write(IntPayload(size, values), res)
  }

  /** set(IntArray): a matrix uniform also re-dispatches to the float upload,
      then falls through to the integer call. */
  function IntArrayUpload(size: int, matrix: bool, res: Result<int>, values: seq<int>): (r: Run)
    ensures Validate(size, matrix, |values|).Fail? ==> r == Run(Validate(size, matrix, |values|), [])
    ensures !matrix && r.outcome.Pass? && 1 <= size <= 4 ==>
              res.Success? && r.calls == [UniformInts(IntCall(size).value, res.value, values)]
    ensures !matrix && Validate(size, matrix, |values|).Pass? && 1 <= size <= 4 && res.Success? ==>
              r == Issued([UniformInts(IntCall(size).value, res.value, values)])
    ensures matrix && Validate(size, matrix, |values|).Pass? && 1 <= size <= 4 && res.Success? ==>
              r == Issued([UniformFloats(FloatCall(size, matrix).value, res.value, ToReals(values)),
                           UniformInts(IntCall(size).value, res.value, values)])
    ensures Validate(size, matrix, |values|).Pass? && 1 <= size <= 4 && res.Failure? ==> r == Raise(res.error)
    ensures Validate(size, matrix, |values|).Pass? && !(1 <= size <= 4) ==> r == Done
  {
    var v := Validate(size, matrix, |values|);
    if v.Fail? then Run(v, [])
    else Then(if matrix then FloatUpload(size, matrix, res, ToReals(values)) else Done,
              IntVectorWrite(size, res, values))
  }

  /** set(IntBuffer), the buffer's backing array being its remaining values. */
  function IntBufferUpload(size: int, matrix: bool, res: Result<int>, values: seq<int>): (r: Run)
    ensures Validate(size, matrix, |values|).Fail? ==> r == Run(Validate(size, matrix, |values|), [])
    ensures !matrix ==> r == IntArrayUpload(size, matrix, res, values)
  {
    var v := Validate(size, matrix, |values|);
    if v.Fail? then Run(v, [])
    else Then(if matrix then IntArrayUpload(size, matrix, res, values) else Done,
              IntVectorWrite(size, res, values))
  }

  /** set(Matrix4f): only a 4x4 matrix uniform accepts it; 16 floats go through Matrix4fv. */
  function Matrix4Upload(size: int, matrix: bool, res: Result<int>, m: Matrix4): (r: Run)
    ensures r.outcome.Pass? <==> matrix && size == 4 && res.Success?
    ensures !(matrix && size == 4) ==> r == Raise(NotMatrix4)
    ensures r.outcome.Pass? ==> r.calls == [UniformFloats(UniformMatrix4fv, res.value, m)]
    ensures r.outcome.Fail? ==> r.calls == []
  {
    if !matrix || size != 4 then Raise(NotMatrix4)
    else Write(Some(Floats(UniformMatrix4fv, m)), res)
  }

  /** set(Number): validates a count of 1, then writes with glUniform1i or glUniform1f. */
  function NumberUpload(size: int, matrix: bool, res: Result<int>, n: Number): (r: Run)
    ensures r.outcome.Pass? ==> ExpectedCount(size, matrix) == 1
    ensures ExpectedCount(size, matrix) != 1 ==> r == Raise(ShapeMismatch(1, size))
    ensures |r.calls| <= 1
    ensures Validate(size, matrix, 1).Pass? && res.Failure? && !n.OtherNumber? ==> r == Raise(res.error)
    ensures Validate(size, matrix, 1).Pass? && res.Success? && n.IntNumber? ==>
              r == Issued([UniformInts(Uniform1i, res.value, [n.i])])
    ensures Validate(size, matrix, 1).Pass? && res.Success? && n.FloatNumber? ==>
              r == Issued([UniformFloats(Uniform1f, res.value, [n.f])])
    ensures Validate(size, matrix, 1).Pass? && n.OtherNumber? ==> r == Done
  {
    var v := Validate(size, matrix, 1);
    if v.Fail? then Run(v, [])
    else match n
      case IntNumber(i) => Write(Some(Ints(Uniform1i, [i])), res)
      case FloatNumber(f) => Write(Some(Floats(Uniform1f, [f])), res)
      case OtherNumber => Done
  }

  /** Among the shapes init admits whose square does not overflow an Int, a
      count of 1 validates for the non-matrix size-1 uniform and, because size
      is not bounded below, for the matrix uniform of size -1. */
  lemma NumberAcceptedShapes(size: int, matrix: bool)
    requires CheckShape(size, matrix).Pass? && -46340 <= size
    ensures Validate(size, matrix, 1).Pass? <==> (!matrix && size == 1) || (matrix && size == -1)
  {
    if matrix && size != -1 && size != 0 {
      var m := if size < 0 then -size else size;
      assert size * size == m * m;
      assert 2 <= m <= 46340;
      assert m * m >= 2 * m by { MulMono(2, m, m); }
      assert m * m <= 46340 * 46340 by { MulMono(m, 46340, m); MulMono(m, 46340, 46340); }
      assert Wrap32(size * size) == size * size;
    }
  }

  lemma MulMono(a: int, b: int, c: nat)
    requires a <= b
    ensures a * c <= b * c
  {
  }

  /** Below -46340 the wrapping square lets through counts the unbounded one
      would not: no values at all for size -65536, and a single value, so
      that set(Number) writes, for size -2147483647. */
  lemma WrappedSquareAccepts()
    ensures CheckShape(-65536, true).Pass? && Validate(-65536, true, 0).Pass?
    ensures CheckShape(-2147483647, true).Pass? && Validate(-2147483647, true, 1).Pass?
    ensures NumberUpload(-2147483647, true, Success(7), IntNumber(3)).calls == [UniformInts(Uniform1i, 7, [3])]
  {
  }

  class Uniform {
    const programHandle: int
    const name: string
    const size: int
    const matrix: bool
    /** The `ident by lazy` cache. */
    var ident: Option<int>

    predicate WellShaped() {
      CheckShape(size, matrix).Pass?
    }

    constructor (programHandle: int, name: string, size: int, matrix: bool)
      requires CheckShape(size, matrix).Pass?
      ensures this.programHandle == programHandle && this.name == name
      ensures this.size == size && this.matrix == matrix && ident == None
      ensures WellShaped()
    {
      this.programHandle := programHandle;
      this.name := name;
      this.size := size;
      this.matrix := matrix;
      ident := None;
    }

    /** The lazy initializer of `ident`: refused before link, then glGetUniformLocation. */
    function Lookup(gl: Gl): Result<int>
      reads gl`linked
    {
      if !gl.IsLinked(programHandle) then Failure(NotLinked)
      else
        var loc := gl.uniformLocation(programHandle, name);
        if loc == -1 then Failure(InvalidUniform(name)) else Success(loc)
    }

    /** What reading `ident` yields now: the cached location, or else the lazy initializer. */
    function Resolution(gl: Gl): Result<int>
      reads this`ident, gl`linked
    {
      if ident.Some? then Success(ident.value) else Lookup(gl)
    }

    /** Reading `ident`: link-gated, resolved once and cached. */
    method Ident(gl: Gl) returns (r: Result<int>)
      modifies this`ident
      ensures r == old(Resolution(gl))
      ensures old(ident).Some? ==> ident == old(ident)
      ensures ident == if r.Success? then Some(r.value) else None
      ensures Resolution(gl) == old(Resolution(gl))
    {
      if ident.Some? {
        return Success(ident.value);
      }
      if !gl.IsLinked(programHandle) {
        return Failure(NotLinked);
      }
      var loc := gl.uniformLocation(programHandle, name);
      if loc == -1 {
        return Failure(InvalidUniform(name));
      }
      ident := Some(loc);
      r := Success(loc);
    }

    /** One `when(size)` branch: resolve `ident` only if a branch is taken. */
    method WriteWith(gl: Gl, p: Option<Payload>) returns (o: Outcome)
      modifies this`ident, gl`log
      ensures var r := Write(p, old(Resolution(gl)));
              o == r.outcome && gl.log == old(gl.log) + r.calls
      ensures Resolution(gl) == old(Resolution(gl))
    {
      o := Pass;
      if p.Some? {
        var r := Ident(gl);
        if r.Failure? {
          return Fail(r.error);
        }
        gl.Issue(CallAt(p.value, r.value));
      }
    }

    /** set(FloatArray) and set(FloatBuffer). */
    method SetFloats(gl: Gl, values: seq<real>) returns (o: Outcome)
      modifies this`ident, gl`log
      ensures var r := FloatUpload(size, matrix, old(Resolution(gl)), values);
              o == r.outcome && gl.log == old(gl.log) + r.calls
      ensures Resolution(gl) == old(Resolution(gl))
    {
      o := Validate(size, matrix, |values|);
      if o.Fail? {
        return;
      }
      o := WriteWith(gl, FloatPayload(size, matrix, values));
    }

    method SetIntVector(gl: Gl, values: seq<int>) returns (o: Outcome)
      modifies this`ident, gl`log
      ensures var r := IntVectorWrite(size, old(Resolution(gl)), values);
              o == r.outcome && gl.log == old(gl.log) + r.calls
      ensures Resolution(gl) == old(Resolution(gl))
    {
      o := WriteWith(gl, IntPayload(size, values));
    }

    /** set(IntArray). */
    method SetInts(gl: Gl, values: seq<int>) returns (o: Outcome)
      modifies this`ident, gl`log
      ensures var r := IntArrayUpload(size, matrix, old(Resolution(gl)), values);
              o == r.outcome && gl.log == old(gl.log) + r.calls
      ensures Resolution(gl) == old(Resolution(gl))
    {
      o := Validate(size, matrix, |values|);
      if o.Fail? {
        return;
      }
      if matrix {
        o := SetFloats(gl, ToReals(values));
        if o.Fail? {
          return;
        }
      }
      o := SetIntVector(gl, values);
    }

    /** set(IntBuffer). */
    method SetIntBuffer(gl: Gl, values: seq<int>) returns (o: Outcome)
      modifies this`ident, gl`log
      ensures var r := IntBufferUpload(size, matrix, old(Resolution(gl)), values);
              o == r.outcome && gl.log == old(gl.log) + r.calls
      ensures Resolution(gl) == old(Resolution(gl))
    {
      o := Validate(size, matrix, |values|);
      if o.Fail? {
        return;
      }
      if matrix {
        o := SetInts(gl, values);
        if o.Fail? {
          return;
        }
      }
      o := SetIntVector(gl, values);
    }

    /** set(Matrix4f). */
    method SetMatrix4(gl: Gl, m: Matrix4) returns (o: Outcome)
      modifies this`ident, gl`log
      ensures var r := Matrix4Upload(size, matrix, old(Resolution(gl)), m);
              o == r.outcome && gl.log == old(gl.log) + r.calls
      ensures Resolution(gl) == old(Resolution(gl))
    {
      if !matrix || size != 4 {
        return Fail(NotMatrix4);
      }
      o := WriteWith(gl, Some(Floats(UniformMatrix4fv, m)));
    }

    /** set(Number). */
    method SetNumber(gl: Gl, n: Number) returns (o: Outcome)
      modifies this`ident, gl`log
      ensures var r := NumberUpload(size, matrix, old(Resolution(gl)), n);
              o == r.outcome && gl.log == old(gl.log) + r.calls
      ensures Resolution(gl) == old(Resolution(gl))
    {
      o := Validate(size, matrix, 1);
      if o.Fail? {
        return;
      }
      match n
      case IntNumber(i) =>
        o := WriteWith(gl, Some(Ints(Uniform1i, [i])));
      case FloatNumber(f) =>
        o := WriteWith(gl, Some(Floats(Uniform1f, [f])));
      case OtherNumber =>
    }
  }

  /** The Kotlin expression `Uniform(program, name, size, matrix)`: the init
      block throws IllegalArgumentException for a rejected shape. */
  method NewUniform(programHandle: int, name: string, size: int, matrix: bool) returns (r: Result<Uniform>)
    ensures r.Failure? <==> CheckShape(size, matrix).Fail?
    ensures r.Failure? ==> r.error == CheckShape(size, matrix).error
    ensures r.Success? ==> && fresh(r.value) && r.value.programHandle == programHandle
                           && r.value.name == name && r.value.size == size
                           && r.value.matrix == matrix && r.value.ident == None
  {
    var shape := CheckShape(size, matrix);
    if shape.Fail? {
      return Failure(shape.error);
    }
    var u := new Uniform(programHandle, name, size, matrix);
    r := Success(u);
  }
}
