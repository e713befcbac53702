/** VBO.kt: typed vertex buffers. An upload is checked against the buffer's
    arity, then bound, uploaded with the usage hint and unbound; withAttribute
    scopes one attribute around a body of uniform writes and draws. */
module Vbos {
  import opened Outcomes
  import opened Gl
  import opened Attributes
  import opened Uniforms

  /** VBO.BufferType: the usage hint. */
  datatype BufferType = Static | Dynamic | Stream

  function BufferTypeToGL(t: BufferType): (r: int)
    ensures r in {GL_STATIC_DRAW, GL_DYNAMIC_DRAW, GL_STREAM_DRAW}
  {
    match t
    case Static => GL_STATIC_DRAW
    case Dynamic => GL_DYNAMIC_DRAW
    case Stream => GL_STREAM_DRAW
  }

  function BufferTypeFromGL(c: int): (r: Option<BufferType>)
    ensures r.Some? ==> BufferTypeToGL(r.value) == c
  {
    if c == GL_STATIC_DRAW then Some(Static)
    else if c == GL_DYNAMIC_DRAW then Some(Dynamic)
    else if c == GL_STREAM_DRAW then Some(Stream)
    else None
  }

  /** The three hints map to three distinct constants. */
  lemma BufferTypeRoundTrip(t: BufferType)
    ensures BufferTypeFromGL(BufferTypeToGL(t)) == Some(t)
  {
  }

  /** The Kotlin numeric classes classToGLType can be asked about. */
  datatype NumericKind = IntKind | ShortKind | DoubleKind | FloatKind | ByteKind | LongKind | OtherKind(name: string)

  function KindName(k: NumericKind): string {
    match k
    case IntKind => "Int" case ShortKind => "Short" case DoubleKind => "Double"
    case FloatKind => "Float" case ByteKind => "Byte" case LongKind => "Long"
    case OtherKind(n) => n
  }

  /** classToGLType: defined exactly for Int, Short, Double, Float and Byte. */
  function ClassToGLType(k: NumericKind): (r: Result<int>)
    ensures r.Success? <==> k in {IntKind, ShortKind, DoubleKind, FloatKind, ByteKind}
    ensures r.Failure? ==> r.error == UnsupportedKind(KindName(k))
    ensures r.Success? ==> r.value in {GL_INT, GL_SHORT, GL_DOUBLE, GL_FLOAT, GL_BYTE}
  {
    match k
    case IntKind => Success(GL_INT)
    case ShortKind => Success(GL_SHORT)
    case DoubleKind => Success(GL_DOUBLE)
    case FloatKind => Success(GL_FLOAT)
    case ByteKind => Success(GL_BYTE)
    case _ => Failure(UnsupportedKind(KindName(k)))
  }

  /** The nine concrete VBO classes. */
  datatype Variant =
    | IntArrayVbo | IntBufferVbo | ShortArrayVbo | ShortBufferVbo
    | DoubleArrayVbo | DoubleBufferVbo | FloatArrayVbo | FloatBufferVbo | ByteBufferVbo

  function ElementKind(v: Variant): NumericKind {
    match v
    case IntArrayVbo => IntKind case IntBufferVbo => IntKind
    case ShortArrayVbo => ShortKind case ShortBufferVbo => ShortKind
    case DoubleArrayVbo => DoubleKind case DoubleBufferVbo => DoubleKind
    case FloatArrayVbo => FloatKind case FloatBufferVbo => FloatKind
    case ByteBufferVbo => ByteKind
  }

  /** The GL type each class passes to the VBO constructor. */
  function VariantGLType(v: Variant): int {
    match v
    case IntArrayVbo => GL_INT case IntBufferVbo => GL_INT
    case ShortArrayVbo => GL_SHORT case ShortBufferVbo => GL_SHORT
    case DoubleArrayVbo => GL_DOUBLE case DoubleBufferVbo => GL_DOUBLE
    case FloatArrayVbo => GL_FLOAT case FloatBufferVbo => GL_FLOAT
    case ByteBufferVbo => GL_BYTE
  }

  /** Each class's hard-coded GL type is the one classToGLType gives its element kind. */
  lemma VariantTypeAgreesWithClassToGLType(v: Variant)
    ensures ClassToGLType(ElementKind(v)) == Success(VariantGLType(v))
  {
  }

  /** Every pushData except ByteBufferVBO's validates arity first. */
  predicate ChecksArity(v: Variant) {
    v != ByteBufferVbo
  }

  /** validateArity. The count is non-negative, so Kotlin's truncating `%`
      and Dafny's Euclidean `%` agree; `% 0` throws ArithmeticException. */
  function ValidateArity(count: nat, arity: int): (o: Outcome)
    ensures arity == 0 ==> o == Fail(ArityZero)
    ensures arity != 0 ==> (o.Pass? <==> count % arity == 0)
    ensures arity != 0 && o.Fail? ==> o.error == ArityMismatch(arity, count % arity)
  {
    if arity == 0 then Fail(ArityZero)
    else
      var i := count % arity;
      if i != 0 then Fail(ArityMismatch(arity, i)) else Pass
  }

  /** pushData of a buffer with the given handle, class, hint and arity. */
  function PushRun(handle: int, variant: Variant, usage: BufferType, arity: int, data: seq<real>): (r: Run)
    ensures ChecksArity(variant) && ValidateArity(|data|, arity).Fail? ==>
              r == Run(ValidateArity(|data|, arity), [])
    ensures !ChecksArity(variant) ==> r.outcome.Pass?
    ensures r.outcome.Pass? <==> !ChecksArity(variant) || ValidateArity(|data|, arity).Pass?
    ensures r.outcome.Pass? ==>
              r.calls == [BindArrayBuffer(handle), BufferData(data, BufferTypeToGL(usage)), BindArrayBuffer(0)]
    ensures r.outcome.Fail? ==> r.calls == []
  {
    var check := if ChecksArity(variant) then ValidateArity(|data|, arity) else Pass;
    if check.Fail? then Run(check, [])
    else Issued([BindArrayBuffer(handle), BufferData(data, BufferTypeToGL(usage)), BindArrayBuffer(0)])
  }

  /** A successful upload stores the data in the buffer and leaves ARRAY_BUFFER
      unbound; for a checked class the data is a whole number of tuples. */
  lemma PushStoresAndUnbinds(s: DrawState, handle: int, variant: Variant, usage: BufferType,
                             arity: int, data: seq<real>)
    requires handle != 0
    requires PushRun(handle, variant, usage, arity, data).outcome.Pass?
    ensures var s' := Replay(s, PushRun(handle, variant, usage, arity, data).calls);
            s'.arrayBuffer == 0 && s'.enabled == s.enabled && s'.store == s.store[handle := data]
    ensures ChecksArity(variant) ==> arity != 0 && |data| == (|data| / arity) * arity
  {
    var calls := PushRun(handle, variant, usage, arity, data).calls;
    var s1 := s.(arrayBuffer := handle);
    var s2 := s1.(store := s.store[handle := data]);
    assert calls[1..][1..] == [BindArrayBuffer(0)];
    calc {
      Replay(s, calls);
      Replay(s1, calls[1..]);
      Replay(s2, [BindArrayBuffer(0)]);
      Replay(s2.(arrayBuffer := 0), []);
    }
  }

  /** The body `inner` of withAttribute: uniform writes to one uniform and draws. */
  datatype DrawStep = SetUniform(values: seq<real>) | Draw(mode: int, first: int, count: int)

  function StepRun(step: DrawStep, usize: int, umatrix: bool, ures: Result<int>): Run {
    match step
    case SetUniform(v) => FloatUpload(usize, umatrix, ures, v)
    case Draw(m, f, c) => Issued([DrawArrays(m, f, c)])
  }

  /** The body run in order up to its first throw. Each statement issues at
      most one GL call, a uniform write or a draw. */
  function StepsRun(steps: seq<DrawStep>, usize: int, umatrix: bool, ures: Result<int>): (r: Run)
    ensures |r.calls| <= |steps|
    ensures forall i :: 0 <= i < |r.calls| ==> r.calls[i].UniformFloats? || r.calls[i].DrawArrays?
    decreases |steps|
  {
    if steps == [] then Done
    else Then(StepRun(steps[0], usize, umatrix, ures), StepsRun(steps[1..], usize, umatrix, ures))
  }

  /** The body runs step by step: it returns normally exactly when every step
      does, and otherwise throws what the first throwing step throws. */
  lemma {:induction false} StepsRunStopsAtFirstThrow(steps: seq<DrawStep>, usize: int, umatrix: bool, ures: Result<int>)
    ensures var r := StepsRun(steps, usize, umatrix, ures);
            r.outcome.Pass? <==> forall i :: 0 <= i < |steps| ==> StepRun(steps[i], usize, umatrix, ures).outcome.Pass?
    ensures var r := StepsRun(steps, usize, umatrix, ures);
            r.outcome.Fail? ==>
              exists i :: && 0 <= i < |steps| && StepRun(steps[i], usize, umatrix, ures).outcome == r.outcome
                          && forall j :: 0 <= j < i ==> StepRun(steps[j], usize, umatrix, ures).outcome.Pass?
    decreases |steps|
  {
    if steps != [] {
      var tail := steps[1..];
      StepsRunStopsAtFirstThrow(tail, usize, umatrix, ures);
      var r := StepsRun(steps, usize, umatrix, ures);
      if StepRun(steps[0], usize, umatrix, ures).outcome.Pass? && r.outcome.Fail? {
        var k :| && 0 <= k < |tail| && StepRun(tail[k], usize, umatrix, ures).outcome == r.outcome
                 && forall j :: 0 <= j < k ==> StepRun(tail[j], usize, umatrix, ures).outcome.Pass?;
        assert forall j :: 0 <= j < k + 1 ==> StepRun(steps[j], usize, umatrix, ures).outcome.Pass? by {
          forall j | 0 <= j < k + 1
            ensures StepRun(steps[j], usize, umatrix, ures).outcome.Pass?
          {
            if j > 0 {
              assert steps[j] == tail[j - 1];
            }
          }
        }
        assert StepRun(steps[k + 1], usize, umatrix, ures).outcome == r.outcome;
      }
    }
  }

  /** Uniform writes and draws do not touch the binding, enable or store state. */
  lemma {:induction false} StepsKeepDrawState(s: DrawState, steps: seq<DrawStep>, usize: int,
                                              umatrix: bool, ures: Result<int>)
    ensures Replay(s, StepsRun(steps, usize, umatrix, ures).calls) == s
    decreases |steps|
  {
    if steps != [] {
      var head := StepRun(steps[0], usize, umatrix, ures);
      var tail := StepsRun(steps[1..], usize, umatrix, ures);
      StepsKeepDrawState(s, steps[1..], usize, umatrix, ures);
      if head.outcome.Pass? {
        ReplayAppend(s, head.calls, tail.calls);
        if head.calls != [] {
          assert head.calls[1..] == [];
        }
      }
    }
  }

  /** withAttribute of a buffer (handle, arity, GL type) with an attribute
      (arity, what its ident yields) and a body over one uniform. */
  function WithAttributeRun(handle: int, arity: int, glType: int, attrArity: int, attrRes: Result<int>,
                            inner: seq<DrawStep>, usize: int, umatrix: bool, ures: Result<int>): (r: Run)
    ensures attrArity != arity ==> r == Raise(ArityConflict(arity, attrArity))
    ensures r.outcome.Pass? <==> attrArity == arity && attrRes.Success? && StepsRun(inner, usize, umatrix, ures).outcome.Pass?
    ensures attrArity == arity && attrRes.Failure? ==> r == Run(Fail(attrRes.error), [BindArrayBuffer(handle)])
    ensures attrArity == arity && attrRes.Success? && StepsRun(inner, usize, umatrix, ures).outcome.Fail? ==>
              r == Run(StepsRun(inner, usize, umatrix, ures).outcome,
                       [BindArrayBuffer(handle), EnableAttribArray(attrRes.value), AttribPointer(attrRes.value, arity, glType)]
                       + StepsRun(inner, usize, umatrix, ures).calls)
    ensures r.outcome.Pass? ==>
              && attrArity == arity && attrRes.Success? && StepsRun(inner, usize, umatrix, ures).outcome.Pass?
              && r.calls == [BindArrayBuffer(handle), EnableAttribArray(attrRes.value),
                             AttribPointer(attrRes.value, arity, glType)]
                            + StepsRun(inner, usize, umatrix, ures).calls
                            + [DisableAttribArray(attrRes.value)]
  {
    if attrArity != arity then Raise(ArityConflict(arity, attrArity))
    else Then(Issued([BindArrayBuffer(handle)]),
              match attrRes
              case Failure(e) => Raise(e)
              case Success(loc) =>
                Then(Issued([EnableAttribArray(loc), AttribPointer(loc, arity, glType)]),
                     Then(StepsRun(inner, usize, umatrix, ures), Issued([DisableAttribArray(loc)]))))
  }

  /** After a normal return the buffer is still bound and the attribute is
      disabled; when the body throws, the attribute stays enabled (there is no
      `finally`). An arity conflict changes nothing. */
  lemma WithAttributeDrawState(s: DrawState, handle: int, arity: int, glType: int, attrArity: int,
                               attrRes: Result<int>, inner: seq<DrawStep>, usize: int, umatrix: bool,
                               ures: Result<int>)
    ensures var r := WithAttributeRun(handle, arity, glType, attrArity, attrRes, inner, usize, umatrix, ures);
            && (attrArity != arity ==> Replay(s, r.calls) == s)
            && (r.outcome.Pass? ==> Replay(s, r.calls) == s.(arrayBuffer := handle, enabled := s.enabled - {attrRes.value}))
            && (attrArity == arity && attrRes.Success? && StepsRun(inner, usize, umatrix, ures).outcome.Fail? ==>
                  Replay(s, r.calls) == s.(arrayBuffer := handle, enabled := s.enabled + {attrRes.value}))
  {
    var r := WithAttributeRun(handle, arity, glType, attrArity, attrRes, inner, usize, umatrix, ures);
    if attrArity == arity && attrRes.Success? {
      var loc := attrRes.value;
      var steps := StepsRun(inner, usize, umatrix, ures);
      var prefix := [BindArrayBuffer(handle), EnableAttribArray(loc), AttribPointer(loc, arity, glType)];
      var s3 := s.(arrayBuffer := handle, enabled := s.enabled + {loc});
      assert Replay(s, prefix) == s3 by {
        assert prefix[1..] == [EnableAttribArray(loc), AttribPointer(loc, arity, glType)];
        assert prefix[1..][1..] == [AttribPointer(loc, arity, glType)];
        calc {
          Replay(s, prefix);
          Replay(s.(arrayBuffer := handle), prefix[1..]);
          Replay(s3, prefix[1..][1..]);
          Replay(s3, []);
        }
      }
      StepsKeepDrawState(s3, inner, usize, umatrix, ures);
      if steps.outcome.Pass? {
        assert r.calls == prefix + steps.calls + [DisableAttribArray(loc)];
        ReplayAppend(s, prefix + steps.calls, [DisableAttribArray(loc)]);
        ReplayAppend(s, prefix, steps.calls);
        assert s3.enabled - {loc} == s.enabled - {loc};
      } else {
        assert r.calls == prefix + steps.calls;
        ReplayAppend(s, prefix, steps.calls);
      }
    }
  }

  /** A generated buffer name: never 0, the "no buffer" binding. */
  type Name = n: int | n > 0 witness 1

  /** One VBO object. The name is generated when the object is built (the
      Kotlin `ident` is lazy, but generating a name issues nothing that the
      model logs). `arity` is never reassigned by the core. */
  class Vbo {
    const variant: Variant
    const usage: BufferType
    const arity: int
    const handle: Name

    constructor (gl: Gl, variant: Variant, usage: BufferType, arity: int)
      modifies gl`nextName
      ensures this.variant == variant && this.usage == usage && this.arity == arity
      ensures handle == old(gl.nextName) + 1 && gl.nextName == handle && handle > 0
    {
      this.variant := variant;
      this.usage := usage;
      this.arity := arity;
      var h := gl.NewName();
      handle := h;
    }

    function GLType(): int {
      VariantGLType(variant)
    }

    /** activate: bind this buffer to ARRAY_BUFFER. */
    method Activate(gl: Gl)
      modifies gl`log
      ensures gl.log == old(gl.log) + [BindArrayBuffer(handle)]
    {
      gl.Issue(BindArrayBuffer(handle));
    }

    /** unbindBuffer: bind 0 to ARRAY_BUFFER. */
    method UnbindBuffer(gl: Gl)
      modifies gl`log
      ensures gl.log == old(gl.log) + [BindArrayBuffer(0)]
    {
      gl.Issue(BindArrayBuffer(0));
    }

    /** pushData of every class (arrays and NIO buffers alike carry their remaining values). */
    method PushData(gl: Gl, data: seq<real>) returns (o: Outcome)
      modifies gl`log
      ensures var r := PushRun(handle, variant, usage, arity, data);
              o == r.outcome && gl.log == old(gl.log) + r.calls
      ensures o.Pass? ==> gl.State() == old(gl.State()).(arrayBuffer := 0, store := old(gl.State()).store[handle := data])
      ensures o.Fail? ==> gl.State() == old(gl.State())
    {
      if ChecksArity(variant) {
        o := ValidateArity(|data|, arity);
        if o.Fail? {
          return;
        }
      }
      Activate(gl);
      gl.Issue(BufferData(data, BufferTypeToGL(usage)));
      UnbindBuffer(gl);
      o := Pass;
      ReplayAppend(gl.initial, old(gl.log), PushRun(handle, variant, usage, arity, data).calls);
      PushStoresAndUnbinds(old(gl.State()), handle, variant, usage, arity, data);
    }

    /** withAttribute: arity check, bind, enable, pointer, body, disable. */
    method WithAttribute(gl: Gl, attribute: Attribute, uniform: Uniform, inner: seq<DrawStep>) returns (o: Outcome)
      modifies gl`log, attribute`ident, uniform`ident
      ensures var r := WithAttributeRun(handle, arity, GLType(), attribute.arity, old(attribute.Resolution(gl)),
                                        inner, uniform.size, uniform.matrix, old(uniform.Resolution(gl)));
              o == r.outcome && gl.log == old(gl.log) + r.calls
      ensures attribute.Resolution(gl) == old(attribute.Resolution(gl))
      ensures uniform.Resolution(gl) == old(uniform.Resolution(gl))
    {
      if attribute.arity != arity {
        return Fail(ArityConflict(arity, attribute.arity));
      }
      ghost var L0 := gl.log;
      ghost var ures := uniform.Resolution(gl);
      var loc;
      o, loc := Open(gl, attribute);
      if o.Fail? {
        return;
      }
      ghost var L1 := gl.log;
      o := RunSteps(gl, uniform, inner);
      if o.Fail? {
        return;
      }
      ghost var L2 := gl.log;
      o := attribute.Disable(gl);
      ghost var steps := StepsRun(inner, uniform.size, uniform.matrix, ures).calls;
      assert gl.log == L0 + (L1[|L0|..] + steps + [DisableAttribArray(loc)]);
    }

    /** The opening of withAttribute: bind this buffer, enable the attribute,
        describe its layout. */
    method Open(gl: Gl, attribute: Attribute) returns (o: Outcome, loc: int)
      modifies gl`log, attribute`ident
      ensures var res := old(attribute.Resolution(gl));
              && (res.Failure? ==> o == Fail(res.error) && gl.log == old(gl.log) + [BindArrayBuffer(handle)])
              && (res.Success? ==>
                    && o == Pass && loc == res.value
                    && gl.log == old(gl.log) + [BindArrayBuffer(handle), EnableAttribArray(loc), AttribPointer(loc, arity, GLType())])
      ensures attribute.Resolution(gl) == old(attribute.Resolution(gl))
    {
      Activate(gl);
      o := attribute.Enable(gl);
      loc := 0;
      if o.Fail? {
        return;
      }
      var r := attribute.Ident(gl);
      loc := r.value;
      gl.Issue(AttribPointer(loc, arity, GLType()));
    }

    /** The body of withAttribute, step by step. */
    method RunSteps(gl: Gl, uniform: Uniform, inner: seq<DrawStep>) returns (o: Outcome)
      modifies gl`log, uniform`ident
      ensures var r := StepsRun(inner, uniform.size, uniform.matrix, old(uniform.Resolution(gl)));
              o == r.outcome && gl.log == old(gl.log) + r.calls
      ensures uniform.Resolution(gl) == old(uniform.Resolution(gl))
    {
      ghost var ures := uniform.Resolution(gl);
      ghost var done: seq<Call> := [];
      o := Pass;
      var i := 0;
      while i < |inner|
        invariant 0 <= i <= |inner|
        invariant o == Pass && gl.log == old(gl.log) + done
        invariant Then(Issued(done), StepsRun(inner[i..], uniform.size, uniform.matrix, ures))
                  == StepsRun(inner, uniform.size, uniform.matrix, ures)
        invariant uniform.Resolution(gl) == ures
        decreases |inner| - i
      {
        assert inner[i..][0] == inner[i] && inner[i..][1..] == inner[i + 1..];
        o := RunStep(gl, uniform, inner[i]);
        ghost var delta := StepRun(inner[i], uniform.size, uniform.matrix, ures).calls;
        ThenAssociative(Issued(done), Run(o, delta), StepsRun(inner[i + 1..], uniform.size, uniform.matrix, ures));
        if o.Fail? {
          return;
        }
        done := done + delta;
        i := i + 1;
      }
      assert inner[i..] == [];
    }

    /** One statement of the body. */
    method RunStep(gl: Gl, uniform: Uniform, step: DrawStep) returns (o: Outcome)
      modifies gl`log, uniform`ident
      ensures var r := StepRun(step, uniform.size, uniform.matrix, old(uniform.Resolution(gl)));
              o == r.outcome && gl.log == old(gl.log) + r.calls
      ensures uniform.Resolution(gl) == old(uniform.Resolution(gl))
    {
      match step {
        case SetUniform(v) =>
          o := uniform.SetFloats(gl, v);
        case Draw(m, f, c) =>
          gl.Issue(DrawArrays(m, f, c));
          o := Pass;
      }
    }

    /** close: glDeleteBuffers. */
    method Close(gl: Gl)
      modifies gl`log
      ensures gl.log == old(gl.log) + [DeleteBuffer(handle)]
    {
      gl.Issue(DeleteBuffer(handle));
    }
  }
}
