/** physics/GameWorld.kt: the dyn4j world whose bodies are game objects, and
    the two loops over them: buffer creation, and the per-frame render. */
module GameWorlds {
  import opened Outcomes
  import opened Gl
  import opened Vbos
  import opened Attributes
  import opened Uniforms
  import opened Programs
  import opened GameObjects

  /** A body of the world: one of ours, or any other dyn4j Body. */
  datatype WorldBody = Game(obj: GameObject) | OtherBody

  function BodyObjects(bodies: seq<WorldBody>): set<GameObject> {
    set b | b in bodies && b.Game? :: b.obj
  }

  /** `bodies.map { it as GameObject }`: every body is cast before any is used,
      so one body of another class throws before anything else happens. */
  function Cast(bodies: seq<WorldBody>): (r: Result<seq<GameObject>>)
    ensures r.Success? <==> forall i :: 0 <= i < |bodies| ==> bodies[i].Game?
    ensures r.Failure? ==> r.error == NotGameObject
    ensures r.Success? ==> |r.value| == |bodies| && forall i :: 0 <= i < |bodies| ==> r.value[i] == bodies[i].obj
    decreases |bodies|
  {
    if bodies == [] then Success([])
    else
      match bodies[0]
      case OtherBody => Failure(NotGameObject)
      case Game(o) =>
        match Cast(bodies[1..])
        case Failure(e) => Failure(e)
        case Success(rest) =>
          assert forall i :: 1 <= i < |bodies| ==> bodies[i] == bodies[1..][i - 1];
          Success([o] + rest)
  }

  // -------------------------------------------------------------- the MVP

  /** Pixels per meter. */
  const SCALE: real := 45.0

  /** Matrix4f().ortho2D(left, right, bottom, top), column-major as
      Matrix4f.get writes it. */
  function Ortho2D(left: real, right: real, bottom: real, top: real): Matrix4
    requires left != right && bottom != top
  {
    [2.0 / (right - left), 0.0, 0.0, 0.0,
     0.0, 2.0 / (top - bottom), 0.0, 0.0,
     0.0, 0.0, -1.0, 0.0,
     -(right + left) / (right - left), -(top + bottom) / (top - bottom), 0.0, 1.0]
  }

  /** m.scale(s): m times a uniform scaling, so its first three columns times s. */
  function Scale(m: Matrix4, s: real): Matrix4 {
    seq(16, i requires 0 <= i < 16 => if i < 12 then m[i] * s else m[i])
  }

  /** The matrix renderWorld uploads: the 800 by 600 pixel view, 45 pixels per meter. */
  function WorldMvp(): Matrix4 {
    Scale(Ortho2D(-400.0, 400.0, -300.0, 300.0), SCALE)
  }

  /** A column-major matrix applied to a column vector. */
  function Transform(m: Matrix4, v: seq<real>): (r: seq<real>)
    requires |v| == 4
    ensures |r| == 4
  {
    seq(4, k requires 0 <= k < 4 => m[k] * v[0] + m[4 + k] * v[1] + m[8 + k] * v[2] + m[12 + k] * v[3])
  }

  /** A point x meters right and y meters up of the origin lands 45x pixels
      right and 45y pixels up of the centre of the 800 by 600 view. */
  lemma MvpMapsWorldToClip(x: real, y: real)
    ensures Transform(WorldMvp(), [x, y, 0.0, 1.0]) == [x * SCALE / 400.0, y * SCALE / 300.0, 0.0, 1.0]
  {
    var o := Ortho2D(-400.0, 400.0, -300.0, 300.0);
    assert o == [1.0 / 400.0, 0.0, 0.0, 0.0, 0.0, 1.0 / 300.0, 0.0, 0.0, 0.0, 0.0, -1.0, 0.0, 0.0, 0.0, 0.0, 1.0];
    var m := WorldMvp();
    assert m == Scale(o, SCALE);
    assert m[0] == SCALE / 400.0 && m[5] == SCALE / 300.0 && m[10] == -SCALE && m[15] == 1.0;
    assert forall k :: 0 <= k < 16 && k !in {0, 5, 10, 15} ==> m[k] == 0.0;
    var v := [x, y, 0.0, 1.0];
    var r := Transform(m, v);
    assert r[0] == m[0] * x == x * SCALE / 400.0;
    assert r[1] == m[5] * y == y * SCALE / 300.0;
    assert r[2] == 0.0 && r[3] == 1.0;
    assert r == [r[0], r[1], r[2], r[3]];
  }

  // ------------------------------------------------------- the frame's run

  /** The state of one game object that rendering it depends on. */
  datatype ObjectView = ObjectView(fixtures: seq<Fixture>, transform: Vec2 -> Vec2, vbos: map<int, Vbo>,
                                   color: Color, lineColor: Color)

  function View(o: GameObject): ObjectView
    reads o
  {
    ObjectView(o.fixtures, o.transform, o.fixtureVbos, o.color, o.lineColor)
  }

  function Views(objs: seq<GameObject>): (r: seq<ObjectView>)
    reads set o | o in objs
    ensures |r| == |objs| && forall i :: 0 <= i < |objs| ==> r[i] == View(objs[i])
    decreases |objs|
  {
    if objs == [] then [] else [View(objs[0])] + Views(objs[1..])
  }

  /** The bodies as the cast leaves them. */
  function CastViews(bodies: seq<WorldBody>): Result<seq<ObjectView>>
    reads BodyObjects(bodies)
  {
    match Cast(bodies)
    case Failure(e) => Failure(e)
    case Success(objs) =>
      assert forall o :: o in objs ==> o in BodyObjects(bodies);
      Success(Views(objs))
  }

  /** One body of renderWorld: updateFixtureVBOs, and then renderObject. */
  function BodyRun(v: ObjectView, program: int, env: RenderEnv): Run {
    Then(RefreshRun(v.fixtures, v.transform, v.vbos), RenderRun(program, v.fixtures, v.vbos, v.color, v.lineColor, env))
  }

  function BodiesRun(vs: seq<ObjectView>, program: int, env: RenderEnv): Run
    decreases |vs|
  {
    if vs == [] then Done else Then(BodyRun(vs[0], program, env), BodiesRun(vs[1..], program, env))
  }

  /** renderWorld: the MVP write, then the cast, then every body. Nothing
      happens unless the MVP write goes through, and then it is the first call. */
  function WorldRun(mvpSize: int, mvpMatrix: bool, mvpRes: Result<int>, views: Result<seq<ObjectView>>,
                    program: int, env: RenderEnv): (r: Run)
    ensures r.outcome.Pass? || r.calls != [] ==> mvpSize == 4 && mvpMatrix && mvpRes.Success?
    ensures r.calls != [] ==> r.calls[0] == UniformFloats(UniformMatrix4fv, mvpRes.value, WorldMvp())
  {
    Then(Matrix4Upload(mvpSize, mvpMatrix, mvpRes, WorldMvp()),
         match views
         case Failure(e) => Raise(e)
         case Success(vs) => BodiesRun(vs, program, env))
  }

  // ------------------------------------------------- what the frame does

  predicate IsMatrix4Write(c: Call) {
    c.UniformFloats? && c.fn == UniformMatrix4fv
  }

  predicate NoMatrix4Write(calls: seq<Call>) {
    forall i :: 0 <= i < |calls| ==> !IsMatrix4Write(calls[i])
  }

  lemma ThenNoMatrix4Write(a: Run, b: Run)
    requires NoMatrix4Write(a.calls) && NoMatrix4Write(b.calls)
    ensures NoMatrix4Write(Then(a, b).calls)
  {
    if a.outcome.Pass? {
      var c := a.calls + b.calls;
      forall i | 0 <= i < |c|
        ensures !IsMatrix4Write(c[i])
      {
        if i >= |a.calls| {
          assert c[i] == b.calls[i - |a.calls|];
        }
      }
    }
  }

  /** A write of four values never goes through glUniformMatrix4fv, whatever
      the uniform's shape: a matrix uniform validates four values only where
      its wrapped square is 4, which among sizes 1-4 is size 2 (Matrix2fv),
      and `when(size)` takes no branch for any other size. */
  lemma ColorWriteNoMatrix4(usize: int, umatrix: bool, ures: Result<int>, values: seq<real>)
    requires |values| == 4
    ensures NoMatrix4Write(FloatUpload(usize, umatrix, ures, values).calls)
  {
    var r := FloatUpload(usize, umatrix, ures, values);
    if r.calls != [] && umatrix && usize != 1 {
      assert Wrap32(usize * usize) == usize * usize;
    }
  }

  /** A body whose uniform writes are 4-vectors (colours) writes no 4x4 matrix. */
  lemma {:induction false} StepsNoMatrix4Write(steps: seq<DrawStep>, usize: int, umatrix: bool, ures: Result<int>)
    requires forall i :: 0 <= i < |steps| && steps[i].SetUniform? ==> |steps[i].values| == 4
    ensures NoMatrix4Write(StepsRun(steps, usize, umatrix, ures).calls)
    decreases |steps|
  {
    if steps != [] {
      assert forall i :: 1 <= i < |steps| ==> steps[1..][i - 1] == steps[i];
      StepsNoMatrix4Write(steps[1..], usize, umatrix, ures);
      if steps[0].SetUniform? {
        ColorWriteNoMatrix4(usize, umatrix, ures, steps[0].values);
      }
      ThenNoMatrix4Write(StepRun(steps[0], usize, umatrix, ures), StepsRun(steps[1..], usize, umatrix, ures));
    }
  }

  lemma FixtureRenderNoMatrix4Write(f: Fixture, vbos: map<int, Vbo>, color: Color, lineColor: Color, env: RenderEnv)
    ensures NoMatrix4Write(FixtureRender(f, vbos, color, lineColor, env).calls)
  {
    if f.shape.Polygon? && f.id in vbos {
      var v := vbos[f.id];
      var body := PolygonBody(color, lineColor, |f.shape.vertices|);
      var steps := StepsRun(body, env.usize, env.umatrix, env.ures);
      assert forall i :: 0 <= i < |body| && body[i].SetUniform? ==> body[i].values == color || body[i].values == lineColor;
      StepsNoMatrix4Write(body, env.usize, env.umatrix, env.ures);
      if v.arity == env.attrArity && env.attrRes.Success? {
        var loc := env.attrRes.value;
        var tail := Then(steps, Issued([DisableAttribArray(loc)]));
        ThenNoMatrix4Write(steps, Issued([DisableAttribArray(loc)]));
        var mid := Then(Issued([EnableAttribArray(loc), AttribPointer(loc, v.arity, VariantGLType(v.variant))]), tail);
        ThenNoMatrix4Write(Issued([EnableAttribArray(loc), AttribPointer(loc, v.arity, VariantGLType(v.variant))]), tail);
        ThenNoMatrix4Write(Issued([BindArrayBuffer(v.handle)]), mid);
      }
    }
  }

  lemma {:induction false} FixturesRenderNoMatrix4Write(fs: seq<Fixture>, vbos: map<int, Vbo>, color: Color,
                                                        lineColor: Color, env: RenderEnv)
    ensures NoMatrix4Write(FixturesRender(fs, vbos, color, lineColor, env).calls)
    decreases |fs|
  {
    if fs != [] {
      FixtureRenderNoMatrix4Write(fs[0], vbos, color, lineColor, env);
      FixturesRenderNoMatrix4Write(fs[1..], vbos, color, lineColor, env);
      ThenNoMatrix4Write(FixtureRender(fs[0], vbos, color, lineColor, env),
                         FixturesRender(fs[1..], vbos, color, lineColor, env));
    }
  }

  lemma {:induction false} RefreshNoMatrix4Write(fs: seq<Fixture>, transform: Vec2 -> Vec2, vbos: map<int, Vbo>)
    ensures NoMatrix4Write(RefreshRun(fs, transform, vbos).calls)
    decreases |fs|
  {
    if fs != [] {
      RefreshNoMatrix4Write(fs[1..], transform, vbos);
      ThenNoMatrix4Write(FixtureRefresh(fs[0], transform, vbos), RefreshRun(fs[1..], transform, vbos));
    }
  }

  /** No per-body call of a frame writes a 4x4 matrix: refreshing uploads
      vertices, and drawing writes only the 4-component colours. */
  lemma {:induction false} BodiesNoMatrix4Write(vs: seq<ObjectView>, program: int, env: RenderEnv)
    ensures NoMatrix4Write(BodiesRun(vs, program, env).calls)
    decreases |vs|
  {
    if vs != [] {
      var v := vs[0];
      RefreshNoMatrix4Write(v.fixtures, v.transform, v.vbos);
      FixturesRenderNoMatrix4Write(v.fixtures, v.vbos, v.color, v.lineColor, env);
      ThenNoMatrix4Write(Issued([UseProgram(program)]), FixturesRender(v.fixtures, v.vbos, v.color, v.lineColor, env));
      ThenNoMatrix4Write(RefreshRun(v.fixtures, v.transform, v.vbos),
                         RenderRun(program, v.fixtures, v.vbos, v.color, v.lineColor, env));
      BodiesNoMatrix4Write(vs[1..], program, env);
      ThenNoMatrix4Write(BodyRun(v, program, env), BodiesRun(vs[1..], program, env));
    }
  }

  /** renderWorld writes the MVP uniform first and exactly once, before any
      body is touched; if it cannot, nothing is drawn; and a body that is not
      a game object stops the frame right after that write. */
  lemma MvpWrittenOnceFirst(mvpSize: int, mvpMatrix: bool, mvpRes: Result<int>, views: Result<seq<ObjectView>>,
                            program: int, env: RenderEnv)
    ensures var r := WorldRun(mvpSize, mvpMatrix, mvpRes, views, program, env);
            var upload := Matrix4Upload(mvpSize, mvpMatrix, mvpRes, WorldMvp());
            && (upload.outcome.Fail? ==> r.outcome == upload.outcome && r.calls == [])
            && (upload.outcome.Pass? ==>
                  && r.calls != [] && r.calls[0] == UniformFloats(UniformMatrix4fv, mvpRes.value, WorldMvp())
                  && NoMatrix4Write(r.calls[1..]))
            && (upload.outcome.Pass? && views.Failure? ==>
                  r.outcome == Fail(views.error) && r.calls == [UniformFloats(UniformMatrix4fv, mvpRes.value, WorldMvp())])
  {
    var upload := Matrix4Upload(mvpSize, mvpMatrix, mvpRes, WorldMvp());
    if upload.outcome.Pass? && views.Success? {
      var rest := BodiesRun(views.value, program, env);
      BodiesNoMatrix4Write(views.value, program, env);
      var r := WorldRun(mvpSize, mvpMatrix, mvpRes, views, program, env);
      assert r.calls == [UniformFloats(UniformMatrix4fv, mvpRes.value, WorldMvp())] + rest.calls;
      assert r.calls[1..] == rest.calls;
    }
  }

  /** The calls a frame is meant to make for the bodies: per body, in world
      order, its updates, then the program switch and its draws. */
  function ExpectedBodies(vs: seq<ObjectView>, program: int, env: RenderEnv): seq<Call>
    requires GoodEnv(env)
    decreases |vs|
  {
    if vs == [] then []
    else
      var v := vs[0];
      ExpectedRefresh(v.fixtures, v.transform, v.vbos) + [UseProgram(program)]
      + ExpectedRender(v.fixtures, v.vbos, env.attrRes.value, env.ures.value, v.color, v.lineColor)
      + ExpectedBodies(vs[1..], program, env)
  }

  /** With the buffers createVBOs registers, the bodies' part of a frame passes
      exactly when every polygon fixture of every body has a buffer, and then
      makes every body's updates immediately before its own draws, body by body. */
  lemma {:induction false} BodiesMeaning(vs: seq<ObjectView>, program: int, env: RenderEnv)
    requires GoodEnv(env)
    requires forall i :: 0 <= i < |vs| ==> FixtureBuffers(vs[i].vbos)
    ensures var r := BodiesRun(vs, program, env);
            && (r.outcome.Pass? <==> forall i :: 0 <= i < |vs| ==> PolygonIds(vs[i].fixtures) <= vs[i].vbos.Keys)
            && (r.outcome.Pass? ==> r.calls == ExpectedBodies(vs, program, env))
    decreases |vs|
  {
    if vs != [] {
      var v := vs[0];
      BodiesMeaning(vs[1..], program, env);
      RefreshMeaning(v.fixtures, v.transform, v.vbos);
      RenderMeaning(v.fixtures, v.vbos, v.color, v.lineColor, env);
      assert forall i :: 1 <= i < |vs| ==> vs[i] == vs[1..][i - 1];
      var refresh := RefreshRun(v.fixtures, v.transform, v.vbos);
      var draws := FixturesRender(v.fixtures, v.vbos, v.color, v.lineColor, env);
      var rest := BodiesRun(vs[1..], program, env);
      if refresh.outcome.Pass? && draws.outcome.Pass? && rest.outcome.Pass? {
        assert BodiesRun(vs, program, env).calls == refresh.calls + ([UseProgram(program)] + draws.calls) + rest.calls;
      }
    }
  }

  // ------------------------------------------------------------ the class

  class GameWorld {
    var bodies: seq<WorldBody>

    /** The bodies of a dyn4j world are distinct objects (a body is added to
        one world once), and each game object keeps its buffer invariant. */
    ghost predicate Valid()
      reads this, BodyObjects(bodies)
    {
      && (forall i, j :: 0 <= i < j < |bodies| && bodies[i].Game? && bodies[j].Game? ==> bodies[i].obj != bodies[j].obj)
      && (forall i :: 0 <= i < |bodies| && bodies[i].Game? ==> bodies[i].obj.Valid())
    }

    constructor (bodies: seq<WorldBody>)
      ensures this.bodies == bodies
    {
      this.bodies := bodies;
    }

    /** initializeVBOs: createVBOs on every body, in order; a body of another
        class fails the cast before any buffer is created. */
    method InitializeVbos(gl: Gl) returns (o: Outcome)
      requires Valid()
      modifies gl`nextName, gl`log, BodyObjects(bodies)
      ensures Valid()
      ensures Cast(bodies).Failure? ==>
                && o == Fail(NotGameObject) && gl.log == old(gl.log) && gl.nextName == old(gl.nextName)
                && unchanged(BodyObjects(bodies))
      ensures Cast(bodies).Success? ==>
                && o == Pass
                && (forall i :: 0 <= i < |bodies| ==> Initialized(bodies[i].obj))
                && gl.log == old(gl.log) + ColorUploads(ColorBuffers(Cast(bodies).value))
    {
      var cast := Cast(bodies);
      if cast.Failure? {
        return Fail(cast.error);
      }
      var objs := cast.value;
      o := CreateAll(gl, objs);
      assert forall i :: 0 <= i < |bodies| ==> bodies[i].obj == objs[i];
    }

    /** renderWorld: the MVP write, the cast, then per body its update and its render. */
    method RenderWorld(gl: Gl, program: Program, attribute: Attribute, colorUniform: Uniform, mvpUniform: Uniform)
      returns (o: Outcome)
      modifies gl`log, attribute`ident, colorUniform`ident, mvpUniform`ident
      ensures var env := RenderEnv(attribute.arity, old(attribute.Resolution(gl)), colorUniform.size,
                                   colorUniform.matrix, old(colorUniform.Resolution(gl)));
              var r := WorldRun(mvpUniform.size, mvpUniform.matrix, old(mvpUniform.Resolution(gl)),
                                CastViews(bodies), program.handle, env);
              o == r.outcome && gl.log == old(gl.log) + r.calls
    {
      ghost var env := RenderEnv(attribute.arity, attribute.Resolution(gl), colorUniform.size,
                                 colorUniform.matrix, colorUniform.Resolution(gl));
      ghost var upload := Matrix4Upload(mvpUniform.size, mvpUniform.matrix, mvpUniform.Resolution(gl), WorldMvp());
      o := mvpUniform.SetMatrix4(gl, WorldMvp());
      if o.Fail? {
        return;
      }
      assert colorUniform.Resolution(gl) == env.ures;
      var cast := Cast(bodies);
      if cast.Failure? {
        return Fail(cast.error);
      }
      ghost var p := program.handle;
      ghost var each := v => BodyRun(v, p, env);
      ghost var vs := Views(cast.value);
      o := RenderBodies(gl, cast.value, program, attribute, colorUniform, env, p, vs, each);
      assert CastViews(bodies) == Success(vs);
      ForEachIsBodiesRun(vs, p, env, each);
      ThenAssociative(Issued(old(gl.log)), upload, ForEach(vs, each));
    }
  }

  /** What createVBOs leaves behind: a buffer for every polygon fixture, and
      the colour buffer. */
  ghost predicate Initialized(o: GameObject)
    reads o
  {
    PolygonIds(o.fixtures) <= o.fixtureVbos.Keys && o.colorVbo.Some?
  }

  /** The forEach of initializeVBOs, over the cast bodies. */
  method CreateAll(gl: Gl, objs: seq<GameObject>) returns (o: Outcome)
    requires forall k, l :: 0 <= k < l < |objs| ==> objs[k] != objs[l]
    requires forall k :: 0 <= k < |objs| ==> objs[k].Valid()
    modifies gl`nextName, gl`log, set k | 0 <= k < |objs| :: objs[k]
    ensures o == Pass
    ensures forall k :: 0 <= k < |objs| ==> objs[k].Valid()
    ensures forall k :: 0 <= k < |objs| ==> Initialized(objs[k])
    ensures gl.log == old(gl.log) + ColorUploads(ColorBuffers(objs))
  {
    ghost var pushed: seq<(int, Color)> := [];
    var i := 0;
    while i < |objs|
      invariant 0 <= i <= |objs|
      invariant forall k :: 0 <= k < |objs| ==> objs[k].Valid()
      invariant forall k :: 0 <= k < i ==> Initialized(objs[k])
      invariant |pushed| == i
      invariant forall k :: 0 <= k < i ==> pushed[k] == (objs[k].colorVbo.value.handle, objs[k].color)
      invariant gl.log == old(gl.log) + ColorUploads(pushed)
    {
      assert forall k :: 0 <= k < |objs| && k != i ==> objs[k] != objs[i];
      label L:
      CreateOne(gl, objs[i]);
      assert forall k :: 0 <= k < |objs| && k != i ==> objs[k].fixtureVbos == old@L(objs[k].fixtureVbos);
      assert forall k :: 0 <= k < |objs| && k != i ==> objs[k].colorVbo == old@L(objs[k].colorVbo);
      ghost var b := (objs[i].colorVbo.value.handle, objs[i].color);
      assert (pushed + [b])[..i] == pushed;
      ThenAssociative(Issued(old(gl.log)), Issued(ColorUploads(pushed)), Issued(ColorUpload(b)));
      pushed := pushed + [b];
      i := i + 1;
    }
    assert pushed == ColorBuffers(objs);
    o := Pass;
  }

  /** createVBOs on one body, as the loop needs it. */
  method CreateOne(gl: Gl, obj: GameObject)
    requires obj.Valid()
    modifies gl`nextName, gl`log, obj`fixtureVbos, obj`colorVbo
    ensures obj.Valid()
    ensures Initialized(obj)
    ensures gl.log == old(gl.log) + ColorUpload((obj.colorVbo.value.handle, obj.color))
  {
    obj.CreateVbos(gl);
  }

  /** The colour buffer and colour of each object. */
  ghost function ColorBuffers(objs: seq<GameObject>): seq<(int, Color)>
    requires forall k :: 0 <= k < |objs| ==> Initialized(objs[k])
    reads objs
  {
    seq(|objs|, k requires 0 <= k < |objs| && Initialized(objs[k]) reads objs =>
                  (objs[k].colorVbo.value.handle, objs[k].color))
  }

  /** The colour upload createVBOs ends with: bind, upload as STATIC_DRAW, unbind. */
  function ColorUpload(b: (int, Color)): seq<Call> {
    [BindArrayBuffer(b.0), BufferData(b.1, GL_STATIC_DRAW), BindArrayBuffer(0)]
  }

  function ColorUploads(bs: seq<(int, Color)>): seq<Call>
    decreases |bs|
  {
    if bs == [] then [] else ColorUploads(bs[..|bs| - 1]) + ColorUpload(bs[|bs| - 1])
  }

  lemma {:induction false} ForEachIsBodiesRun(vs: seq<ObjectView>, program: int, env: RenderEnv,
                                              each: ObjectView -> Run)
    requires forall v :: each(v) == BodyRun(v, program, env)
    ensures ForEach(vs, each) == BodiesRun(vs, program, env)
    decreases |vs|
  {
    if vs != [] {
      ForEachIsBodiesRun(vs[1..], program, env, each);
    }
  }

  /** The forEach of renderWorld. The run of one body is passed as `each`, and
      BodyRun is named only in a trigger, so that the loop's proof does not
      unfold it. */
  method RenderBodies(gl: Gl, objs: seq<GameObject>, program: Program, attribute: Attribute, colorUniform: Uniform,
                      ghost env: RenderEnv, ghost p: int, ghost vs: seq<ObjectView>, ghost each: ObjectView -> Run)
    returns (o: Outcome)
    requires env == RenderEnv(attribute.arity, attribute.Resolution(gl), colorUniform.size,
                              colorUniform.matrix, colorUniform.Resolution(gl))
    requires p == program.handle && vs == Views(objs)
    requires forall k {:trigger BodyRun(vs[k], p, env)} :: 0 <= k < |vs| ==> each(vs[k]) == BodyRun(vs[k], p, env)
    modifies gl`log, attribute`ident, colorUniform`ident
    ensures o == ForEach(vs, each).outcome && gl.log == old(gl.log) + ForEach(vs, each).calls
  {
    ghost var done: seq<Call> := [];
    var i := 0;
    o := Pass;
    while i < |objs|
      invariant 0 <= i <= |objs|
      invariant o == Pass && gl.log == old(gl.log) + done
      invariant Then(Issued(done), ForEach(vs[i..], each)) == ForEach(vs, each)
      invariant env == RenderEnv(attribute.arity, attribute.Resolution(gl), colorUniform.size,
                                 colorUniform.matrix, colorUniform.Resolution(gl))
    {
      assert vs[i..][0] == vs[i] && vs[i..][1..] == vs[i + 1..];
      o := RenderBody(gl, objs[i], program, attribute, colorUniform, env, p, vs, i, each);
      ghost var delta := each(vs[i]).calls;
      ThenAssociative(Issued(done), Run(o, delta), ForEach(vs[i + 1..], each));
      if o.Fail? {
        return;
      }
      done := done + delta;
      i := i + 1;
    }
    assert vs[i..] == [];
  }

  /** One body of the forEach: updateFixtureVBOs, then renderObject. */
  method RenderBody(gl: Gl, obj: GameObject, program: Program, attribute: Attribute, colorUniform: Uniform,
                    ghost env: RenderEnv, ghost p: int, ghost vs: seq<ObjectView>, ghost i: int,
                    ghost each: ObjectView -> Run) returns (o: Outcome)
    requires env == RenderEnv(attribute.arity, attribute.Resolution(gl), colorUniform.size,
                              colorUniform.matrix, colorUniform.Resolution(gl))
    requires p == program.handle && 0 <= i < |vs| && vs[i] == View(obj)
    requires forall k {:trigger BodyRun(vs[k], p, env)} :: 0 <= k < |vs| ==> each(vs[k]) == BodyRun(vs[k], p, env)
    modifies gl`log, attribute`ident, colorUniform`ident
    ensures o == each(vs[i]).outcome && gl.log == old(gl.log) + each(vs[i]).calls
    ensures attribute.Resolution(gl) == env.attrRes && colorUniform.Resolution(gl) == env.ures
  {
    assert each(vs[i]) == BodyRun(vs[i], p, env);
    o := obj.UpdateFixtureVbos(gl);
    if o.Fail? {
      return;
    }
    o := obj.RenderObject(gl, program, attribute, colorUniform);
  }
}
