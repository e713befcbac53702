/** physics/GameObject.kt: a physics body that owns one vertex buffer per
    polygon fixture and draws each polygon filled, then outlined.

    The dyn4j body is reduced to what the core reads: its fixture list (each
    fixture an id and a shape) and its current transform, an opaque map on
    points. Colours are 4-vectors of reals; the random draws behind them are
    parameters. */
module GameObjects {
  import opened Outcomes
  import opened Gl
  import opened Attributes
  import opened Uniforms
  import opened Vbos
  import opened Programs

  datatype Vec2 = Vec2(x: real, y: real)

  datatype Shape = Polygon(vertices: seq<Vec2>) | OtherShape

  datatype Fixture = Fixture(id: int, shape: Shape)

  /** The vertex `flatMap`: each vertex, transformed, becomes x then y. */
  function Flatten(transform: Vec2 -> Vec2, vs: seq<Vec2>): (r: seq<real>)
    ensures |r| == 2 * |vs|
    ensures forall i :: 0 <= i < |vs| ==> r[2 * i] == transform(vs[i]).x && r[2 * i + 1] == transform(vs[i]).y
    decreases |vs|
  {
    if vs == [] then []
    else
      var rest := Flatten(transform, vs[1..]);
      assert forall i :: 1 <= i < |vs| ==> vs[1..][i - 1] == vs[i];
      [transform(vs[0]).x, transform(vs[0]).y] + rest
  }

  /** A colour: red, green, blue, alpha. */
  type Color = c: seq<real> | |c| == 4 witness [0.0, 0.0, 0.0, 1.0]

  /** One random component: Math.random() * 0.5 + 0.5. */
  function Shade(draw: real): real {
    draw * 0.5 + 0.5
  }

  /** The initializer of `color`, from three draws. */
  function InitialColor(r: real, g: real, b: real): Color {
    [Shade(r), Shade(g), Shade(b), 1.0]
  }

  const LINE_SHADE: real := 0.8

  /** The `mapIndexed` behind `lineColor`: red, green and blue darkened by
      LINE_SHADE, alpha kept. */
  function LineColor(c: Color): (r: Color)
    ensures forall i :: 0 <= i < 3 ==> r[i] == c[i] * LINE_SHADE
    ensures r[3] == c[3]
  {
    seq(4, i requires 0 <= i < 4 => if i != 3 then c[i] * LINE_SHADE else c[i])
  }

  /** With draws in [0, 1) every colour component is in [0.5, 1) and alpha is
      1; the outline keeps alpha and darkens the rest into [0.4, 0.8). */
  lemma ColorBounds(r: real, g: real, b: real)
    requires 0.0 <= r < 1.0 && 0.0 <= g < 1.0 && 0.0 <= b < 1.0
    ensures var c := InitialColor(r, g, b);
            && (forall i :: 0 <= i < 3 ==> 0.5 <= c[i] < 1.0) && c[3] == 1.0
            && var l := LineColor(c);
               && (forall i :: 0 <= i < 3 ==> 0.4 <= l[i] < 0.8 && l[i] == c[i] * LINE_SHADE)
               && l[3] == c[3]
  {
  }

  /** The ids of the polygon fixtures. */
  function PolygonIds(fs: seq<Fixture>): set<int> {
    set i | 0 <= i < |fs| && fs[i].shape.Polygon? :: fs[i].id
  }

  lemma PolygonIdsSnoc(fs: seq<Fixture>, f: Fixture)
    ensures PolygonIds(fs + [f]) == PolygonIds(fs) + (if f.shape.Polygon? then {f.id} else {})
  {
    var fs' := fs + [f];
    assert forall i :: 0 <= i < |fs| ==> fs'[i] == fs[i];
    assert fs'[|fs|] == f;
  }

  lemma PolygonIdsCons(f: Fixture, fs: seq<Fixture>)
    ensures PolygonIds([f] + fs) == (if f.shape.Polygon? then {f.id} else {}) + PolygonIds(fs)
  {
    var fs' := [f] + fs;
    forall x | x in PolygonIds(fs')
      ensures x in (if f.shape.Polygon? then {f.id} else {}) + PolygonIds(fs)
    {
      var i :| 0 <= i < |fs'| && fs'[i].shape.Polygon? && fs'[i].id == x;
      if i > 0 {
        assert fs'[i] == fs[i - 1];
      }
    }
    forall x | x in PolygonIds(fs)
      ensures x in PolygonIds(fs')
    {
      var i :| 0 <= i < |fs| && fs[i].shape.Polygon? && fs[i].id == x;
      assert fs'[i + 1] == fs[i];
    }
    if f.shape.Polygon? {
      assert fs'[0] == f;
    }
  }

  /** What createVBOs registers for a polygon fixture. */
  predicate FixtureBuffer(v: Vbo) {
    v.variant == DoubleArrayVbo && v.usage == Dynamic && v.arity == 2
  }

  predicate ColorBuffer(v: Vbo) {
    v.variant == FloatArrayVbo && v.usage == Static && v.arity == 4
  }

  predicate FixtureBuffers(vbos: map<int, Vbo>) {
    forall id :: id in vbos ==> FixtureBuffer(vbos[id])
  }

  /** A polygon fixture for which no buffer is registered. */
  predicate Unbuffered(f: Fixture, vbos: map<int, Vbo>) {
    f.shape.Polygon? && f.id !in vbos
  }

  /** The fixture at `i` is the first, in fixture order, without a buffer. */
  predicate FirstUnbuffered(fs: seq<Fixture>, vbos: map<int, Vbo>, i: int) {
    && 0 <= i < |fs| && Unbuffered(fs[i], vbos)
    && forall j :: 0 <= j < i ==> !Unbuffered(fs[j], vbos)
  }

  /** The first unbuffered fixture of `fs` is its head if that has no buffer,
      and otherwise one past the first unbuffered fixture of the tail. */
  lemma FirstUnbufferedCons(fs: seq<Fixture>, vbos: map<int, Vbo>, e: Error)
    requires |fs| > 0
    requires Unbuffered(fs[0], vbos) ==> e == MissingBuffer(fs[0].id)
    requires !Unbuffered(fs[0], vbos) ==>
               exists k :: FirstUnbuffered(fs[1..], vbos, k) && e == MissingBuffer(fs[1..][k].id)
    ensures exists i :: FirstUnbuffered(fs, vbos, i) && e == MissingBuffer(fs[i].id)
  {
    if Unbuffered(fs[0], vbos) {
      assert FirstUnbuffered(fs, vbos, 0);
    } else {
      var k :| FirstUnbuffered(fs[1..], vbos, k) && e == MissingBuffer(fs[1..][k].id);
      forall j | 0 <= j < k + 1
        ensures !Unbuffered(fs[j], vbos)
      {
        if j > 0 {
          assert fs[j] == fs[1..][j - 1];
        }
      }
      assert FirstUnbuffered(fs, vbos, k + 1);
    }
  }

  // ---------------------------------------------------------------- refresh

  /** Calls that only bind ARRAY_BUFFER or upload buffer data. */
  predicate UploadsOnly(calls: seq<Call>) {
    forall i :: 0 <= i < |calls| ==> calls[i].BindArrayBuffer? || calls[i].BufferData?
  }

  /** Calls among which there is no buffer upload. */
  predicate NoUploads(calls: seq<Call>) {
    forall i :: 0 <= i < |calls| ==> !calls[i].BufferData?
  }

  /** updateFixtureVBOs for one fixture. */
  function FixtureRefresh(f: Fixture, transform: Vec2 -> Vec2, vbos: map<int, Vbo>): Run {
    match f.shape
    case OtherShape => Done
    case Polygon(vs) =>
      if f.id !in vbos then Raise(MissingBuffer(f.id))
      else
        var v := vbos[f.id];
        PushRun(v.handle, v.variant, v.usage, v.arity, Flatten(transform, vs))
  }

  /** updateFixtureVBOs over the fixture list, stopping at the first throw.
      It only binds buffers and uploads data: no draw, no attribute array,
      no uniform. */
  function RefreshRun(fs: seq<Fixture>, transform: Vec2 -> Vec2, vbos: map<int, Vbo>): (r: Run)
    ensures UploadsOnly(r.calls)
    decreases |fs|
  {
    if fs == [] then Done
    else Then(FixtureRefresh(fs[0], transform, vbos), RefreshRun(fs[1..], transform, vbos))
  }

  /** The uploads a refresh is meant to make: per polygon fixture, in order,
      bind its buffer, upload its transformed vertices, unbind. */
  function ExpectedRefresh(fs: seq<Fixture>, transform: Vec2 -> Vec2, vbos: map<int, Vbo>): seq<Call>
    decreases |fs|
  {
    if fs == [] then []
    else
      var head := match fs[0].shape
        case Polygon(vs) =>
          if fs[0].id in vbos then
            [BindArrayBuffer(vbos[fs[0].id].handle), BufferData(Flatten(transform, vs), GL_DYNAMIC_DRAW), BindArrayBuffer(0)]
          else []
        case OtherShape => [];
      head + ExpectedRefresh(fs[1..], transform, vbos)
  }

  /** A registered arity-2 buffer always accepts the 2-per-vertex data. */
  lemma FixtureRefreshAccepts(f: Fixture, transform: Vec2 -> Vec2, vbos: map<int, Vbo>)
    requires FixtureBuffers(vbos)
    requires f.shape.Polygon? && f.id in vbos
    ensures FixtureRefresh(f, transform, vbos)
         == Issued([BindArrayBuffer(vbos[f.id].handle), BufferData(Flatten(transform, f.shape.vertices), GL_DYNAMIC_DRAW),
                    BindArrayBuffer(0)])
  {
    var n := |Flatten(transform, f.shape.vertices)|;
    assert n % 2 == 0 by {
      assert n == 2 * |f.shape.vertices|;
    }
  }

  /** With the buffers createVBOs registers, refreshing fails exactly when a
      polygon fixture has no buffer, naming the first such fixture in fixture
      order, and otherwise makes exactly the expected uploads. */
  lemma {:induction false} RefreshMeaning(fs: seq<Fixture>, transform: Vec2 -> Vec2, vbos: map<int, Vbo>)
    requires FixtureBuffers(vbos)
    ensures var r := RefreshRun(fs, transform, vbos);
            && (r.outcome.Pass? <==> PolygonIds(fs) <= vbos.Keys)
            && (r.outcome.Pass? ==> r.calls == ExpectedRefresh(fs, transform, vbos))
            && (r.outcome.Fail? ==> exists i :: FirstUnbuffered(fs, vbos, i) && r.outcome.error == MissingBuffer(fs[i].id))
    decreases |fs|
  {
    if fs == [] {
    } else {
      var f := fs[0];
      assert fs == [f] + fs[1..];
      PolygonIdsCons(f, fs[1..]);
      RefreshMeaning(fs[1..], transform, vbos);
      if f.shape.Polygon? && f.id in vbos {
        FixtureRefreshAccepts(f, transform, vbos);
      }
      var r := RefreshRun(fs, transform, vbos);
      if r.outcome.Fail? {
        FirstUnbufferedCons(fs, vbos, r.outcome.error);
      }
    }
  }

  // ----------------------------------------------------------------- render

  /** What renderObject's collaborators give it: the vertex attribute's arity
      and resolution and the colour uniform's shape and resolution. */
  datatype RenderEnv = RenderEnv(attrArity: int, attrRes: Result<int>, usize: int, umatrix: bool, ures: Result<int>)

  /** The body passed to withAttribute: fill colour, polygon, outline colour, loop. */
  function PolygonBody(color: Color, lineColor: Color, n: int): seq<DrawStep> {
    [SetUniform(color), Draw(GL_POLYGON, 0, n), SetUniform(lineColor), Draw(GL_LINE_LOOP, 0, n)]
  }

  function FixtureRender(f: Fixture, vbos: map<int, Vbo>, color: Color, lineColor: Color, env: RenderEnv): Run {
    match f.shape
    case OtherShape => Done
    case Polygon(vs) =>
      if f.id !in vbos then Raise(MissingBuffer(f.id))
      else
        var v := vbos[f.id];
        WithAttributeRun(v.handle, v.arity, VariantGLType(v.variant), env.attrArity, env.attrRes,
                         PolygonBody(color, lineColor, |vs|), env.usize, env.umatrix, env.ures)
  }

  /** The fixture loop of renderObject, stopping at the first throw. Drawing
      never uploads: the vertices drawn are those the last refresh stored. */
  function FixturesRender(fs: seq<Fixture>, vbos: map<int, Vbo>, color: Color, lineColor: Color, env: RenderEnv): (r: Run)
    ensures NoUploads(r.calls)
    decreases |fs|
  {
    if fs == [] then Done
    else Then(FixtureRender(fs[0], vbos, color, lineColor, env), FixturesRender(fs[1..], vbos, color, lineColor, env))
  }

  /** renderObject: glUseProgram, then every fixture in order. */
  function RenderRun(program: int, fs: seq<Fixture>, vbos: map<int, Vbo>, color: Color, lineColor: Color,
                     env: RenderEnv): (r: Run)
    ensures r.calls != [] && r.calls[0] == UseProgram(program)
  {
    var r := Then(Issued([UseProgram(program)]), FixturesRender(fs, vbos, color, lineColor, env));
    assert r.calls == [UseProgram(program)] + FixturesRender(fs, vbos, color, lineColor, env).calls;
    r
  }

  /** The collaborators of the demo: an arity-2 attribute and a non-matrix
      4-vector colour uniform, both resolvable. */
  predicate GoodEnv(env: RenderEnv) {
    env.attrArity == 2 && env.attrRes.Success? && env.usize == 4 && !env.umatrix && env.ures.Success?
  }

  /** The calls drawing one polygon should make. */
  function PolygonDraw(buffer: int, loc: int, uloc: int, color: Color, lineColor: Color, n: int): seq<Call> {
    [BindArrayBuffer(buffer), EnableAttribArray(loc), AttribPointer(loc, 2, GL_DOUBLE),
     UniformFloats(Uniform4fv, uloc, color), DrawArrays(GL_POLYGON, 0, n),
     UniformFloats(Uniform4fv, uloc, lineColor), DrawArrays(GL_LINE_LOOP, 0, n),
     DisableAttribArray(loc)]
  }

  function ExpectedRender(fs: seq<Fixture>, vbos: map<int, Vbo>, loc: int, uloc: int, color: Color,
                          lineColor: Color): seq<Call>
    decreases |fs|
  {
    if fs == [] then []
    else
      var head := match fs[0].shape
        case Polygon(vs) =>
          if fs[0].id in vbos then PolygonDraw(vbos[fs[0].id].handle, loc, uloc, color, lineColor, |vs|) else []
        case OtherShape => [];
      head + ExpectedRender(fs[1..], vbos, loc, uloc, color, lineColor)
  }

  lemma PolygonBodyCalls(color: Color, lineColor: Color, n: int, uloc: int)
    ensures StepsRun(PolygonBody(color, lineColor, n), 4, false, Success(uloc))
         == Issued([UniformFloats(Uniform4fv, uloc, color), DrawArrays(GL_POLYGON, 0, n),
                    UniformFloats(Uniform4fv, uloc, lineColor), DrawArrays(GL_LINE_LOOP, 0, n)])
  {
    var body := PolygonBody(color, lineColor, n);
    var u := Success(uloc);
    assert body[1..] == body[1..];
    assert StepsRun(body[1..][1..][1..], 4, false, u) == Issued([DrawArrays(GL_LINE_LOOP, 0, n)]) by {
      assert body[1..][1..][1..][1..] == [];
    }
    assert StepsRun(body[1..][1..], 4, false, u)
        == Issued([UniformFloats(Uniform4fv, uloc, lineColor), DrawArrays(GL_LINE_LOOP, 0, n)]);
    assert StepsRun(body[1..], 4, false, u)
        == Issued([DrawArrays(GL_POLYGON, 0, n), UniformFloats(Uniform4fv, uloc, lineColor), DrawArrays(GL_LINE_LOOP, 0, n)]);
  }

  /** A registered buffer draws one polygon with exactly the expected calls. */
  lemma FixtureRenderDraws(f: Fixture, vbos: map<int, Vbo>, color: Color, lineColor: Color, env: RenderEnv)
    requires FixtureBuffers(vbos) && GoodEnv(env)
    requires f.shape.Polygon? && f.id in vbos
    ensures FixtureRender(f, vbos, color, lineColor, env)
         == Issued(PolygonDraw(vbos[f.id].handle, env.attrRes.value, env.ures.value, color, lineColor,
                               |f.shape.vertices|))
  {
    var n := |f.shape.vertices|;
    PolygonBodyCalls(color, lineColor, n, env.ures.value);
  }

  /** With the buffers createVBOs registers and the demo's collaborators,
      rendering fails exactly when a polygon fixture has no buffer; otherwise
      it draws every polygon fixture, in order, filled and then outlined, each
      with its own vertex count; a failure names the first fixture without a
      buffer. */
  lemma {:induction false} RenderMeaning(fs: seq<Fixture>, vbos: map<int, Vbo>, color: Color, lineColor: Color,
                                         env: RenderEnv)
    requires FixtureBuffers(vbos) && GoodEnv(env)
    ensures var r := FixturesRender(fs, vbos, color, lineColor, env);
            && (r.outcome.Pass? <==> PolygonIds(fs) <= vbos.Keys)
            && (r.outcome.Pass? ==> r.calls == ExpectedRender(fs, vbos, env.attrRes.value, env.ures.value, color, lineColor))
            && (r.outcome.Fail? ==> exists i :: FirstUnbuffered(fs, vbos, i) && r.outcome.error == MissingBuffer(fs[i].id))
    decreases |fs|
  {
    if fs != [] {
      var f := fs[0];
      assert fs == [f] + fs[1..];
      PolygonIdsCons(f, fs[1..]);
      RenderMeaning(fs[1..], vbos, color, lineColor, env);
      if f.shape.Polygon? && f.id in vbos {
        FixtureRenderDraws(f, vbos, color, lineColor, env);
      }
      var r := FixturesRender(fs, vbos, color, lineColor, env);
      if r.outcome.Fail? {
        FirstUnbufferedCons(fs, vbos, r.outcome.error);
      }
    }
  }

  // ------------------------------------------------------------------ class

  class GameObject {
    var fixtures: seq<Fixture>
    var transform: Vec2 -> Vec2
    var color: Color
    var lineColor: Color
    /** fixtureVBOs, keyed by fixture id. */
    var fixtureVbos: map<int, Vbo>
    /** The lazily created colour buffer. */
    var colorVbo: Option<Vbo>

    predicate Valid()
      reads this`fixtureVbos, this`colorVbo
    {
      FixtureBuffers(fixtureVbos) && (colorVbo.Some? ==> ColorBuffer(colorVbo.value))
    }

    /** The property initializers run first (so `lineColor` is derived from the
        first three draws), then the init block overwrites `color` in place
        with three more draws. */
    constructor (fixtures: seq<Fixture>, transform: Vec2 -> Vec2,
                 r1: real, g1: real, b1: real, r2: real, g2: real, b2: real)
      ensures this.fixtures == fixtures && this.transform == transform
      ensures lineColor == LineColor(InitialColor(r1, g1, b1))
      ensures color == InitialColor(r2, g2, b2)
      ensures fixtureVbos == map[] && colorVbo == None
      ensures Valid()
    {
      this.fixtures := fixtures;
      this.transform := transform;
      var c := InitialColor(r1, g1, b1);
      color := c;
      lineColor := LineColor(c);
      fixtureVbos := map[];
      colorVbo := None;
      new;
      color := color[0 := Shade(r2)];
      color := color[1 := Shade(g2)];
      color := color[2 := Shade(b2)];
      color := color[3 := 1.0];
    }

    /** createVBOs: one DYNAMIC arity-2 double buffer per polygon fixture, then
        the colour is pushed into the STATIC arity-4 float buffer. */
    method CreateVbos(gl: Gl)
      requires Valid()
      modifies this`fixtureVbos, this`colorVbo, gl`nextName, gl`log
      ensures Valid()
      ensures fixtureVbos.Keys == old(fixtureVbos).Keys + PolygonIds(fixtures)
      ensures forall id :: id in PolygonIds(fixtures) ==> fresh(fixtureVbos[id])
      ensures forall id :: id in old(fixtureVbos) && id !in PolygonIds(fixtures) ==> fixtureVbos[id] == old(fixtureVbos[id])
      ensures colorVbo.Some? && (old(colorVbo).Some? ==> colorVbo == old(colorVbo))
      ensures old(colorVbo).None? ==> fresh(colorVbo.value)
      ensures gl.log == old(gl.log) + [BindArrayBuffer(colorVbo.value.handle), BufferData(color, GL_STATIC_DRAW),
                                       BindArrayBuffer(0)]
    {
      var i := 0;
      while i < |fixtures|
        invariant 0 <= i <= |fixtures|
        invariant Valid() && colorVbo == old(colorVbo) && gl.log == old(gl.log)
        invariant fixtureVbos.Keys == old(fixtureVbos).Keys + PolygonIds(fixtures[..i])
        invariant forall id :: id in PolygonIds(fixtures[..i]) ==> fresh(fixtureVbos[id])
        invariant forall id :: id in old(fixtureVbos) && id !in PolygonIds(fixtures[..i]) ==>
                    fixtureVbos[id] == old(fixtureVbos[id])
      {
        PolygonIdsSnoc(fixtures[..i], fixtures[i]);
        assert fixtures[..i + 1] == fixtures[..i] + [fixtures[i]];
        if fixtures[i].shape.Polygon? {
          var v := new Vbo(gl, DoubleArrayVbo, Dynamic, 2);
          fixtureVbos := fixtureVbos[fixtures[i].id := v];
        }
        i := i + 1;
      }
      assert fixtures[..i] == fixtures;
      if colorVbo.None? {
        var v := new Vbo(gl, FloatArrayVbo, Static, 4);
        colorVbo := Some(v);
      }
      var o := colorVbo.value.PushData(gl, color);
    }

    /** updateFixtureVBOs: push every polygon fixture's transformed vertices. */
    method UpdateFixtureVbos(gl: Gl) returns (o: Outcome)
      modifies gl`log
      ensures var r := RefreshRun(fixtures, transform, fixtureVbos);
              o == r.outcome && gl.log == old(gl.log) + r.calls
    {
      ghost var done: seq<Call> := [];
      var i := 0;
      o := Pass;
      while i < |fixtures|
        invariant 0 <= i <= |fixtures|
        invariant o == Pass && gl.log == old(gl.log) + done
        invariant Then(Issued(done), RefreshRun(fixtures[i..], transform, fixtureVbos))
                  == RefreshRun(fixtures, transform, fixtureVbos)
      {
        assert fixtures[i..][0] == fixtures[i] && fixtures[i..][1..] == fixtures[i + 1..];
        ghost var before := gl.log;
        o := RefreshFixture(gl, fixtures[i]);
        ghost var delta := FixtureRefresh(fixtures[i], transform, fixtureVbos).calls;
        ThenAssociative(Issued(done), Run(o, delta), RefreshRun(fixtures[i + 1..], transform, fixtureVbos));
        if o.Fail? {
          return;
        }
        done := done + delta;
        i := i + 1;
      }
      assert fixtures[i..] == [];
    }

    method RefreshFixture(gl: Gl, f: Fixture) returns (o: Outcome)
      modifies gl`log
      ensures var r := FixtureRefresh(f, transform, fixtureVbos);
              o == r.outcome && gl.log == old(gl.log) + r.calls
    {
      match f.shape {
        case OtherShape =>
          o := Pass;
        case Polygon(vs) =>
          var vertices := Flatten(transform, vs);
          if f.id !in fixtureVbos {
            return Fail(MissingBuffer(f.id));
          }
          o := fixtureVbos[f.id].PushData(gl, vertices);
      }
    }

    /** renderObject: use the program, then for each polygon fixture run
        withAttribute on its buffer with the fill-then-outline body. */
    method RenderObject(gl: Gl, program: Program, attribute: Attribute, colorUniform: Uniform) returns (o: Outcome)
      modifies gl`log, attribute`ident, colorUniform`ident
      ensures var env := RenderEnv(attribute.arity, old(attribute.Resolution(gl)), colorUniform.size,
                                   colorUniform.matrix, old(colorUniform.Resolution(gl)));
              var r := RenderRun(program.handle, fixtures, fixtureVbos, color, lineColor, env);
              o == r.outcome && gl.log == old(gl.log) + r.calls
      ensures attribute.Resolution(gl) == old(attribute.Resolution(gl))
      ensures colorUniform.Resolution(gl) == old(colorUniform.Resolution(gl))
    {
      ghost var env := RenderEnv(attribute.arity, attribute.Resolution(gl), colorUniform.size,
                                 colorUniform.matrix, colorUniform.Resolution(gl));
      ghost var vbos, c, lc := fixtureVbos, color, lineColor;
      ghost var each := g => FixtureRender(g, vbos, c, lc, env);
      gl.Issue(UseProgram(program.handle));
      o := RenderFixtures(gl, fixtures, fixtureVbos, color, lineColor, attribute, colorUniform, env, each);
      ForEachIsFixturesRender(fixtures, fixtureVbos, color, lineColor, env, each);
    }
  }

  lemma {:induction false} ForEachIsFixturesRender(fs: seq<Fixture>, vbos: map<int, Vbo>, color: Color,
                                                  lineColor: Color, env: RenderEnv, each: Fixture -> Run)
    requires forall g :: each(g) == FixtureRender(g, vbos, color, lineColor, env)
    ensures ForEach(fs, each) == FixturesRender(fs, vbos, color, lineColor, env)
    decreases |fs|
  {
    if fs != [] {
      ForEachIsFixturesRender(fs[1..], vbos, color, lineColor, env, each);
    }
  }

  /** The fixture loop of renderObject. The run of one fixture is passed as
      `each`, and FixtureRender is named only in a trigger, so that the loop's
      proof does not unfold it. */
  method RenderFixtures(gl: Gl, fs: seq<Fixture>, vbos: map<int, Vbo>, color: Color, lineColor: Color,
                        attribute: Attribute, colorUniform: Uniform, ghost env: RenderEnv,
                        ghost each: Fixture -> Run) returns (o: Outcome)
    requires env == RenderEnv(attribute.arity, attribute.Resolution(gl), colorUniform.size,
                              colorUniform.matrix, colorUniform.Resolution(gl))
    requires forall g {:trigger FixtureRender(g, vbos, color, lineColor, env)} ::
               each(g) == FixtureRender(g, vbos, color, lineColor, env)
    modifies gl`log, attribute`ident, colorUniform`ident
    ensures o == ForEach(fs, each).outcome && gl.log == old(gl.log) + ForEach(fs, each).calls
    ensures attribute.Resolution(gl) == env.attrRes && colorUniform.Resolution(gl) == env.ures
  {
    ghost var done: seq<Call> := [];
    var i := 0;
    o := Pass;
    while i < |fs|
      invariant 0 <= i <= |fs|
      invariant o == Pass && gl.log == old(gl.log) + done
      invariant Then(Issued(done), ForEach(fs[i..], each)) == ForEach(fs, each)
      invariant attribute.Resolution(gl) == env.attrRes && colorUniform.Resolution(gl) == env.ures
    {
      assert fs[i..][0] == fs[i] && fs[i..][1..] == fs[i + 1..];
      o := RenderFixture(gl, fs[i], vbos, color, lineColor, attribute, colorUniform, env, each);
      ghost var delta := each(fs[i]).calls;
      ThenAssociative(Issued(done), Run(o, delta), ForEach(fs[i + 1..], each));
      if o.Fail? {
        return;
      }
      done := done + delta;
      i := i + 1;
    }
    assert fs[i..] == [];
  }

  /** One fixture of renderObject. */
  method RenderFixture(gl: Gl, f: Fixture, vbos: map<int, Vbo>, color: Color, lineColor: Color,
                       attribute: Attribute, colorUniform: Uniform, ghost env: RenderEnv,
                       ghost each: Fixture -> Run) returns (o: Outcome)
    requires env == RenderEnv(attribute.arity, attribute.Resolution(gl), colorUniform.size,
                              colorUniform.matrix, colorUniform.Resolution(gl))
    requires forall g {:trigger FixtureRender(g, vbos, color, lineColor, env)} ::
               each(g) == FixtureRender(g, vbos, color, lineColor, env)
    modifies gl`log, attribute`ident, colorUniform`ident
    ensures o == each(f).outcome && gl.log == old(gl.log) + each(f).calls
    ensures attribute.Resolution(gl) == env.attrRes && colorUniform.Resolution(gl) == env.ures
  {
    assert each(f) == FixtureRender(f, vbos, color, lineColor, env);
    match f.shape {
      case OtherShape =>
        o := Pass;
      case Polygon(vs) =>
        if f.id !in vbos {
          return Fail(MissingBuffer(f.id));
        }
        o := vbos[f.id].WithAttribute(gl, attribute, colorUniform, PolygonBody(color, lineColor, |vs|));
    }
  }
}
