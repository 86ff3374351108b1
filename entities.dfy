/** Entities: a model placed in the world with a cached model matrix, and the
    two kinds of light, which send their parameters to a shader as named
    uniforms every frame. */
module Entities {
  import opened Wrappers
  import opened Transforms
  import opened Graphics
  import opened Models

  /** A placed model. The model matrix is cached: it is computed at construction
      and by UpdateTransform, and nothing else touches it, so after the pose
      changes it is stale until UpdateTransform runs. */
  class Entity {
    var model: Model
    var position: Vec3
    /** Euler angles in degrees: x is pitch, y is yaw, z is roll. */
    var orientation: Vec3
    var scale: real
    var transformMatrix: Mat

    constructor (model: Model, position: Vec3, orientation: Vec3, scale: real)
      ensures this.model == model && this.position == position
      ensures this.orientation == orientation && this.scale == scale
      ensures transformMatrix == ModelTransform(position, orientation, scale)
      ensures Current()
    {
      this.model := model;
      this.position := position;
      this.orientation := orientation;
      this.scale := scale;
      new;
      transformMatrix := CalculateTransformMatrix();
    }

    /** The model matrix of the current pose; its factors, outermost first, are
        yaw, pitch, roll, the translation to the position and the uniform scale. */
    function CalculateTransformMatrix(): (m: Mat)
      reads this
      ensures Factors(m) == [Rotate(orientation.y, YAxis), Rotate(orientation.x, XAxis), Rotate(orientation.z, ZAxis),
                             Translate(position), Scale(Vec3(scale, scale, scale))]
    {
      ModelTransformFactors(position, orientation, scale);
      ModelTransform(position, orientation, scale)
    }

    /** The cached matrix is the one of the current pose. */
    predicate Current()
      reads this
    {
      transformMatrix == CalculateTransformMatrix()
    }

    /** The base per-frame update does nothing. */
    method Update()
      ensures unchanged(this)
    {
    }

    /** Recompute the cached matrix from the current pose; the pose is kept. */
    method UpdateTransform()
      modifies this`transformMatrix
      ensures transformMatrix == ModelTransform(position, orientation, scale)
      ensures Current()
    {
      transformMatrix := CalculateTransformMatrix();
    }

    /** Draw the model with the CACHED matrix; nothing is recomputed. */
    method Draw(gl: GLContext)
      modifies gl
      ensures gl.calls == old(gl.calls) + DrawCalls(model, transformMatrix)
      ensures unchanged(this)
    {
      Models.Draw(model, transformMatrix, gl);
    }
  }

  /** The calls DirLight.update makes: activate the shader, then the four
      dirLight fields in a fixed order. */
  function DirLightCalls(shader: ShaderId, direction: Vec3, ambient: Vec3, diffuse: Vec3, specular: Vec3): (calls: seq<GLCall>)
    ensures |calls| == 5 && calls[0] == UseProgram(shader) && OnlyUniformWrites(calls[1..])
  {
    [UseProgram(shader),
     SetUniform("dirLight.direction", Vec3Value(direction)),
     SetUniform("dirLight.ambient", Vec3Value(ambient)),
     SetUniform("dirLight.diffuse", Vec3Value(diffuse)),
     SetUniform("dirLight.specular", Vec3Value(specular))]
  }

  /** DirLight.update writes exactly direction, ambient, diffuse and specular,
      in that order, with the constructor's values, all on its own shader. */
  lemma DirLightWritesLand(active: Option<ShaderId>, shader: ShaderId, direction: Vec3, ambient: Vec3, diffuse: Vec3, specular: Vec3)
    ensures Resolve(active, DirLightCalls(shader, direction, ambient, diffuse, specular))
         == [Write(Some(shader), "dirLight.direction", Vec3Value(direction)),
             Write(Some(shader), "dirLight.ambient", Vec3Value(ambient)),
             Write(Some(shader), "dirLight.diffuse", Vec3Value(diffuse)),
             Write(Some(shader), "dirLight.specular", Vec3Value(specular))]
  {
    var calls := DirLightCalls(shader, direction, ambient, diffuse, specular);
    assert calls == [UseProgram(shader)] + calls[1..];
    UseThenWritesLand(active, shader, calls[1..]);
  }

  /** A directional light; its parameters never change after construction. */
  class DirLight {
    const shader: ShaderId
    const direction: Vec3
    const ambient: Vec3
    const diffuse: Vec3
    const specular: Vec3

    constructor (shader: ShaderId, direction: Vec3, ambient: Vec3, diffuse: Vec3, specular: Vec3)
      ensures this.shader == shader && this.direction == direction
      ensures this.ambient == ambient && this.diffuse == diffuse && this.specular == specular
    {
      this.shader := shader;
      this.direction := direction;
      this.ambient := ambient;
      this.diffuse := diffuse;
      this.specular := specular;
    }

    method Update(gl: GLContext)
      modifies gl
      ensures gl.calls == old(gl.calls) + DirLightCalls(shader, direction, ambient, diffuse, specular)
    {
      gl.Use(shader);
      gl.Set("dirLight.direction", Vec3Value(direction));
      gl.Set("dirLight.ambient", Vec3Value(ambient));
      gl.Set("dirLight.diffuse", Vec3Value(diffuse));
      gl.Set("dirLight.specular", Vec3Value(specular));
    }
  }

  /** Point-light attenuation terms and the ambient share of its colour. */
  const Constant := 1.0
  const Linear := 0.0
  const Quadratic := 0.0
  const AmbientFactor := 0.15

  /** The scale and orientation of a point light's marker cube. */
  const MarkerScale := 0.2
  const MarkerOrientation := Vec3(0.0, 0.0, 0.0)

  predicate IsDigit(c: char) {
    '0' as int <= c as int <= '9' as int
  }

  /** The value of a digit character; 0 for any other character. */
  function DigitValue(c: char): nat {
    if IsDigit(c) then c as int - '0' as int else 0
  }

  /** The number a string of decimal digits spells, most significant first. */
  function DecimalValue(s: string): nat
    decreases |s|
  {
    if s == [] then 0 else 10 * DecimalValue(s[..|s| - 1]) + DigitValue(s[|s| - 1])
  }

  /** The number an optionally signed decimal string spells. */
  function SignedValue(s: string): int {
    if |s| >= 1 && s[0] == '-' then -(DecimalValue(s[1..]) as int) else DecimalValue(s)
  }

  function DigitChar(d: nat): (c: char)
    requires d < 10
    ensures IsDigit(c) && DigitValue(c) == d
  {
    ('0' as int + d) as char
  }

  /** Decimal digits of n, most significant first, no leading zeros. */
  function NatToString(n: nat): (s: string)
    ensures |s| >= 1
    ensures forall k :: 0 <= k < |s| ==> IsDigit(s[k])
    ensures |s| == 1 <==> n < 10
    decreases n
  {
    if n < 10 then [DigitChar(n)] else NatToString(n / 10) + [DigitChar(n % 10)]
  }

  /** Python's `str` of an int: a minus sign before the digits when negative. */
  function IntToString(i: int): (s: string)
    ensures |s| >= 1 && s[0] == '-' <==> i < 0
    ensures forall k :: 0 <= k < |s| ==> s[k] != ']'
  {
    if i < 0 then "-" + NatToString(-i) else NatToString(i)
  }

  /** The digits NatToString writes spell n, and a number of two or more
      digits does not start with 0. */
  lemma {:induction false} NatToStringValue(n: nat)
    ensures DecimalValue(NatToString(n)) == n
    ensures |NatToString(n)| > 1 ==> NatToString(n)[0] != '0'
    decreases n
  {
    if n >= 10 {
      NatToStringValue(n / 10);
      var init := NatToString(n / 10);
      var s := NatToString(n);
      assert s[..|s| - 1] == init;
      assert s[0] == init[0];
      if |init| == 1 {
        assert DigitValue(init[0]) == n / 10;
      }
    }
  }

  /** IntToString writes the decimal spelling of i, signed. */
  lemma IntToStringValue(i: int)
    ensures SignedValue(IntToString(i)) == i
  {
    if i < 0 {
      NatToStringValue(-i);
      assert IntToString(i)[1..] == NatToString(-i);
    } else {
      NatToStringValue(i);
    }
  }

  lemma {:induction false} NatToStringInjective(a: nat, b: nat)
    requires NatToString(a) == NatToString(b)
    ensures a == b
    decreases a
  {
    var s := NatToString(a);
    if a >= 10 {
      assert b >= 10;
      assert NatToString(a / 10) == s[..|s| - 1] == NatToString(b / 10);
      NatToStringInjective(a / 10, b / 10);
      assert DigitChar(a % 10) == s[|s| - 1] == DigitChar(b % 10);
    }
  }

  /** Different ints print differently. */
  lemma IntToStringInjective(i: int, j: int)
    requires IntToString(i) == IntToString(j)
    ensures i == j
  {
    if i < 0 {
      assert IntToString(i)[1..] == NatToString(-i);
      assert IntToString(j)[1..] == NatToString(-j);
      NatToStringInjective(-i, -j);
    } else {
      NatToStringInjective(i, j);
    }
  }

  /** The uniform name `pointLights[<index>].<field>`. */
  function UniformName(index: int, field: string): string {
    "pointLights[" + IntToString(index) + "]." + field
  }

  /** Two strings made of a `]`-free part, a `]` and a rest agree only when
      the parts and the rests do. */
  lemma SplitAtBracket(a: string, x: string, b: string, y: string)
    requires forall k :: 0 <= k < |a| ==> a[k] != ']'
    requires forall k :: 0 <= k < |b| ==> b[k] != ']'
    requires a + "]" + x == b + "]" + y
    ensures a == b && x == y
  {
    var s := a + "]" + x;
    assert forall k :: 0 <= k < |a| ==> s[k] == a[k];
    assert forall k :: 0 <= k < |b| ==> s[k] == b[k];
    assert s[|a|] == ']' && s[|b|] == ']';
    assert |a| == |b|;
    assert a == s[..|a|];
    assert b == s[..|b|];
    assert x == s[|a| + 1..];
    assert y == s[|b| + 1..];
  }

  /** A point-light uniform name determines its light index and its field, so
      no two lights and no two fields ever write the same uniform. */
  lemma UniformNameInjective(i: int, f: string, j: int, g: string)
    requires UniformName(i, f) == UniformName(j, g)
    ensures i == j && f == g
  {
    var a, b := IntToString(i), IntToString(j);
    var s := UniformName(i, f);
    var p := |"pointLights["|;
    assert s[p..] == a + "]" + ("." + f);
    assert UniformName(j, g)[p..] == b + "]" + ("." + g);
    SplitAtBracket(a, "." + f, b, "." + g);
    IntToStringInjective(i, j);
    assert f == ("." + f)[1..];
    assert g == ("." + g)[1..];
  }

  /** The seven uniforms PointLight.update writes, in order. */
  function PointLightWrites(index: int, position: Vec3, color: Vec3): (writes: seq<GLCall>)
    ensures |writes| == 7 && OnlyUniformWrites(writes)
  {
    [SetUniform(UniformName(index, "position"), Vec3Value(position)),
     SetUniform(UniformName(index, "constant"), FloatValue(Constant)),
     SetUniform(UniformName(index, "linear"), FloatValue(Linear)),
     SetUniform(UniformName(index, "quadratic"), FloatValue(Quadratic)),
     SetUniform(UniformName(index, "ambient"), Vec3Value(color.Times(AmbientFactor))),
     SetUniform(UniformName(index, "diffuse"), Vec3Value(color)),
     SetUniform(UniformName(index, "specular"), Vec3Value(color))]
  }

  const PointLightFields: seq<string> := ["position", "constant", "linear", "quadratic", "ambient", "diffuse", "specular"]

  /** PointLight.update lands all seven writes on the light shader, each named
      `pointLights[<index>].<field>` for the fields in their fixed order, with
      position and colour values as the light holds them. */
  lemma PointLightWritesLand(active: Option<ShaderId>, shader: ShaderId, index: int, position: Vec3, color: Vec3)
    ensures var r := Resolve(active, [UseProgram(shader)] + PointLightWrites(index, position, color));
            |r| == 7 &&
            (forall k :: 0 <= k < 7 ==> r[k].target == Some(shader) && r[k].name == UniformName(index, PointLightFields[k])) &&
            r[0].value == Vec3Value(position) &&
            r[1].value == FloatValue(1.0) && r[2].value == FloatValue(0.0) && r[3].value == FloatValue(0.0) &&
            r[4].value == Vec3Value(color.Times(0.15)) &&
            r[5].value == Vec3Value(color) && r[6].value == Vec3Value(color)
  {
    UseThenWritesLand(active, shader, PointLightWrites(index, position, color));
  }

  /** Lights with different indices write disjoint sets of uniforms, and one
      light's seven writes all go to different uniforms. */
  lemma PointLightNamesDistinct(i: int, j: int, k: nat, l: nat)
    requires k < 7 && l < 7
    requires i != j || k != l
    ensures UniformName(i, PointLightFields[k]) != UniformName(j, PointLightFields[l])
  {
    if UniformName(i, PointLightFields[k]) == UniformName(j, PointLightFields[l]) {
      UniformNameInjective(i, PointLightFields[k], j, PointLightFields[l]);
    }
  }

  /** A point light: a small coloured marker cube drawn with the first shader,
      whose light parameters go to the second shader. The marker is an Entity
      held by the light. */
  class PointLight {
    const body: Entity
    const color: Vec3
    const shader: ShaderId
    const index: int

    constructor (shaders: seq<ShaderId>, color: Vec3, position: Vec3, index: int)
      requires |shaders| >= 2
      ensures fresh(body)
      ensures body.model == ColoredCube(color.x, color.y, color.z, shaders[0])
      ensures body.position == position && body.orientation == MarkerOrientation && body.scale == MarkerScale
      ensures body.Current()
      ensures this.color == color && shader == shaders[1] && this.index == index
    {
      body := new Entity(ColoredCube(color.x, color.y, color.z, shaders[0]), position, MarkerOrientation, MarkerScale);
      this.color := color;
      shader := shaders[1];
      this.index := index;
    }

    /** Activate the light shader and write the seven point-light uniforms; the
        position written is the marker's current position. */
    method Update(gl: GLContext)
      modifies gl
      ensures gl.calls == old(gl.calls) + [UseProgram(shader)] + PointLightWrites(index, body.position, color)
    {
      gl.Use(shader);
      gl.Set(UniformName(index, "position"), Vec3Value(body.position));
      gl.Set(UniformName(index, "constant"), FloatValue(Constant));
      gl.Set(UniformName(index, "linear"), FloatValue(Linear));
      gl.Set(UniformName(index, "quadratic"), FloatValue(Quadratic));
      gl.Set(UniformName(index, "ambient"), Vec3Value(color.Times(AmbientFactor)));
      gl.Set(UniformName(index, "diffuse"), Vec3Value(color));
      gl.Set(UniformName(index, "specular"), Vec3Value(color));
    }

    method Draw(gl: GLContext)
      modifies gl
      ensures gl.calls == old(gl.calls) + DrawCalls(body.model, body.transformMatrix)
    {
      body.Draw(gl);
    }
  }
}
