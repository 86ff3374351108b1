/** The meshes an entity can draw: the two constant cube tables, a model loaded
    from an OBJ file, their vertex counts, and what drawing one sends to the
    backend. Buffer creation and the vertex attribute layout calls are not
    modelled. */
module Models {
  import opened Wrappers
  import opened Transforms
  import opened Graphics
  import opened CubeMeshes
  import ObjMesh

  /** How the numbers of a vertex are laid out: x, y, z, r, g, b for the
      coloured cube; x, y, z, s, t, nx, ny, nz for the textured models. */
  datatype Layout = PositionColor | PositionTexNormal

  /** Numbers per vertex in a layout. */
  function Stride(layout: Layout): nat {
    match layout
    case PositionColor => 6
    case PositionTexNormal => 8
  }

  /** A model as its constructor leaves it: the flat vertex data, the program it
      draws with and, for textured models, the material it binds first. */
  datatype Model = Model(layout: Layout, vertices: seq<real>, material: Option<MaterialId>, shader: ShaderId)

  /** vertex_count: whole vertices in the data, `len(vertices) // stride`. */
  function VertexCount(m: Model): nat {
    |m.vertices| / Stride(m.layout)
  }

  /** Data of n whole vertices gives a vertex count of n. */
  lemma WholeVertices(m: Model, n: nat)
    requires |m.vertices| == Stride(m.layout) * n
    ensures VertexCount(m) == n
  {
  }

  /** TexturedCube(material, shader): the constant textured table. */
  function TexturedCube(material: MaterialId, shader: ShaderId): (m: Model)
    ensures m.layout == PositionTexNormal && m.material == Some(material) && m.shader == shader
    ensures |m.vertices| == 8 * 36 && VertexCount(m) == 36
  {
    TexturedTableSize();
    var m := Model(PositionTexNormal, PackTextured(TexturedCubeTable), Some(material), shader);
    WholeVertices(m, 36);
    m
  }

  /** ColoredCube(r, g, b, shader): the constant coloured table, every vertex
      carrying the colour (r, g, b); no material. */
  function ColoredCube(r: real, g: real, b: real, shader: ShaderId): (m: Model)
    ensures m.layout == PositionColor && m.material == None && m.shader == shader
    ensures |m.vertices| == 6 * 36 && VertexCount(m) == 36
    ensures forall k :: 0 <= k < 36 ==> m.vertices[6 * k + 3 .. 6 * k + 6] == [r, g, b]
  {
    var packed := PackColored(ColoredCubeTable(Vec3(r, g, b)));
    ColoredCubeColors(r, g, b, packed);
    var m := Model(PositionColor, packed, None, shader);
    WholeVertices(m, 36);
    m
  }

  /** OBJModel(filename, material, shader): load the mesh; a load error aborts
      construction. */
  method OpenObjModel(lines: seq<ObjMesh.Line>, material: MaterialId, shader: ShaderId)
    returns (m: Result<Model, ObjMesh.LoadError>)
    ensures m.Success? <==> ObjMesh.Load(lines).Success?
    ensures m.Success? ==> m.value == Model(PositionTexNormal, ObjMesh.Load(lines).value, Some(material), shader)
    ensures m.Failure? ==> m.error == ObjMesh.Load(lines).error
    ensures m.Success? && ObjMesh.WellShaped(lines) ==> VertexCount(m.value) == 3 * ObjMesh.Triangles(lines)
  {
    var vertices := ObjMesh.LoadMesh(lines);
    if vertices.Failure? {
      return Failure(vertices.error);
    }
    if ObjMesh.WellShaped(lines) {
      ObjMesh.LoadVertexCount(lines);
    }
    return Success(Model(PositionTexNormal, vertices.value, Some(material), shader));
  }

  /** Model.draw(transform): bind the material (textured models only), activate
      the model's program, set its "model" matrix, draw vertex_count vertices. */
  function DrawCalls(m: Model, transform: Mat): (calls: seq<GLCall>)
    ensures |calls| == if m.material.None? then 3 else 4
    ensures calls[|calls| - 1] == DrawTriangles(VertexCount(m))
    ensures m.material.Some? ==> calls[0] == BindMaterial(m.material.value)
    ensures m.material.None? ==> calls[0] == UseProgram(m.shader)
  {
    (if m.material.None? then [] else [BindMaterial(m.material.value)])
    + [UseProgram(m.shader), SetUniform("model", Mat4(transform)), DrawTriangles(VertexCount(m))]
  }

  /** A draw, with or without a material bound first: one write, of "model",
      landing on `s`. */
  lemma DrawSequenceResolves(active: Option<ShaderId>, head: seq<GLCall>, s: ShaderId, value: Uniform, n: nat)
    requires head == [] || (|head| == 1 && head[0].BindMaterial?)
    ensures Resolve(active, head + [UseProgram(s), SetUniform("model", value), DrawTriangles(n)])
         == [Write(Some(s), "model", value)]
  {
    var tail := [UseProgram(s), SetUniform("model", value), DrawTriangles(n)];
    ResolveAppend(active, head, tail);
    assert ActiveAfter(active, head) == active && Resolve(active, head) == [] by {
      if head != [] {
        assert head[1..] == [];
      }
    }
    assert tail[1..][1..][1..] == [];
    assert Resolve(Some(s), tail[1..][1..]) == [];
  }

  /** Drawing writes one uniform, "model", equal to the transform it was given;
      it lands on the model's own program, whatever program was active before. */
  lemma DrawWritesModelMatrix(active: Option<ShaderId>, m: Model, transform: Mat)
    ensures Resolve(active, DrawCalls(m, transform)) == [Write(Some(m.shader), "model", Mat4(transform))]
  {
    var n := VertexCount(m);
    if m.material.None? {
      DrawSequenceResolves(active, [], m.shader, Mat4(transform), n);
    } else {
      DrawSequenceResolves(active, [BindMaterial(m.material.value)], m.shader, Mat4(transform), n);
    }
  }

  /** Model.draw / TexturedModel.draw: the calls are made on the backend in
      the order DrawCalls lists them. */
  method Draw(m: Model, transform: Mat, gl: GLContext)
    modifies gl
    ensures gl.calls == old(gl.calls) + DrawCalls(m, transform)
  {
    if m.material.Some? {
      gl.Bind(m.material.value);
    }
    gl.Use(m.shader);
    gl.Set("model", Mat4(transform));
    gl.Draw(VertexCount(m));
  }
}
