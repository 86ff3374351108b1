/** The graphics backend as seen by the core: a log of the calls made on it.

    A shader program is identified by a number. A uniform write goes to the
    program that is active when it is made (glUseProgram state), so a write is
    only meaningful together with the `UseProgram` calls before it; `Resolve`
    pairs each write with the program it lands on. */
module Graphics {
  import opened Wrappers
  import opened Transforms

  type ShaderId = nat
  type MaterialId = nat

  /** A uniform value: a mat4, a vec3 or a float. */
  datatype Uniform = Mat4(m: Mat) | Vec3Value(v: Vec3) | FloatValue(f: real)

  datatype GLCall =
    | UseProgram(shader: ShaderId)                  // shader.use()
    | SetUniform(name: string, value: Uniform)      // shader.set_mat4 / set_vec3 / set_float
    | BindMaterial(material: MaterialId)            // material.use(): binds its textures
    | DrawTriangles(vertexCount: nat)               // glBindVertexArray + glDrawArrays(GL_TRIANGLES, 0, n)

  /** A uniform write together with the program it lands on (None: no program active). */
  datatype Write = Write(target: Option<ShaderId>, name: string, value: Uniform)

  /** The program active after `calls`, starting from `active`. */
  function ActiveAfter(active: Option<ShaderId>, calls: seq<GLCall>): Option<ShaderId>
    decreases |calls|
  {
    if calls == [] then active
    else if calls[0].UseProgram? then ActiveAfter(Some(calls[0].shader), calls[1..])
    else ActiveAfter(active, calls[1..])
  }

  /** The uniform writes in `calls`, in order, each paired with its target program. */
  function Resolve(active: Option<ShaderId>, calls: seq<GLCall>): seq<Write>
    decreases |calls|
  {
    if calls == [] then []
    else match calls[0]
      case UseProgram(s) => Resolve(Some(s), calls[1..])
      case SetUniform(n, v) => [Write(active, n, v)] + Resolve(active, calls[1..])
      case _ => Resolve(active, calls[1..])
  }

  /** Resolving a concatenation resolves the second part from the program the
      first part leaves active. */
  lemma {:induction false} ResolveAppend(active: Option<ShaderId>, a: seq<GLCall>, b: seq<GLCall>)
    ensures Resolve(active, a + b) == Resolve(active, a) + Resolve(ActiveAfter(active, a), b)
    ensures ActiveAfter(active, a + b) == ActiveAfter(ActiveAfter(active, a), b)
    decreases |a|
  {
    if a == [] {
      assert a + b == b;
    } else {
      assert (a + b)[1..] == a[1..] + b;
      var next := if a[0].UseProgram? then Some(a[0].shader) else active;
      ResolveAppend(next, a[1..], b);
    }
  }

  predicate OnlyUniformWrites(calls: seq<GLCall>) {
    forall k :: 0 <= k < |calls| ==> calls[k].SetUniform?
  }

  /** Activating a program and then writing uniforms lands every write on that
      program, whatever was active before, and leaves it active. */
  lemma {:induction false} UseThenWritesLand(active: Option<ShaderId>, s: ShaderId, writes: seq<GLCall>)
    requires OnlyUniformWrites(writes)
    ensures var r := Resolve(active, [UseProgram(s)] + writes);
            |r| == |writes| &&
            forall k :: 0 <= k < |r| ==> r[k] == Write(Some(s), writes[k].name, writes[k].value)
    ensures ActiveAfter(active, [UseProgram(s)] + writes) == Some(s)
    decreases |writes|
  {
    if writes == [] {
      assert [UseProgram(s)] + writes == [UseProgram(s)];
    } else {
      var init := writes[..|writes| - 1];
      var last := writes[|writes| - 1];
      UseThenWritesLand(active, s, init);
      assert [UseProgram(s)] + writes == ([UseProgram(s)] + init) + [last];
      ResolveAppend(active, [UseProgram(s)] + init, [last]);
    }
  }

  /** The backend: every call the core makes is appended to `calls`. */
  class GLContext {
    var calls: seq<GLCall>

    constructor ()
      ensures calls == []
    {
      calls := [];
    }

    method Use(shader: ShaderId)
      modifies this
      ensures calls == old(calls) + [UseProgram(shader)]
    {
      calls := calls + [UseProgram(shader)];
    }

    method Set(name: string, value: Uniform)
      modifies this
      ensures calls == old(calls) + [SetUniform(name, value)]
    {
      calls := calls + [SetUniform(name, value)];
    }

    method Bind(material: MaterialId)
      modifies this
      ensures calls == old(calls) + [BindMaterial(material)]
    {
      calls := calls + [BindMaterial(material)];
    }

    method Draw(vertexCount: nat)
      modifies this
      ensures calls == old(calls) + [DrawTriangles(vertexCount)]
    {
      calls := calls + [DrawTriangles(vertexCount)];
    }
  }
}
