/** Wavefront OBJ mesh assembly, as OBJModel.loadMesh does it.

    The file is read line by line. `v`, `vt` and `vn` lines append their numbers
    to three growing attribute lists; an `f` line names its corners as 1-based
    `a/b/c` references into those lists, is cut into a triangle fan
    (0, i+1, i+2), and each fan corner is appended to one flat list as its
    position components, then its texture components, then its normal
    components. Any other line is skipped. A malformed field or an index outside
    its list aborts the whole load.

    Lines arrive already split: the leading token and the parsed fields.
    `Step`/`Run`/`Load` are the specification; `LoadMesh` is the loop, proved
    to compute `Load`. */
module ObjMesh {
  import opened Wrappers

  /** A field of a line, seen the two ways the loader reads it: `number` is
      `float(field)` (None when the text is not a number), and `parts` is
      `field.split("/")` with each part read by `int` (None for a part that is
      not an integer). `"1.5"` is `Field(Some(1.5), [None])`, `"3/1/2"` is
      `Field(None, [Some(3), Some(1), Some(2)])`, and text that is neither, such
      as `"x"`, is `Field(None, [None])`. */
  datatype Field = Field(number: Option<real>, parts: seq<Option<int>>)

  /** A line: its leading token (the text before the first space) and its fields. */
  datatype Line = Line(flag: string, fields: seq<Field>)

  /** The exception that ends the load. MalformedField is the ValueError of a
      `float` or `int` that cannot read its text; IndexOutOfRange is the
      IndexError of a reference outside the list it indexes, or of a face field
      with fewer than three `/`-separated parts. */
  datatype LoadError = MalformedField | IndexOutOfRange

  /** The three raw attribute lists and the assembled output. */
  datatype MeshState = MeshState(v: seq<seq<real>>, vt: seq<seq<real>>, vn: seq<seq<real>>,
                                 vertices: seq<real>)

  const Start := MeshState([], [], [], [])

  // ---------------------------------------------------------------------------
  // Attribute lines

  /** `[float(x) for x in fields]`: every field must be a number. */
  function Numbers(fields: seq<Field>): (r: Result<seq<real>, LoadError>)
    ensures r.Success? <==> forall k :: 0 <= k < |fields| ==> fields[k].number.Some?
    ensures r.Failure? ==> r.error == MalformedField
    ensures r.Success? ==> |r.value| == |fields|
    ensures r.Success? ==> forall k :: 0 <= k < |fields| ==> r.value[k] == fields[k].number.value
    decreases |fields|
  {
    if fields == [] then Success([])
    else if fields[0].number.None? then Failure(MalformedField)
    else
      var rest :- Numbers(fields[1..]);
      Success([fields[0].number.value] + rest)
  }

  // ---------------------------------------------------------------------------
  // Face references

  /** `xs[ref - 1]` with Python list indexing: the reference is made 0-based,
      and a negative index counts from the end of the list. */
  function Lookup(xs: seq<seq<real>>, ref: int): (r: Result<seq<real>, LoadError>)
    ensures r.Success? ==> r.value in xs
  {
    var i := ref - 1;
    if 0 <= i < |xs| then Success(xs[i])
    else if -|xs| <= i < 0 then Success(xs[|xs| + i])
    else Failure(IndexOutOfRange)
  }

  /** A reference 1..n picks entry ref - 1. */
  lemma LookupIsOneBased(xs: seq<seq<real>>, ref: int)
    requires 1 <= ref <= |xs|
    ensures Lookup(xs, ref) == Success(xs[ref - 1])
  {
  }

  /** Reference 0 becomes index -1, which Python reads as the LAST entry. */
  lemma LookupZeroTakesLast(xs: seq<seq<real>>)
    requires |xs| > 0
    ensures Lookup(xs, 0) == Success(xs[|xs| - 1])
  {
  }

  /** A reference r <= 0 that stays within the list counts from its end:
      0 is the last entry, -1 the one before it, and so on. */
  lemma LookupNonPositiveCountsFromEnd(xs: seq<seq<real>>, ref: int)
    requires 1 - |xs| <= ref <= 0
    ensures Lookup(xs, ref) == Success(xs[|xs| + ref - 1])
  {
  }

  /** A lookup fails exactly when the reference is past the end, or so negative
      that even counting from the end leaves the list. */
  lemma LookupFails(xs: seq<seq<real>>, ref: int)
    ensures Lookup(xs, ref).Failure? <==> ref > |xs| || ref < 1 - |xs|
  {
  }

  /** `xs[int(l[i]) - 1]` for the parts `l` of a face field: a missing part is
      an IndexError, a part that is not an integer a ValueError, and a present
      integer is looked up. */
  function Component(parts: seq<Option<int>>, i: nat, xs: seq<seq<real>>): (r: Result<seq<real>, LoadError>)
    ensures r.Success? <==> i < |parts| && parts[i].Some? && Lookup(xs, parts[i].value).Success?
    ensures r.Success? ==> r.value in xs && r.value == Lookup(xs, parts[i].value).value
    ensures r == Failure(MalformedField) <==> i < |parts| && parts[i].None?
  {
    if i >= |parts| then Failure(IndexOutOfRange)
    else if parts[i].None? then Failure(MalformedField)
    else Lookup(xs, parts[i].value)
  }

  /** The corners of one face, as three parallel lists. */
  datatype Face = Face(positions: seq<seq<real>>, textures: seq<seq<real>>, normals: seq<seq<real>>) {
    predicate Aligned() {
      |positions| == |textures| == |normals|
    }
  }

  predicate Resolves(v: seq<seq<real>>, vt: seq<seq<real>>, vn: seq<seq<real>>, f: Field) {
    Component(f.parts, 0, v).Success? && Component(f.parts, 1, vt).Success? && Component(f.parts, 2, vn).Success?
  }

  /** The face's corners looked up in `v`, `vt` and `vn`, in field order; the
      first field whose three parts do not all resolve fails the face. */
  function CollectFace(v: seq<seq<real>>, vt: seq<seq<real>>, vn: seq<seq<real>>,
                       fields: seq<Field>): (r: Result<Face, LoadError>)
    ensures r.Success? <==> forall k :: 0 <= k < |fields| ==> Resolves(v, vt, vn, fields[k])
    ensures r.Success? ==> r.value.Aligned() && |r.value.positions| == |fields|
    ensures r.Success? ==> forall k :: 0 <= k < |fields| ==>
              && r.value.positions[k] == Component(fields[k].parts, 0, v).value
              && r.value.textures[k] == Component(fields[k].parts, 1, vt).value
              && r.value.normals[k] == Component(fields[k].parts, 2, vn).value
    decreases |fields|
  {
    if fields == [] then Success(Face([], [], []))
    else
      var init :- CollectFace(v, vt, vn, fields[..|fields| - 1]);
      var l := fields[|fields| - 1].parts;
      var position :- Component(l, 0, v);
      var texture :- Component(l, 1, vt);
      var normal :- Component(l, 2, vn);
      Success(Face(init.positions + [position], init.textures + [texture], init.normals + [normal]))
  }

  /** Once a prefix of the fields fails, the whole face fails with that error. */
  lemma {:induction false} CollectFaceFailurePersists(v: seq<seq<real>>, vt: seq<seq<real>>, vn: seq<seq<real>>,
                                                      fields: seq<Field>, j: nat)
    requires j <= |fields| && CollectFace(v, vt, vn, fields[..j]).Failure?
    ensures CollectFace(v, vt, vn, fields) == CollectFace(v, vt, vn, fields[..j])
    decreases |fields|
  {
    if j < |fields| {
      var init := fields[..|fields| - 1];
      assert init[..j] == fields[..j];
      CollectFaceFailurePersists(v, vt, vn, init, j);
    } else {
      assert fields[..j] == fields;
    }
  }

  /** Within the first failing field the parts are read in source order: the
      first of position, texture and normal that fails decides the face's
      error, whatever the later parts and fields hold. */
  lemma FirstFailingPartDecides(v: seq<seq<real>>, vt: seq<seq<real>>, vn: seq<seq<real>>,
                                fields: seq<Field>, j: nat)
    requires j < |fields| && CollectFace(v, vt, vn, fields[..j]).Success?
    ensures var l := fields[j].parts;
            Component(l, 0, v).Failure? ==>
              CollectFace(v, vt, vn, fields) == Failure(Component(l, 0, v).error)
    ensures var l := fields[j].parts;
            Component(l, 0, v).Success? && Component(l, 1, vt).Failure? ==>
              CollectFace(v, vt, vn, fields) == Failure(Component(l, 1, vt).error)
    ensures var l := fields[j].parts;
            Component(l, 0, v).Success? && Component(l, 1, vt).Success? && Component(l, 2, vn).Failure? ==>
              CollectFace(v, vt, vn, fields) == Failure(Component(l, 2, vn).error)
  {
    assert fields[..j + 1][..j] == fields[..j];
    if !Resolves(v, vt, vn, fields[j]) {
      CollectFaceFailurePersists(v, vt, vn, fields, j + 1);
    }
  }

  /** `f 9/x/1` read with fewer than nine `v` lines fails on `v[8]`, before
      `int("x")` is tried. */
  lemma OutOfRangeBeforeMalformed(v: seq<seq<real>>, vt: seq<seq<real>>, vn: seq<seq<real>>, rest: seq<Field>)
    requires |v| < 9
    ensures CollectFace(v, vt, vn, [Field(None, [Some(9), None, Some(1)])] + rest) == Failure(IndexOutOfRange)
  {
    var fields := [Field(None, [Some(9), None, Some(1)])] + rest;
    assert fields[..0] == [];
    FirstFailingPartDecides(v, vt, vn, fields, 0);
  }

  // ---------------------------------------------------------------------------
  // Triangle fans

  /** The fan `0, i+1, i+2` for i = 0 .. triangles-1; empty when triangles <= 0. */
  function FanOrder(triangles: int): (order: seq<nat>)
    ensures |order| == if triangles <= 0 then 0 else 3 * triangles
    ensures forall k :: 0 <= k < |order| ==> order[k] <= triangles + 1
    decreases triangles
  {
    if triangles <= 0 then [] else FanOrder(triangles - 1) + [0, triangles, triangles + 1]
  }

  /** Triangle i of the fan is (0, i+1, i+2). */
  lemma {:induction false} FanOrderAt(triangles: int, i: nat)
    requires i < triangles
    ensures FanOrder(triangles)[3 * i] == 0
    ensures FanOrder(triangles)[3 * i + 1] == i + 1
    ensures FanOrder(triangles)[3 * i + 2] == i + 2
    decreases triangles
  {
    if i < triangles - 1 {
      FanOrderAt(triangles - 1, i);
    }
  }

  /** The quad 0,1,2,3 unpacks to 0,1,2,0,2,3. */
  lemma FanOrderOfQuad()
    ensures FanOrder(4 - 2) == [0, 1, 2, 0, 2, 3]
  {
  }

  /** Every fan index addresses one of the face's n corners, and a face with
      n >= 3 corners makes n - 2 triangles, fewer corners none. */
  lemma FanFitsFace(n: nat)
    ensures var order := FanOrder(n - 2);
            && |order| == (if n >= 3 then 3 * (n - 2) else 0)
            && forall k :: 0 <= k < |order| ==> order[k] < n
  {
  }

  // ---------------------------------------------------------------------------
  // Assembly

  predicate Addresses(face: Face, order: seq<nat>) {
    forall k :: 0 <= k < |order| ==> order[k] < |face.positions|
  }

  /** The packed data of corner i: position, then texture, then normal components. */
  function Corner(face: Face, i: nat): seq<real>
    requires face.Aligned() && i < |face.positions|
  {
    face.positions[i] + face.textures[i] + face.normals[i]
  }

  /** The packed data of the corners named by `order`, in that order. */
  function Emit(face: Face, order: seq<nat>): seq<real>
    requires face.Aligned() && Addresses(face, order)
    decreases |order|
  {
    if order == [] then [] else Emit(face, order[..|order| - 1]) + Corner(face, order[|order| - 1])
  }

  /** When every corner packs to 8 numbers (x, y, z, s, t, nx, ny, nz), the
      output holds 8 numbers per fan index and the k-th group of 8 is the
      corner named by order[k]. */
  lemma {:induction false} EmitLayout(face: Face, order: seq<nat>)
    requires face.Aligned() && Addresses(face, order)
    requires forall i :: 0 <= i < |face.positions| ==> |Corner(face, i)| == 8
    ensures |Emit(face, order)| == 8 * |order|
    ensures forall k :: 0 <= k < |order| ==> Emit(face, order)[8 * k .. 8 * k + 8] == Corner(face, order[k])
    decreases |order|
  {
    if order != [] {
      var init := order[..|order| - 1];
      EmitLayout(face, init);
      var e := Emit(face, order);
      assert e == Emit(face, init) + Corner(face, order[|order| - 1]);
      forall k | 0 <= k < |order|
        ensures e[8 * k .. 8 * k + 8] == Corner(face, order[k])
      {
        if k < |init| {
          assert e[8 * k .. 8 * k + 8] == Emit(face, init)[8 * k .. 8 * k + 8];
        } else {
          assert e[8 * k .. 8 * k + 8] == Corner(face, order[|order| - 1]);
        }
      }
    }
  }

  /** One line's effect on the lists. */
  function Step(st: MeshState, line: Line): Result<MeshState, LoadError> {
    if line.flag == "v" then
      var l :- Numbers(line.fields);
      Success(st.(v := st.v + [l]))
    else if line.flag == "vt" then
      var l :- Numbers(line.fields);
      Success(st.(vt := st.vt + [l]))
    else if line.flag == "vn" then
      var l :- Numbers(line.fields);
      Success(st.(vn := st.vn + [l]))
    else if line.flag == "f" then
      var face :- CollectFace(st.v, st.vt, st.vn, line.fields);
      Success(st.(vertices := st.vertices + Emit(face, FanOrder(|line.fields| - 2))))
    else
      Success(st)
  }

  /** The lines processed in file order from `st`; the first failure aborts. */
  function Run(st: MeshState, lines: seq<Line>): Result<MeshState, LoadError>
    decreases |lines|
  {
    if lines == [] then Success(st)
    else
      var next :- Step(st, lines[0]);
      Run(next, lines[1..])
  }

  /** The assembled vertex list of a whole file. */
  function Load(lines: seq<Line>): Result<seq<real>, LoadError> {
    var st :- Run(Start, lines);
    Success(st.vertices)
  }

  // ---------------------------------------------------------------------------
  // The loader

  /** The loop over a face's fields, collecting its corners. */
  method CollectFaceVertices(v: seq<seq<real>>, vt: seq<seq<real>>, vn: seq<seq<real>>, fields: seq<Field>)
    returns (face: Result<Face, LoadError>)
    ensures face == CollectFace(v, vt, vn, fields)
  {
    var faceVertices: seq<seq<real>> := [];
    var faceTextures: seq<seq<real>> := [];
    var faceNormals: seq<seq<real>> := [];
    for j := 0 to |fields|
      invariant CollectFace(v, vt, vn, fields[..j]) == Success(Face(faceVertices, faceTextures, faceNormals))
    {
      var l := fields[j].parts;
      assert fields[..j + 1][..j] == fields[..j];
      var position := Component(l, 0, v);
      if position.Failure? {
        CollectFaceFailurePersists(v, vt, vn, fields, j + 1);
        return Failure(position.error);
      }
      faceVertices := faceVertices + [position.value];
      var texture := Component(l, 1, vt);
      if texture.Failure? {
        CollectFaceFailurePersists(v, vt, vn, fields, j + 1);
        return Failure(texture.error);
      }
      faceTextures := faceTextures + [texture.value];
      var normal := Component(l, 2, vn);
      if normal.Failure? {
        CollectFaceFailurePersists(v, vt, vn, fields, j + 1);
        return Failure(normal.error);
      }
      faceNormals := faceNormals + [normal.value];
    }
    assert fields[..|fields|] == fields;
    return Success(Face(faceVertices, faceTextures, faceNormals));
  }

  /** The loop building vertex_order for `trianglesInFace` triangles. */
  method BuildVertexOrder(trianglesInFace: int) returns (vertexOrder: seq<nat>)
    ensures vertexOrder == FanOrder(trianglesInFace)
  {
    vertexOrder := [];
    var i := 0;
    while i < trianglesInFace
      invariant 0 <= i <= if trianglesInFace < 0 then 0 else trianglesInFace
      invariant vertexOrder == FanOrder(i)
    {
      vertexOrder := vertexOrder + [0];
      vertexOrder := vertexOrder + [i + 1];
      vertexOrder := vertexOrder + [i + 2];
      i := i + 1;
    }
    assert trianglesInFace < 0 ==> FanOrder(trianglesInFace) == [];
  }

  /** The loop appending each fan corner's position, texture and normal numbers. */
  method AppendFace(vertices: seq<real>, face: Face, vertexOrder: seq<nat>) returns (out: seq<real>)
    requires face.Aligned() && Addresses(face, vertexOrder)
    ensures out == vertices + Emit(face, vertexOrder)
  {
    out := vertices;
    for k := 0 to |vertexOrder|
      invariant out == vertices + Emit(face, vertexOrder[..k])
    {
      var i := vertexOrder[k];
      assert vertexOrder[..k + 1][..k] == vertexOrder[..k];
      out := out + face.positions[i];
      out := out + face.textures[i];
      out := out + face.normals[i];
    }
    assert vertexOrder[..|vertexOrder|] == vertexOrder;
  }

  /** OBJModel.loadMesh over already-split lines. */
  method LoadMesh(lines: seq<Line>) returns (result: Result<seq<real>, LoadError>)
    ensures result == Load(lines)
  {
    var v: seq<seq<real>> := [];
    var vt: seq<seq<real>> := [];
    var vn: seq<seq<real>> := [];
    var vertices: seq<real> := [];
    var n := 0;
    while n < |lines|
      invariant n <= |lines|
      invariant Run(MeshState(v, vt, vn, vertices), lines[n..]) == Run(Start, lines)
    {
      var line := lines[n];
      assert lines[n..][1..] == lines[n + 1..];
      if line.flag == "v" {
        var l := Numbers(line.fields);
        if l.Failure? {
          return Failure(l.error);
        }
        v := v + [l.value];
      } else if line.flag == "vt" {
        var l := Numbers(line.fields);
        if l.Failure? {
          return Failure(l.error);
        }
        vt := vt + [l.value];
      } else if line.flag == "vn" {
        var l := Numbers(line.fields);
        if l.Failure? {
          return Failure(l.error);
        }
        vn := vn + [l.value];
      } else if line.flag == "f" {
        var face := CollectFaceVertices(v, vt, vn, line.fields);
        if face.Failure? {
          return Failure(face.error);
        }
        var trianglesInFace := |line.fields| - 2;
        var vertexOrder := BuildVertexOrder(trianglesInFace);
        vertices := AppendFace(vertices, face.value, vertexOrder);
      }
      n := n + 1;
    }
    return Success(vertices);
  }

  // ---------------------------------------------------------------------------
  // Properties of a whole load

  /** Lines whose leading token is not v, vt, vn or f change nothing. */
  lemma OtherLinesIgnored(st: MeshState, line: Line)
    requires line.flag !in {"v", "vt", "vn", "f"}
    ensures Step(st, line) == Success(st)
  {
  }

  /** Processing `a + b` is processing `a`, then `b` from where `a` left off. */
  lemma {:induction false} RunSplit(st: MeshState, a: seq<Line>, b: seq<Line>)
    ensures Run(st, a + b) == match Run(st, a)
                              case Failure(e) => Failure(e)
                              case Success(mid) => Run(mid, b)
    decreases |a|
  {
    if a == [] {
      assert a + b == b;
    } else {
      assert (a + b)[1..] == a[1..] + b;
      match Step(st, a[0])
      case Failure(_) =>
      case Success(next) => RunSplit(next, a[1..], b);
    }
  }

  predicate IsPrefix<T(==)>(a: seq<T>, b: seq<T>) {
    |a| <= |b| && b[..|a|] == a
  }

  lemma PrefixTransitive<T>(a: seq<T>, b: seq<T>, c: seq<T>)
    requires IsPrefix(a, b) && IsPrefix(b, c)
    ensures IsPrefix(a, c)
  {
    assert c[..|a|] == c[..|b|][..|a|];
  }

  /** One line only appends to the lists. */
  lemma StepExtends(st: MeshState, line: Line)
    requires Step(st, line).Success?
    ensures var next := Step(st, line).value;
            IsPrefix(st.v, next.v) && IsPrefix(st.vt, next.vt) && IsPrefix(st.vn, next.vn)
            && IsPrefix(st.vertices, next.vertices)
  {
    var next := Step(st, line).value;
    assert next.v[..|st.v|] == st.v;
    assert next.vt[..|st.vt|] == st.vt;
    assert next.vn[..|st.vn|] == st.vn;
    assert next.vertices[..|st.vertices|] == st.vertices;
  }

  /** The lists only grow: nothing already collected or emitted is changed. */
  lemma {:induction false} RunExtends(st: MeshState, lines: seq<Line>)
    requires Run(st, lines).Success?
    ensures var fin := Run(st, lines).value;
            IsPrefix(st.v, fin.v) && IsPrefix(st.vt, fin.vt) && IsPrefix(st.vn, fin.vn)
            && IsPrefix(st.vertices, fin.vertices)
    decreases |lines|
  {
    if lines != [] {
      var next := Step(st, lines[0]).value;
      var fin := Run(st, lines).value;
      assert Run(next, lines[1..]) == Run(st, lines);
      StepExtends(st, lines[0]);
      RunExtends(next, lines[1..]);
      PrefixTransitive(st.v, next.v, fin.v);
      PrefixTransitive(st.vt, next.vt, fin.vt);
      PrefixTransitive(st.vn, next.vn, fin.vn);
      PrefixTransitive(st.vertices, next.vertices, fin.vertices);
    }
  }

  /** The numbers of the lines with flag `flag`, in file order. */
  function Attributes(lines: seq<Line>, flag: string): seq<seq<real>>
    decreases |lines|
  {
    if lines == [] then []
    else if lines[0].flag == flag && Numbers(lines[0].fields).Success? then
      [Numbers(lines[0].fields).value] + Attributes(lines[1..], flag)
    else Attributes(lines[1..], flag)
  }

  /** After a successful run, each attribute list holds exactly the numbers of
      the attribute lines read, in file order. */
  lemma {:induction false} RunCollects(st: MeshState, lines: seq<Line>)
    requires Run(st, lines).Success?
    ensures var fin := Run(st, lines).value;
            && fin.v == st.v + Attributes(lines, "v")
            && fin.vt == st.vt + Attributes(lines, "vt")
            && fin.vn == st.vn + Attributes(lines, "vn")
    decreases |lines|
  {
    if lines == [] {
    } else {
      var next := Step(st, lines[0]).value;
      RunCollects(next, lines[1..]);
      var l := Numbers(lines[0].fields);
      if lines[0].flag == "v" {
        assert st.v + [l.value] + Attributes(lines[1..], "v") == st.v + ([l.value] + Attributes(lines[1..], "v"));
      } else if lines[0].flag == "vt" {
        assert st.vt + [l.value] + Attributes(lines[1..], "vt") == st.vt + ([l.value] + Attributes(lines[1..], "vt"));
      } else if lines[0].flag == "vn" {
        assert st.vn + [l.value] + Attributes(lines[1..], "vn") == st.vn + ([l.value] + Attributes(lines[1..], "vn"));
      }
    }
  }

  /** The face on line k is resolved against the attribute lines BEFORE it only. */
  lemma FaceSeesEarlierLines(lines: seq<Line>, k: nat)
    requires k < |lines| && Run(Start, lines[..k]).Success?
    ensures var st := Run(Start, lines[..k]).value;
            && Run(Start, lines[..k + 1]) == Step(st, lines[k])
            && st.v == Attributes(lines[..k], "v")
            && st.vt == Attributes(lines[..k], "vt")
            && st.vn == Attributes(lines[..k], "vn")
  {
    var st := Run(Start, lines[..k]).value;
    assert lines[..k + 1] == lines[..k] + [lines[k]];
    RunSplit(Start, lines[..k], [lines[k]]);
    RunCollects(Start, lines[..k]);
  }

  // ---------------------------------------------------------------------------
  // vertex_count of a loaded model

  /** v and vn lines carry 3 numbers, vt lines 2: the x, y, z, s, t, nx, ny, nz
      layout OBJModel declares to the GPU. */
  predicate WellShaped(lines: seq<Line>) {
    forall k :: 0 <= k < |lines| ==>
      && (lines[k].flag == "v" ==> |lines[k].fields| == 3)
      && (lines[k].flag == "vt" ==> |lines[k].fields| == 2)
      && (lines[k].flag == "vn" ==> |lines[k].fields| == 3)
  }

  predicate StateShaped(st: MeshState) {
    && (forall i :: 0 <= i < |st.v| ==> |st.v[i]| == 3)
    && (forall i :: 0 <= i < |st.vt| ==> |st.vt[i]| == 2)
    && (forall i :: 0 <= i < |st.vn| ==> |st.vn[i]| == 3)
  }

  /** n - 2 triangles for each face line of n >= 3 fields. */
  function Triangles(lines: seq<Line>): nat
    decreases |lines|
  {
    if lines == [] then 0 else LineTriangles(lines[0]) + Triangles(lines[1..])
  }

  /** Triangles a single line contributes. */
  function LineTriangles(line: Line): nat {
    if line.flag == "f" && |line.fields| >= 3 then |line.fields| - 2 else 0
  }

  /** One well-shaped line keeps the lists shaped and adds 24 numbers per triangle. */
  lemma StepLength(st: MeshState, line: Line)
    requires StateShaped(st) && WellShaped([line]) && Step(st, line).Success?
    ensures StateShaped(Step(st, line).value)
    ensures |Step(st, line).value.vertices| == |st.vertices| + 24 * LineTriangles(line)
  {
    assert [line][0] == line;
    if line.flag == "f" {
      var face := CollectFace(st.v, st.vt, st.vn, line.fields).value;
      forall i | 0 <= i < |face.positions| ensures |Corner(face, i)| == 8 {
        assert face.positions[i] in st.v && face.textures[i] in st.vt && face.normals[i] in st.vn;
      }
      EmitLayout(face, FanOrder(|line.fields| - 2));
    }
  }

  lemma {:induction false} RunLength(st: MeshState, lines: seq<Line>)
    requires StateShaped(st) && WellShaped(lines) && Run(st, lines).Success?
    ensures |Run(st, lines).value.vertices| == |st.vertices| + 24 * Triangles(lines)
    decreases |lines|
  {
    if lines != [] {
      var line := lines[0];
      assert WellShaped([line]) by {
        assert [line][0] == lines[0];
      }
      assert WellShaped(lines[1..]) by {
        forall k | 0 <= k < |lines[1..]| ensures lines[1..][k] == lines[k + 1] { }
      }
      StepLength(st, line);
      var next := Step(st, line).value;
      assert Run(next, lines[1..]) == Run(st, lines);
      RunLength(next, lines[1..]);
      assert Triangles(lines) == LineTriangles(line) + Triangles(lines[1..]);
    }
  }

  /** A well-shaped file loads to 8 numbers per corner and 3 corners per
      triangle, so len(vertices) // 8 is three times the triangle count. */
  lemma LoadVertexCount(lines: seq<Line>)
    requires WellShaped(lines) && Load(lines).Success?
    ensures |Load(lines).value| == 24 * Triangles(lines)
    ensures |Load(lines).value| / 8 == 3 * Triangles(lines)
  {
    RunLength(Start, lines);
  }
}
