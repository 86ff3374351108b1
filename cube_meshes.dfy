/** The two constant cube meshes: 36 vertices each, 12 triangles, two per
    face, listed face by face (back, front, left, right, bottom, top). */
module CubeMeshes {
  import opened Transforms

  /** One row of the textured cube table: x, y, z, s, t, nx, ny, nz. */
  datatype TexturedVertex = TexturedVertex(position: Vec3, s: real, t: real, normal: Vec3)

  /** One row of the coloured cube table: x, y, z, r, g, b. */
  datatype ColoredVertex = ColoredVertex(position: Vec3, color: Vec3)

  const TexturedCubeTable: seq<TexturedVertex> := [
      TexturedVertex(Vec3(-0.5, -0.5, -0.5),  0.0,  0.0, Vec3( 0.0,  0.0, -1.0)),
      TexturedVertex(Vec3( 0.5, -0.5, -0.5),  1.0,  0.0, Vec3( 0.0,  0.0, -1.0)),
      TexturedVertex(Vec3( 0.5,  0.5, -0.5),  1.0,  1.0, Vec3( 0.0,  0.0, -1.0)),

      TexturedVertex(Vec3( 0.5,  0.5, -0.5),  1.0,  1.0, Vec3( 0.0,  0.0, -1.0)),
      TexturedVertex(Vec3(-0.5,  0.5, -0.5),  0.0,  1.0, Vec3( 0.0,  0.0, -1.0)),
      TexturedVertex(Vec3(-0.5, -0.5, -0.5),  0.0,  0.0, Vec3( 0.0,  0.0, -1.0)),

      TexturedVertex(Vec3(-0.5, -0.5,  0.5),  0.0,  0.0, Vec3( 0.0,  0.0,  1.0)),
      TexturedVertex(Vec3( 0.5, -0.5,  0.5),  1.0,  0.0, Vec3( 0.0,  0.0,  1.0)),
      TexturedVertex(Vec3( 0.5,  0.5,  0.5),  1.0,  1.0, Vec3( 0.0,  0.0,  1.0)),

      TexturedVertex(Vec3( 0.5,  0.5,  0.5),  1.0,  1.0, Vec3( 0.0,  0.0,  1.0)),
      TexturedVertex(Vec3(-0.5,  0.5,  0.5),  0.0,  1.0, Vec3( 0.0,  0.0,  1.0)),
      TexturedVertex(Vec3(-0.5, -0.5,  0.5),  0.0,  0.0, Vec3( 0.0,  0.0,  1.0)),

      TexturedVertex(Vec3(-0.5,  0.5,  0.5),  1.0,  0.0, Vec3(-1.0,  0.0,  0.0)),
      TexturedVertex(Vec3(-0.5,  0.5, -0.5),  1.0,  1.0, Vec3(-1.0,  0.0,  0.0)),
      TexturedVertex(Vec3(-0.5, -0.5, -0.5),  0.0,  1.0, Vec3(-1.0,  0.0,  0.0)),

      TexturedVertex(Vec3(-0.5, -0.5, -0.5),  0.0,  1.0, Vec3(-1.0,  0.0,  0.0)),
      TexturedVertex(Vec3(-0.5, -0.5,  0.5),  0.0,  0.0, Vec3(-1.0,  0.0,  0.0)),
      TexturedVertex(Vec3(-0.5,  0.5,  0.5),  1.0,  0.0, Vec3(-1.0,  0.0,  0.0)),

      TexturedVertex(Vec3( 0.5,  0.5,  0.5),  1.0,  0.0, Vec3( 1.0,  0.0,  0.0)),
      TexturedVertex(Vec3( 0.5,  0.5, -0.5),  1.0,  1.0, Vec3( 1.0,  0.0,  0.0)),
      TexturedVertex(Vec3( 0.5, -0.5, -0.5),  0.0,  1.0, Vec3( 1.0,  0.0,  0.0)),

      TexturedVertex(Vec3( 0.5, -0.5, -0.5),  0.0,  1.0, Vec3( 1.0,  0.0,  0.0)),
      TexturedVertex(Vec3( 0.5, -0.5,  0.5),  0.0,  0.0, Vec3( 1.0,  0.0,  0.0)),
      TexturedVertex(Vec3( 0.5,  0.5,  0.5),  1.0,  0.0, Vec3( 1.0,  0.0,  0.0)),

      TexturedVertex(Vec3(-0.5, -0.5, -0.5),  0.0,  1.0, Vec3( 0.0, -1.0,  0.0)),
      TexturedVertex(Vec3( 0.5, -0.5, -0.5),  1.0,  1.0, Vec3( 0.0, -1.0,  0.0)),
      TexturedVertex(Vec3( 0.5, -0.5,  0.5),  1.0,  0.0, Vec3( 0.0, -1.0,  0.0)),

      TexturedVertex(Vec3( 0.5, -0.5,  0.5),  1.0,  0.0, Vec3( 0.0, -1.0,  0.0)),
      TexturedVertex(Vec3(-0.5, -0.5,  0.5),  0.0,  0.0, Vec3( 0.0, -1.0,  0.0)),
      TexturedVertex(Vec3(-0.5, -0.5, -0.5),  0.0,  1.0, Vec3( 0.0, -1.0,  0.0)),

      TexturedVertex(Vec3(-0.5,  0.5, -0.5),  0.0,  1.0, Vec3( 0.0,  1.0,  0.0)),
      TexturedVertex(Vec3( 0.5,  0.5, -0.5),  1.0,  1.0, Vec3( 0.0,  1.0,  0.0)),
      TexturedVertex(Vec3( 0.5,  0.5,  0.5),  1.0,  0.0, Vec3( 0.0,  1.0,  0.0)),

      TexturedVertex(Vec3( 0.5,  0.5,  0.5),  1.0,  0.0, Vec3( 0.0,  1.0,  0.0)),
      TexturedVertex(Vec3(-0.5,  0.5,  0.5),  0.0,  0.0, Vec3( 0.0,  1.0,  0.0)),
      TexturedVertex(Vec3(-0.5,  0.5, -0.5),  0.0,  1.0, Vec3( 0.0,  1.0,  0.0))
    ]

  function ColoredCubeTable(color: Vec3): seq<ColoredVertex> {
    [
      ColoredVertex(Vec3(-0.5, -0.5, -0.5), color),
      ColoredVertex(Vec3( 0.5, -0.5, -0.5), color),
      ColoredVertex(Vec3( 0.5,  0.5, -0.5), color),

      ColoredVertex(Vec3( 0.5,  0.5, -0.5), color),
      ColoredVertex(Vec3(-0.5,  0.5, -0.5), color),
      ColoredVertex(Vec3(-0.5, -0.5, -0.5), color),

      ColoredVertex(Vec3(-0.5, -0.5,  0.5), color),
      ColoredVertex(Vec3( 0.5, -0.5,  0.5), color),
      ColoredVertex(Vec3( 0.5,  0.5,  0.5), color),

      ColoredVertex(Vec3( 0.5,  0.5,  0.5), color),
      ColoredVertex(Vec3(-0.5,  0.5,  0.5), color),
      ColoredVertex(Vec3(-0.5, -0.5,  0.5), color),

      ColoredVertex(Vec3(-0.5,  0.5,  0.5), color),
      ColoredVertex(Vec3(-0.5,  0.5, -0.5), color),
      ColoredVertex(Vec3(-0.5, -0.5, -0.5), color),

      ColoredVertex(Vec3(-0.5, -0.5, -0.5), color),
      ColoredVertex(Vec3(-0.5, -0.5,  0.5), color),
      ColoredVertex(Vec3(-0.5,  0.5,  0.5), color),

      ColoredVertex(Vec3( 0.5,  0.5,  0.5), color),
      ColoredVertex(Vec3( 0.5,  0.5, -0.5), color),
      ColoredVertex(Vec3( 0.5, -0.5, -0.5), color),

      ColoredVertex(Vec3( 0.5, -0.5, -0.5), color),
      ColoredVertex(Vec3( 0.5, -0.5,  0.5), color),
      ColoredVertex(Vec3( 0.5,  0.5,  0.5), color),

      ColoredVertex(Vec3(-0.5, -0.5, -0.5), color),
      ColoredVertex(Vec3( 0.5, -0.5, -0.5), color),
      ColoredVertex(Vec3( 0.5, -0.5,  0.5), color),

      ColoredVertex(Vec3( 0.5, -0.5,  0.5), color),
      ColoredVertex(Vec3(-0.5, -0.5,  0.5), color),
      ColoredVertex(Vec3(-0.5, -0.5, -0.5), color),

      ColoredVertex(Vec3(-0.5,  0.5, -0.5), color),
      ColoredVertex(Vec3( 0.5,  0.5, -0.5), color),
      ColoredVertex(Vec3( 0.5,  0.5,  0.5), color),

      ColoredVertex(Vec3( 0.5,  0.5,  0.5), color),
      ColoredVertex(Vec3(-0.5,  0.5,  0.5), color),
      ColoredVertex(Vec3(-0.5,  0.5, -0.5), color)
    ]
  }

  /** The rows laid end to end, as the flat float tuple the buffer is filled from. */
  function PackTextured(rows: seq<TexturedVertex>): (packed: seq<real>)
    ensures |packed| == 8 * |rows|
    decreases |rows|
  {
    if rows == [] then []
    else
      var v := rows[0];
      [v.position.x, v.position.y, v.position.z, v.s, v.t, v.normal.x, v.normal.y, v.normal.z]
      + PackTextured(rows[1..])
  }

  function PackColored(rows: seq<ColoredVertex>): (packed: seq<real>)
    ensures |packed| == 6 * |rows|
    decreases |rows|
  {
    if rows == [] then []
    else
      var v := rows[0];
      [v.position.x, v.position.y, v.position.z, v.color.x, v.color.y, v.color.z]
      + PackColored(rows[1..])
  }

  /** Numbers 8k to 8k+7 of the packed textured rows are row k's x, y, z, s, t,
      nx, ny, nz, in that order. */
  lemma {:induction false} PackTexturedAt(rows: seq<TexturedVertex>, k: nat)
    requires k < |rows|
    ensures var v := rows[k];
            PackTextured(rows)[8 * k .. 8 * k + 8]
              == [v.position.x, v.position.y, v.position.z, v.s, v.t, v.normal.x, v.normal.y, v.normal.z]
    decreases k
  {
    if k > 0 {
      PackTexturedAt(rows[1..], k - 1);
      assert PackTextured(rows)[8 * k .. 8 * k + 8] == PackTextured(rows[1..])[8 * (k - 1) .. 8 * (k - 1) + 8];
    }
  }

  /** Numbers 6k to 6k+5 of the packed coloured rows are row k's x, y, z, r, g,
      b, in that order. */
  lemma {:induction false} PackColoredAt(rows: seq<ColoredVertex>, k: nat)
    requires k < |rows|
    ensures var v := rows[k];
            PackColored(rows)[6 * k .. 6 * k + 6]
              == [v.position.x, v.position.y, v.position.z, v.color.x, v.color.y, v.color.z]
    decreases k
  {
    if k > 0 {
      PackColoredAt(rows[1..], k - 1);
      assert PackColored(rows)[6 * k .. 6 * k + 6] == PackColored(rows[1..])[6 * (k - 1) .. 6 * (k - 1) + 6];
    }
  }

  /** Every packed coloured row carries the colour of its table row. */
  lemma {:induction false} PackColoredColors(rows: seq<ColoredVertex>, color: Vec3)
    requires forall k :: 0 <= k < |rows| ==> rows[k].color == color
    ensures forall k :: 0 <= k < |rows| ==> PackColored(rows)[6 * k + 3 .. 6 * k + 6] == [color.x, color.y, color.z]
  {
    var packed := PackColored(rows);
    forall k | 0 <= k < |rows|
      ensures packed[6 * k + 3 .. 6 * k + 6] == [color.x, color.y, color.z]
    {
      PackColoredAt(rows, k);
      var group := packed[6 * k .. 6 * k + 6];
      assert group[3] == color.x && group[4] == color.y && group[5] == color.z;
    }
  }

  /** The textured table holds 36 rows: 288 numbers packed. */
  lemma TexturedTableSize()
    ensures |TexturedCubeTable| == 36 && |PackTextured(TexturedCubeTable)| == 8 * 36
  {
  }

  /** The coloured table holds 36 rows: 216 numbers packed. */
  lemma ColoredTableSize(color: Vec3)
    ensures |ColoredCubeTable(color)| == 36 && |PackColored(ColoredCubeTable(color))| == 6 * 36
  {
  }

  /** Every row of the coloured table carries the one colour it was built with. */
  lemma ColoredTableColor(color: Vec3)
    ensures forall k :: 0 <= k < |ColoredCubeTable(color)| ==> ColoredCubeTable(color)[k].color == color
  {
  }

  /** In the packed coloured table, numbers 3 to 5 of every vertex are the colour. */
  lemma ColoredCubeColors(r: real, g: real, b: real, packed: seq<real>)
    requires packed == PackColored(ColoredCubeTable(Vec3(r, g, b)))
    ensures |packed| == 6 * 36
    ensures forall k :: 0 <= k < 36 ==> packed[6 * k + 3 .. 6 * k + 6] == [r, g, b]
  {
    var color := Vec3(r, g, b);
    ColoredTableSize(color);
    ColoredTableColor(color);
    PackColoredColors(ColoredCubeTable(color), color);
  }
}
