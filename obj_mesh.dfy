/**
 * Mesh building: loadOBJ's parse of an OBJ text into triangle positions (vertex lines are
 * collected, face lines are fan-triangulated), the flat-normal loop it shares with
 * createPyramidMesh, and the pyramid's fixed triangle list.
 *
 * Each line is taken already trimmed and split on runs of whitespace, as a list of tokens
 * (a blank line is the empty list). parseFloat and parseInt(_, 10) are parameters; a
 * parseInt that yields NaN is None.
 */
module ObjMesh {
  import opened Wrappers
  import opened Numeric

  /** parseFloat and parseInt(_, 10); None stands for NaN. */
  datatype Parsers = Parsers(parseFloat: string -> real, parseInt: string -> Option<int>)

  /** What loadOBJ returns: flat position and normal lists and the number of vertices. */
  datatype Mesh = Mesh(positions: seq<real>, normals: seq<real>, vertexCount: int)

  /** The parser's working lists: the `v` positions seen so far and the triangle positions emitted. */
  datatype ParseState = ParseState(temp: seq<Vec3>, positions: seq<real>)

  // ---------------------------------------------------------------- tokens and references

  /** A blank line or a comment line. */
  predicate Skipped(parts: seq<string>) {
    parts == [] || (parts[0] != [] && parts[0][0] == '#')
  }

  /** parts[i], or the empty string where the line has no such token. */
  function Token(parts: seq<string>, i: nat): string {
    if i < |parts| then parts[i] else ""
  }

  /** `ref.split("/")[0]`: the longest prefix without a slash, which ends at the first slash if any. */
  function BeforeSlash(s: string): (r: string)
    ensures r <= s
    ensures '/' !in r
    ensures r == s || s[|r|] == '/'
  {
    if s == [] then []
    else if s[0] == '/' then []
    else [s[0]] + BeforeSlash(s[1..])
  }

  /** The 0-based vertex index a face reference names: its leading integer less one. */
  function RefIndex(p: Parsers, ref: string): Option<int> {
    match p.parseInt(BeforeSlash(ref))
    case None => None
    case Some(n) => Some(n - 1)
  }

  /** A reference names a vertex already read. */
  predicate Resolves(p: Parsers, temp: seq<Vec3>, ref: string) {
    var ix := RefIndex(p, ref);
    ix.Some? && 0 <= ix.value < |temp|
  }

  /** The vertex a resolving reference names. */
  function Vertex(p: Parsers, temp: seq<Vec3>, ref: string): Vec3
    requires Resolves(p, temp, ref)
  {
    temp[RefIndex(p, ref).value]
  }

  /** The nine coordinates of a triangle, vertex by vertex. */
  function Coords(a: Vec3, b: Vec3, c: Vec3): seq<real> {
    [a.x, a.y, a.z, b.x, b.y, b.z, c.x, c.y, c.z]
  }

  // ---------------------------------------------------------------- faces

  /**
   * The fan of a face from triangle k on: (refs[0], refs[k], refs[k+1]), (refs[0], refs[k+1],
   * refs[k+2]), ... Reading a vertex that does not exist throws in the source: None.
   */
  function FanFrom(p: Parsers, temp: seq<Vec3>, refs: seq<string>, k: nat): Option<seq<real>>
    requires 1 <= k < |refs|
    decreases |refs| - k
  {
    if k == |refs| - 1 then Some([])
    else if !(Resolves(p, temp, refs[0]) && Resolves(p, temp, refs[k]) && Resolves(p, temp, refs[k + 1])) then None
    else
      var t := Coords(Vertex(p, temp, refs[0]), Vertex(p, temp, refs[k]), Vertex(p, temp, refs[k + 1]));
      match FanFrom(p, temp, refs, k + 1)
      case None => None
      case Some(rest) => Some(t + rest)
  }

  /**
   * The fan from triangle k succeeds exactly when it has no triangles left or every reference
   * it reads (refs[0] and refs[k..]) names a vertex already read.
   */
  lemma {:induction false} FanFromDefined(p: Parsers, temp: seq<Vec3>, refs: seq<string>, k: nat)
    requires 1 <= k < |refs|
    ensures FanFrom(p, temp, refs, k).Some? <==>
      (k == |refs| - 1 || (Resolves(p, temp, refs[0]) && forall j :: k <= j < |refs| ==> Resolves(p, temp, refs[j])))
    decreases |refs| - k
  {
    if k < |refs| - 1 {
      FanFromDefined(p, temp, refs, k + 1);
    }
  }

  /**
   * The t-th triangle of `r`, a fan starting at triangle k, is (refs[0], refs[k+t], refs[k+t+1])
   * and those three references resolve.
   */
  predicate FanTriangle(p: Parsers, temp: seq<Vec3>, refs: seq<string>, r: seq<real>, k: nat, t: nat) {
    && k + t + 1 < |refs| && 9 * t + 9 <= |r|
    && Resolves(p, temp, refs[0]) && Resolves(p, temp, refs[k + t]) && Resolves(p, temp, refs[k + t + 1])
    && r[9 * t..9 * t + 9] == Coords(Vertex(p, temp, refs[0]), Vertex(p, temp, refs[k + t]), Vertex(p, temp, refs[k + t + 1]))
  }

  /**
   * A successful fan from triangle k has 9 coordinates per triangle, |refs| - 1 - k
   * triangles, and its t-th triangle is (refs[0], refs[k+t], refs[k+t+1]).
   */
  lemma {:induction false} FanFromContents(p: Parsers, temp: seq<Vec3>, refs: seq<string>, k: nat)
    requires 1 <= k < |refs| && FanFrom(p, temp, refs, k).Some?
    ensures var r := FanFrom(p, temp, refs, k).value;
      && |r| == 9 * (|refs| - 1 - k)
      && forall t :: 0 <= t < |refs| - 1 - k ==> FanTriangle(p, temp, refs, r, k, t)
    decreases |refs| - k
  {
    if k < |refs| - 1 {
      FanFromContents(p, temp, refs, k + 1);
      var r := FanFrom(p, temp, refs, k).value;
      var rest := FanFrom(p, temp, refs, k + 1).value;
      var tri := Coords(Vertex(p, temp, refs[0]), Vertex(p, temp, refs[k]), Vertex(p, temp, refs[k + 1]));
      assert r == tri + rest;
      forall t | 0 <= t < |refs| - 1 - k
        ensures FanTriangle(p, temp, refs, r, k, t)
      {
        NinesOfConcat(tri, rest, t);
        if t > 0 {
          assert FanTriangle(p, temp, refs, rest, k + 1, t - 1);
          assert k + t == (k + 1) + (t - 1);
        }
      }
    }
  }

  /** Block t of nine after a leading block of nine is block t - 1 of the rest. */
  lemma NinesOfConcat(head: seq<real>, rest: seq<real>, t: nat)
    requires |head| == 9 && 9 * t + 9 <= |head| + |rest|
    ensures t == 0 ==> (head + rest)[9 * t..9 * t + 9] == head
    ensures t > 0 ==> (head + rest)[9 * t..9 * t + 9] == rest[9 * (t - 1)..9 * (t - 1) + 9]
  {
    if t == 0 {
      assert (head + rest)[0..9] == head;
    } else {
      assert (head + rest)[9 * t..9 * t + 9] == rest[9 * t - 9..9 * t];
    }
  }

  /** The positions a face with refs (at least three) emits. */
  function FacePositions(p: Parsers, temp: seq<Vec3>, refs: seq<string>): Option<seq<real>>
    requires 3 <= |refs|
  {
    FanFrom(p, temp, refs, 1)
  }

  /**
   * A face of k >= 3 references succeeds exactly when all of them resolve, and then emits
   * k - 2 triangles, the t-th being (refs[0], refs[t+1], refs[t+2]).
   */
  lemma FaceTriangulation(p: Parsers, temp: seq<Vec3>, refs: seq<string>)
    requires 3 <= |refs|
    ensures FacePositions(p, temp, refs).Some? <==> forall j :: 0 <= j < |refs| ==> Resolves(p, temp, refs[j])
    ensures FacePositions(p, temp, refs).Some? ==>
      var r := FacePositions(p, temp, refs).value;
      && |r| == 9 * (|refs| - 2)
      && forall t :: 0 <= t < |refs| - 2 ==> FanTriangle(p, temp, refs, r, 1, t)
  {
    FanFromDefined(p, temp, refs, 1);
    if FacePositions(p, temp, refs).Some? {
      FanFromContents(p, temp, refs, 1);
    }
  }

  /** `acc` followed by a successful fan; a failed fan stays failed. */
  function Prepend(acc: seq<real>, r: Option<seq<real>>): Option<seq<real>> {
    match r
    case None => None
    case Some(rest) => Some(acc + rest)
  }

  /** One triangle of the fan whose three references resolve: it leads the rest of the fan. */
  lemma FanStep(p: Parsers, temp: seq<Vec3>, refs: seq<string>, k: nat, acc: seq<real>, tri: seq<real>)
    requires 1 <= k < |refs| - 1
    requires Resolves(p, temp, refs[0]) && Resolves(p, temp, refs[k]) && Resolves(p, temp, refs[k + 1])
    requires tri == Coords(Vertex(p, temp, refs[0]), Vertex(p, temp, refs[k]), Vertex(p, temp, refs[k + 1]))
    ensures Prepend(acc, FanFrom(p, temp, refs, k)) == Prepend(acc + tri, FanFrom(p, temp, refs, k + 1))
  {
    match FanFrom(p, temp, refs, k + 1)
    case None =>
    case Some(rest) =>
      assert acc + (tri + rest) == (acc + tri) + rest;
  }

  /** loadOBJ's inner loop over one face: pushes the fan's triangles, failing on a missing vertex. */
  method EmitFace(p: Parsers, temp: seq<Vec3>, refs: seq<string>) returns (r: Option<seq<real>>)
    requires 3 <= |refs|
    ensures r == FacePositions(p, temp, refs)
  {
    var positions: seq<real> := [];
    match FanFrom(p, temp, refs, 1) {
      case None =>
      case Some(all) => assert [] + all == all;
    }
    var i0 := RefIndex(p, refs[0]);
    for k := 1 to |refs| - 1
      invariant Prepend(positions, FanFrom(p, temp, refs, k)) == FacePositions(p, temp, refs)
    {
      var i1 := RefIndex(p, refs[k]);
      var i2 := RefIndex(p, refs[k + 1]);
      if !(i0.Some? && 0 <= i0.value < |temp| && i1.Some? && 0 <= i1.value < |temp| && i2.Some? && 0 <= i2.value < |temp|) {
        return None;
      }
      var v0, v1, v2 := temp[i0.value], temp[i1.value], temp[i2.value];
      var tri := [v0.x, v0.y, v0.z, v1.x, v1.y, v1.z, v2.x, v2.y, v2.z];
      FanStep(p, temp, refs, k, positions, tri);
      positions := positions + tri;
    }
    r := Some(positions);
    assert positions + [] == positions;
  }

  // ---------------------------------------------------------------- lines

  /**
   * One line: `v x y z` appends a vertex, `f r1 r2 r3 ...` with at least three references
   * appends its fan, anything else (blank, comment, short face, other keyword) changes nothing.
   */
  function ParseLine(p: Parsers, s: ParseState, parts: seq<string>): Option<ParseState> {
    if Skipped(parts) then Some(s)
    else if parts[0] == "v" then
      Some(s.(temp := s.temp + [Vec3(p.parseFloat(Token(parts, 1)), p.parseFloat(Token(parts, 2)), p.parseFloat(Token(parts, 3)))]))
    else if parts[0] == "f" && 3 <= |parts[1..]| then
      match FacePositions(p, s.temp, parts[1..])
      case None => None
      case Some(ps) => Some(s.(positions := s.positions + ps))
    else Some(s)
  }

  /** The parse of lines i, i+1, ... from state s; None once a face reads a missing vertex. */
  function ParseFrom(p: Parsers, lines: seq<seq<string>>, i: nat, s: ParseState): Option<ParseState>
    requires i <= |lines|
    decreases |lines| - i
  {
    if i == |lines| then Some(s)
    else match ParseLine(p, s, lines[i])
      case None => None
      case Some(s') => ParseFrom(p, lines, i + 1, s')
  }

  /**
   * A line never removes anything: the vertices only grow, by one for a `v` line; the
   * positions only grow, and by a whole number of triangles. Blank and `#` lines, faces with
   * fewer than three references and lines with any other keyword change nothing.
   */
  lemma ParseLineGrows(p: Parsers, s: ParseState, parts: seq<string>)
    requires ParseLine(p, s, parts).Some?
    ensures var s' := ParseLine(p, s, parts).value;
      && s.temp <= s'.temp && |s'.temp| <= |s.temp| + 1
      && s.positions <= s'.positions
      && (|s'.positions| - |s.positions|) % 9 == 0
      && (Skipped(parts) ==> s' == s)
      && (!Skipped(parts) && parts[0] == "v" ==> |s'.temp| == |s.temp| + 1 && s'.positions == s.positions)
      && (!Skipped(parts) && parts[0] == "f" && |parts| < 4 ==> s' == s)
      && (!Skipped(parts) && parts[0] != "v" && parts[0] != "f" ==> s' == s)
  {
    if !Skipped(parts) && parts[0] != "v" && parts[0] == "f" && 3 <= |parts[1..]| {
      FaceTriangulation(p, s.temp, parts[1..]);
    }
  }

  /** The whole parse keeps the positions a whole number of triangles and only extends them. */
  lemma {:induction false} ParseFromGrows(p: Parsers, lines: seq<seq<string>>, i: nat, s: ParseState)
    requires i <= |lines| && ParseFrom(p, lines, i, s).Some?
    ensures var r := ParseFrom(p, lines, i, s).value;
      s.positions <= r.positions && (|r.positions| - |s.positions|) % 9 == 0 && |r.temp| >= |s.temp|
    decreases |lines| - i
  {
    if i < |lines| {
      ParseLineGrows(p, s, lines[i]);
      ParseFromGrows(p, lines, i + 1, ParseLine(p, s, lines[i]).value);
    }
  }

  /** loadOBJ's loop over lines, taking each line's branch as the source does. */
  method ParseLines(p: Parsers, lines: seq<seq<string>>) returns (r: Option<ParseState>)
    ensures r == ParseFrom(p, lines, 0, ParseState([], []))
  {
    var temp: seq<Vec3> := [];
    var positions: seq<real> := [];
    for i := 0 to |lines|
      invariant ParseFrom(p, lines, i, ParseState(temp, positions)) == ParseFrom(p, lines, 0, ParseState([], []))
    {
      var parts := lines[i];
      if parts == [] || (parts[0] != [] && parts[0][0] == '#') {
        continue;
      }
      var kind := parts[0];
      if kind == "v" {
        temp := temp + [Vec3(p.parseFloat(Token(parts, 1)), p.parseFloat(Token(parts, 2)), p.parseFloat(Token(parts, 3)))];
      } else if kind == "f" {
        var refs := parts[1..];
        if |refs| < 3 {
          continue;
        }
        var face := EmitFace(p, temp, refs);
        if face.None? {
          return None;
        }
        positions := positions + face.value;
      }
    }
    r := Some(ParseState(temp, positions));
  }

  // ---------------------------------------------------------------- normals

  /** The edge from the first vertex of the triangle at positions[i..i+9] to its vertex j (1 or 2). */
  function Edge(ps: seq<real>, i: nat, j: nat): Vec3
    requires 1 <= j <= 2 && i + 9 <= |ps|
  {
    Vec3(ps[i + 3 * j] - ps[i], ps[i + 3 * j + 1] - ps[i + 1], ps[i + 3 * j + 2] - ps[i + 2])
  }

  function Cross(u: Vec3, v: Vec3): Vec3 {
    Vec3(u.y * v.z - u.z * v.y, u.z * v.x - u.x * v.z, u.x * v.y - u.y * v.x)
  }

  function Dot(a: Vec3, b: Vec3): real {
    a.x * b.x + a.y * b.y + a.z * b.z
  }

  /** `n` divided by `h`, or by 1 where `h` is 0 (the `|| 1.0` of the source). */
  function DivideBy(n: Vec3, h: real): Vec3 {
    var len := if h == 0.0 then 1.0 else h;
    Vec3(n.x / len, n.y / len, n.z / len)
  }

  /**
   * The flat normal of the triangle at positions[i..i+9]: the cross product of its two edges
   * from the first vertex, divided by its length, or by 1 when the length is 0.
   */
  function FaceNormal(m: MathLib, ps: seq<real>, i: nat): Vec3
    requires i + 9 <= |ps|
  {
    var n := Cross(Edge(ps, i, 1), Edge(ps, i, 2));
    DivideBy(n, m.hypot3(n.x, n.y, n.z))
  }

  /** A triangle's normal entries: its face normal once per vertex. */
  function Triple(n: Vec3): seq<real> {
    [n.x, n.y, n.z, n.x, n.y, n.z, n.x, n.y, n.z]
  }

  /** The normal list for the triangles from the t-th on: each triangle's normal, three times. */
  function NormalsFrom(m: MathLib, ps: seq<real>, t: nat): seq<real>
    requires 9 * t <= |ps|
    decreases |ps| - 9 * t
  {
    if |ps| < 9 * t + 9 then []
    else Triple(FaceNormal(m, ps, 9 * t)) + NormalsFrom(m, ps, t + 1)
  }

  /** The normals of a whole triangle list. */
  function FlatNormals(m: MathLib, ps: seq<real>): seq<real>
    requires |ps| % 9 == 0
  {
    NormalsFrom(m, ps, 0)
  }

  /**
   * For a whole number of triangles there is one normal entry per position entry, and the
   * three vertex normals of each triangle from the t-th on are that triangle's FaceNormal.
   */
  lemma {:induction false} NormalsFromShape(m: MathLib, ps: seq<real>, t: nat)
    requires |ps| % 9 == 0 && 9 * t <= |ps|
    ensures var ns := NormalsFrom(m, ps, t);
      && |ns| == |ps| - 9 * t
      && forall u :: t <= u < |ps| / 9 ==> ns[9 * u - 9 * t..9 * u - 9 * t + 9] == Triple(FaceNormal(m, ps, 9 * u))
    decreases |ps| - 9 * t
  {
    if 9 * t + 9 <= |ps| {
      NormalsFromShape(m, ps, t + 1);
      var rest := NormalsFrom(m, ps, t + 1);
      var head := Triple(FaceNormal(m, ps, 9 * t));
      forall u | t <= u < |ps| / 9
        ensures NormalsFrom(m, ps, t)[9 * u - 9 * t..9 * u - 9 * t + 9] == Triple(FaceNormal(m, ps, 9 * u))
      {
        NinesOfConcat(head, rest, u - t);
      }
    }
  }

  /** The cross product of two vectors is perpendicular to each of them. */
  lemma CrossPerpendicular(u: Vec3, v: Vec3)
    ensures Dot(Cross(u, v), u) == 0.0 && Dot(Cross(u, v), v) == 0.0
  {
  }

  /**
   * With Math.hypot behaving as a length, a face normal is perpendicular to both edges of its
   * triangle, and it is a unit vector unless the triangle is degenerate, when it has length 0.
   */
  lemma FaceNormalSound(m: MathLib, ps: seq<real>, i: nat)
    requires Hypot3Sound(m) && i + 9 <= |ps|
    ensures var n := FaceNormal(m, ps, i);
      && Dot(n, Edge(ps, i, 1)) == 0.0
      && Dot(n, Edge(ps, i, 2)) == 0.0
      && (Dot(n, n) == 1.0 || Dot(n, n) == 0.0)
  {
    var u, v := Edge(ps, i, 1), Edge(ps, i, 2);
    var c := Cross(u, v);
    CrossPerpendicular(u, v);
    var h := m.hypot3(c.x, c.y, c.z);
    assert 0.0 <= h && h * h == c.x * c.x + c.y * c.y + c.z * c.z;
    ScaledNormal(c, u, h);
    ScaledNormal(c, v, h);
  }

  /**
   * A vector n of length h, perpendicular to u, divided by h (by 1 if h is 0): still
   * perpendicular to u, and a unit vector unless h is 0, when it has length 0.
   */
  lemma ScaledNormal(n: Vec3, u: Vec3, h: real)
    requires Dot(n, u) == 0.0
    requires 0.0 <= h && h * h == n.x * n.x + n.y * n.y + n.z * n.z
    ensures var d := DivideBy(n, h);
      Dot(d, u) == 0.0 && (Dot(d, d) == 1.0 || (h == 0.0 && Dot(d, d) == 0.0))
  {
    var len := if h == 0.0 then 1.0 else h;
    ScaledPerpendicular(n.x, n.y, n.z, u.x, u.y, u.z, len);
    if h != 0.0 {
      UnitAfterDivide(n.x, n.y, n.z, h);
    }
  }

  /** Scaling a vector keeps it perpendicular to whatever it was perpendicular to. */
  lemma ScaledPerpendicular(nx: real, ny: real, nz: real, ux: real, uy: real, uz: real, len: real)
    requires len != 0.0 && nx * ux + ny * uy + nz * uz == 0.0
    ensures (nx / len) * ux + (ny / len) * uy + (nz / len) * uz == 0.0
  {
    var k := 1.0 / len;
    assert nx / len == nx * k && ny / len == ny * k && nz / len == nz * k;
    calc {
      (nx * k) * ux + (ny * k) * uy + (nz * k) * uz;
      (nx * ux + ny * uy + nz * uz) * k;
      0.0;
    }
  }

  /** The normal of one triangle as the loop computes it: the edges, their cross product, the length. */
  method TriangleNormal(m: MathLib, ps: seq<real>, i: nat) returns (n: Vec3)
    requires i + 9 <= |ps|
    ensures n == FaceNormal(m, ps, i)
  {
    var ux, uy, uz := ps[i + 3] - ps[i], ps[i + 4] - ps[i + 1], ps[i + 5] - ps[i + 2];
    var vx, vy, vz := ps[i + 6] - ps[i], ps[i + 7] - ps[i + 1], ps[i + 8] - ps[i + 2];
    var nx := uy * vz - uz * vy;
    var ny := uz * vx - ux * vz;
    var nz := ux * vy - uy * vx;
    assert Edge(ps, i, 1) == Vec3(ux, uy, uz) && Edge(ps, i, 2) == Vec3(vx, vy, vz);
    assert Vec3(nx, ny, nz) == Cross(Vec3(ux, uy, uz), Vec3(vx, vy, vz));
    var len := m.hypot3(nx, ny, nz);
    if len == 0.0 {
      len := 1.0;
    }
    n := Vec3(nx / len, ny / len, nz / len);
  }

  /** One pass of the normal loop: push the three copies of triangle t's normal. */
  method PushNormals(m: MathLib, ps: seq<real>, t: nat, normals: seq<real>, ghost target: seq<real>)
    returns (normals': seq<real>)
    requires 9 * t + 9 <= |ps| && normals + NormalsFrom(m, ps, t) == target
    ensures normals' + NormalsFrom(m, ps, t + 1) == target
  {
    var n := TriangleNormal(m, ps, 9 * t);
    ghost var rest := NormalsFrom(m, ps, t + 1);
    assert NormalsFrom(m, ps, t) == Triple(n) + rest;
    assert normals + (Triple(n) + rest) == (normals + Triple(n)) + rest;
    normals' := normals + Triple(n);
  }

  /** The per-face normal loop of loadOBJ and createPyramidMesh, nine positions at a time. */
  method ComputeNormals(m: MathLib, ps: seq<real>) returns (normals: seq<real>)
    requires |ps| % 9 == 0
    ensures normals == FlatNormals(m, ps)
  {
    ghost var count := |ps| / 9;
    assert |ps| == 9 * count;
    normals := [];
    var i := 0;
    var t := 0;
    while i < |ps|
      invariant i == 9 * t && t <= count
      invariant normals + NormalsFrom(m, ps, t) == FlatNormals(m, ps)
      decreases |ps| - i
    {
      normals := PushNormals(m, ps, t, normals, FlatNormals(m, ps));
      i, t := i + 9, t + 1;
    }
    assert normals + [] == normals;
  }

  // ---------------------------------------------------------------- meshes

  /** loadOBJ on the lines of a file: the parse, then the normals; None if the parse throws. */
  function LoadedMesh(p: Parsers, m: MathLib, lines: seq<seq<string>>): Option<Mesh> {
    match ParseFrom(p, lines, 0, ParseState([], []))
    case None => None
    case Some(s) =>
      ParseFromGrows(p, lines, 0, ParseState([], []));
      Some(MeshOf(m, s.positions))
  }

  /** The mesh of a whole triangle list: its positions, their flat normals and a third as many vertices. */
  function MeshOf(m: MathLib, ps: seq<real>): Mesh
    requires |ps| % 9 == 0
  {
    Mesh(ps, FlatNormals(m, ps), |ps| / 3)
  }

  /**
   * The mesh of a whole triangle list has as many normal entries as position entries, a
   * vertexCount of exactly a third of the positions, and the three normals of each triangle
   * are that triangle's face normal.
   */
  lemma MeshOfSound(m: MathLib, ps: seq<real>)
    requires |ps| % 9 == 0
    ensures var mesh := MeshOf(m, ps);
      && mesh.positions == ps
      && |mesh.normals| == |ps|
      && 3 * mesh.vertexCount == |ps|
      && forall t :: 0 <= t < |ps| / 9 ==> mesh.normals[9 * t..9 * t + 9] == Triple(FaceNormal(m, ps, 9 * t))
  {
    NormalsFromShape(m, ps, 0);
  }

  /**
   * A loaded mesh holds whole triangles: the positions are a multiple of 9 long, there are as
   * many normal entries as position entries, vertexCount is exactly a third of the positions,
   * and the three normals of each triangle are that triangle's face normal.
   */
  lemma LoadedMeshSound(p: Parsers, m: MathLib, lines: seq<seq<string>>)
    requires LoadedMesh(p, m, lines).Some?
    ensures var mesh := LoadedMesh(p, m, lines).value;
      && |mesh.positions| % 9 == 0
      && |mesh.normals| == |mesh.positions|
      && 3 * mesh.vertexCount == |mesh.positions|
      && forall t :: 0 <= t < |mesh.positions| / 9 ==>
           mesh.normals[9 * t..9 * t + 9] == Triple(FaceNormal(m, mesh.positions, 9 * t))
  {
    var s := ParseFrom(p, lines, 0, ParseState([], [])).value;
    ParseFromGrows(p, lines, 0, ParseState([], []));
    assert LoadedMesh(p, m, lines) == Some(MeshOf(m, s.positions));
    MeshOfSound(m, s.positions);
  }

  /** `loadOBJ(url)` once the text has been fetched and split into tokenised lines. */
  method LoadObj(p: Parsers, m: MathLib, lines: seq<seq<string>>) returns (mesh: Option<Mesh>)
    ensures mesh == LoadedMesh(p, m, lines)
  {
    var parsed := ParseLines(p, lines);
    if parsed.None? {
      return None;
    }
    ParseFromGrows(p, lines, 0, ParseState([], []));
    var positions := parsed.value.positions;
    var normals := ComputeNormals(m, positions);
    mesh := Some(Mesh(positions, normals, |positions| / 3));
    assert mesh == Some(MeshOf(m, positions));
  }

  /** A triangle by its three corners, in winding order. */
  datatype Triangle = Triangle(a: Vec3, b: Vec3, c: Vec3)

  /** A triangle list written out as flat coordinates, nine per triangle. */
  function Flatten(fs: seq<Triangle>): (r: seq<real>)
    ensures |r| == 9 * |fs|
  {
    if fs == [] then [] else Coords(fs[0].a, fs[0].b, fs[0].c) + Flatten(fs[1..])
  }

  /** The t-th block of nine of a flattened list is the t-th triangle's coordinates. */
  lemma {:induction false} FlattenBlock(fs: seq<Triangle>, t: nat)
    requires t < |fs|
    ensures Flatten(fs)[9 * t..9 * t + 9] == Coords(fs[t].a, fs[t].b, fs[t].c)
  {
    NinesOfConcat(Coords(fs[0].a, fs[0].b, fs[0].c), Flatten(fs[1..]), t);
    if t > 0 {
      FlattenBlock(fs[1..], t - 1);
    }
  }

  /** The corners of the pyramid's unit square base and its apex. */
  const BaseNearLeft: Vec3 := Vec3(-0.5, 0.0, -0.5)
  const BaseNearRight: Vec3 := Vec3(0.5, 0.0, -0.5)
  const BaseFarRight: Vec3 := Vec3(0.5, 0.0, 0.5)
  const BaseFarLeft: Vec3 := Vec3(-0.5, 0.0, 0.5)
  const Apex: Vec3 := Vec3(0.0, 1.0, 0.0)

  /** createPyramidMesh's triangles: two for the base, then the +z, -z, +x and -x sides. */
  const PyramidFaces: seq<Triangle> := [
    Triangle(BaseNearLeft, BaseNearRight, BaseFarRight),
    Triangle(BaseNearLeft, BaseFarRight, BaseFarLeft),
    Triangle(BaseFarLeft, BaseFarRight, Apex),
    Triangle(BaseNearRight, BaseNearLeft, Apex),
    Triangle(BaseFarRight, BaseNearRight, Apex),
    Triangle(BaseNearLeft, BaseFarLeft, Apex)]

  /** createPyramidMesh's position list. */
  const PyramidPositions: seq<real> := Flatten(PyramidFaces)

  /** The pyramid mesh: its triangles, the shared flat normals and a third as many vertices. */
  function PyramidMesh(m: MathLib): Mesh {
    Mesh(PyramidPositions, FlatNormals(m, PyramidPositions), |PyramidPositions| / 3)
  }

  /** The pyramid has 6 triangles, 18 vertices and a normal entry per position entry. */
  lemma PyramidMeshSound(m: MathLib)
    ensures var mesh := PyramidMesh(m);
      |mesh.positions| == 54 && mesh.vertexCount == 18 && |mesh.normals| == 54
  {
    NormalsFromShape(m, PyramidPositions, 0);
  }

  /** The centroid of the triangle at positions[i..i+9]. */
  function Centroid(ps: seq<real>, i: nat): Vec3
    requires i + 9 <= |ps|
  {
    Vec3((ps[i] + ps[i + 3] + ps[i + 6]) / 3.0, (ps[i + 1] + ps[i + 4] + ps[i + 7]) / 3.0, (ps[i + 2] + ps[i + 5] + ps[i + 8]) / 3.0)
  }

  function Minus(a: Vec3, b: Vec3): Vec3 {
    Vec3(a.x - b.x, a.y - b.y, a.z - b.z)
  }

  /** A triangle's centroid from its corners. */
  function CornerCentroid(f: Triangle): Vec3 {
    Vec3((f.a.x + f.b.x + f.c.x) / 3.0, (f.a.y + f.b.y + f.c.y) / 3.0, (f.a.z + f.b.z + f.c.z) / 3.0)
  }

  /** Read back from flat coordinates, a triangle's edges and centroid are those of its corners. */
  lemma BlockGeometry(ps: seq<real>, i: nat, f: Triangle)
    requires i + 9 <= |ps| && ps[i..i + 9] == Coords(f.a, f.b, f.c)
    ensures Edge(ps, i, 1) == Minus(f.b, f.a) && Edge(ps, i, 2) == Minus(f.c, f.a)
    ensures Centroid(ps, i) == CornerCentroid(f)
  {
    forall j | 0 <= j < 9
      ensures ps[i + j] == Coords(f.a, f.b, f.c)[j]
    {
      assert ps[i + j] == ps[i..i + 9][j];
    }
  }

  /** A point inside the pyramid: on its axis, a quarter of the way up. */
  const PyramidInside: Vec3 := Vec3(0.0, 0.25, 0.0)

  /**
   * A face whose edge cross product points away from `inside` keeps a normal that does, as
   * long as Math.hypot behaves as a length.
   */
  lemma NormalKeepsSide(m: MathLib, ps: seq<real>, i: nat, inside: Vec3)
    requires Hypot3Sound(m) && i + 9 <= |ps|
    requires 0.0 < Dot(Cross(Edge(ps, i, 1), Edge(ps, i, 2)), Minus(Centroid(ps, i), inside))
    ensures 0.0 < Dot(FaceNormal(m, ps, i), Minus(Centroid(ps, i), inside))
  {
    var c := Cross(Edge(ps, i, 1), Edge(ps, i, 2));
    var w := Minus(Centroid(ps, i), inside);
    var h := m.hypot3(c.x, c.y, c.z);
    assert 0.0 <= h && h * h == c.x * c.x + c.y * c.y + c.z * c.z;
    if h == 0.0 {
      SquareSign(c.x);
      SquareSign(c.y);
      SquareSign(c.z);
      ZeroSum(c.x * c.x, c.y * c.y, c.z * c.z);
      assert c.x * c.x == 0.0 && c.y * c.y == 0.0 && c.z * c.z == 0.0;
      PositiveDotNonZero(c, w);
    }
    PositiveAfterDivide(c, w, h);
  }

  /** Three non-negative numbers adding up to zero are all zero. */
  lemma ZeroSum(x: real, y: real, z: real)
    requires 0.0 <= x && 0.0 <= y && 0.0 <= z && x + y + z == 0.0
    ensures x == 0.0 && y == 0.0 && z == 0.0
  {
  }

  /** A vector with a positive dot product against anything has a non-zero square somewhere. */
  lemma PositiveDotNonZero(c: Vec3, w: Vec3)
    requires 0.0 < Dot(c, w)
    ensures c.x * c.x != 0.0 || c.y * c.y != 0.0 || c.z * c.z != 0.0
  {
    if !(c.x == 0.0 && c.y == 0.0 && c.z == 0.0) {
      SquareSign(c.x);
      SquareSign(c.y);
      SquareSign(c.z);
    }
  }

  /** Dividing by a positive length keeps the sign of a dot product. */
  lemma PositiveAfterDivide(c: Vec3, w: Vec3, h: real)
    requires 0.0 < h && 0.0 < Dot(c, w)
    ensures 0.0 < Dot(DivideBy(c, h), w)
  {
    var k := 1.0 / h;
    assert 0.0 < k;
    assert DivideBy(c, h) == Vec3(c.x * k, c.y * k, c.z * k);
    calc {
      Dot(Vec3(c.x * k, c.y * k, c.z * k), w);
      (c.x * k) * w.x + (c.y * k) * w.y + (c.z * k) * w.z;
      Dot(c, w) * k;
    }
  }

  /** Every face of the pyramid, base included, has its normal pointing out of the solid. */
  lemma PyramidFacesOutward(m: MathLib)
    requires Hypot3Sound(m)
    ensures forall t :: 0 <= t < 6 ==>
      0.0 < Dot(FaceNormal(m, PyramidPositions, 9 * t), Minus(Centroid(PyramidPositions, 9 * t), PyramidInside))
  {
    forall t | 0 <= t < 6
      ensures 0.0 < Dot(FaceNormal(m, PyramidPositions, 9 * t), Minus(Centroid(PyramidPositions, 9 * t), PyramidInside))
    {
      var f := PyramidFaces[t];
      FlattenBlock(PyramidFaces, t);
      BlockGeometry(PyramidPositions, 9 * t, f);
      PyramidFaceTurnsOut(t);
      NormalKeepsSide(m, PyramidPositions, 9 * t, PyramidInside);
    }
  }

  /** The edge cross product of a triangle points away from `inside`. */
  predicate TurnsOut(f: Triangle, inside: Vec3) {
    0.0 < Dot(Cross(Minus(f.b, f.a), Minus(f.c, f.a)), Minus(CornerCentroid(f), inside))
  }

  /** The edge cross product of each pyramid face points away from the inside point. */
  lemma PyramidFaceTurnsOut(t: nat)
    requires t < 6
    ensures TurnsOut(PyramidFaces[t], PyramidInside)
  {
    var f := PyramidFaces[t];
    if t == 0 {
      assert f == Triangle(BaseNearLeft, BaseNearRight, BaseFarRight);
      FaceWitness(f, Vec3(1.0, 0.0, 0.0), Vec3(1.0, 0.0, 1.0), Vec3(1.0 / 6.0, -0.25, -1.0 / 6.0));
    } else if t == 1 {
      assert f == Triangle(BaseNearLeft, BaseFarRight, BaseFarLeft);
      FaceWitness(f, Vec3(1.0, 0.0, 1.0), Vec3(0.0, 0.0, 1.0), Vec3(-1.0 / 6.0, -0.25, 1.0 / 6.0));
    } else if t == 2 {
      assert f == Triangle(BaseFarLeft, BaseFarRight, Apex);
      FaceWitness(f, Vec3(1.0, 0.0, 0.0), Vec3(0.5, 1.0, -0.5), Vec3(0.0, 1.0 / 12.0, 1.0 / 3.0));
    } else if t == 3 {
      assert f == Triangle(BaseNearRight, BaseNearLeft, Apex);
      FaceWitness(f, Vec3(-1.0, 0.0, 0.0), Vec3(-0.5, 1.0, 0.5), Vec3(0.0, 1.0 / 12.0, -1.0 / 3.0));
    } else if t == 4 {
      assert f == Triangle(BaseFarRight, BaseNearRight, Apex);
      FaceWitness(f, Vec3(0.0, 0.0, -1.0), Vec3(-0.5, 1.0, -0.5), Vec3(1.0 / 3.0, 1.0 / 12.0, 0.0));
    } else {
      assert f == Triangle(BaseNearLeft, BaseFarLeft, Apex);
      FaceWitness(f, Vec3(0.0, 0.0, 1.0), Vec3(0.5, 1.0, 0.5), Vec3(-1.0 / 3.0, 1.0 / 12.0, 0.0));
    }
  }

  /** A face turns out once its edges u, v and its offset w from the inside point are known numbers that do. */
  lemma FaceWitness(f: Triangle, u: Vec3, v: Vec3, w: Vec3)
    requires Minus(f.b, f.a) == u && Minus(f.c, f.a) == v && Minus(CornerCentroid(f), PyramidInside) == w
    requires 0.0 < Dot(Cross(u, v), w)
    ensures TurnsOut(f, PyramidInside)
  {
  }
}
