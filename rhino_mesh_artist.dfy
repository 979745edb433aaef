/**
 * The Rhino artist's `draw_mesh`: before the mesh goes to the host, every face
 * is turned into a quadrilateral index list. A triangle repeats its last index,
 * a quad is kept, a polygon with more than four vertices gets a new centroid
 * vertex appended and is fanned around it into one degenerate quad per edge,
 * and a face with fewer than three indices is dropped.
 */
module RhinoMeshArtist {
  import opened Wrappers
  import opened Meshes
  import opened Names

  /** The vertex list and the face list as they stand while faces are processed. */
  datatype Normalised = Normalised(vertices: seq<Point>, faces: seq<seq<nat>>)

  /** The arguments of the host's mesh drawing call. */
  datatype HostMeshCall = HostMeshCall(
    vertices: seq<Point>,
    faces: seq<seq<nat>>,
    layer: Option<string>,
    name: string,
    color: Option<Rgb>,
    disjoint: bool)

  predicate IsQuad(q: seq<nat>) {
    |q| == 4
  }

  predicate InRange(face: seq<nat>, n: nat) {
    forall i :: 0 <= i < |face| ==> face[i] < n
  }

  predicate AllInRange(faces: seq<seq<nat>>, n: nat) {
    forall j :: 0 <= j < |faces| ==> InRange(faces[j], n)
  }

  /** `[vertices[index] for index in face]`. */
  function Positions(vertices: seq<Point>, face: seq<nat>): seq<Point>
    requires InRange(face, |vertices|)
  {
    seq(|face|, i requires 0 <= i < |face| => vertices[face[i]])
  }

  /** `pairwise(s)`: each element paired with its successor. */
  function Pairwise(s: seq<nat>): (r: seq<(nat, nat)>)
    ensures |r| == if |s| == 0 then 0 else |s| - 1
    decreases |s|
  {
    if |s| < 2 then [] else [(s[0], s[1])] + Pairwise(s[1..])
  }

  /** The i-th pair is the i-th element and its successor. */
  lemma {:induction false} PairwiseAt(s: seq<nat>, i: nat)
    requires i + 1 < |s|
    ensures Pairwise(s)[i] == (s[i], s[i + 1])
    decreases |s|
  {
    if i > 0 {
      PairwiseAt(s[1..], i - 1);
    }
  }

  /**
   * The fan of a polygon around centroid index c: `[c, a, b, b]` for each pair of
   * `pairwise(face + face[0:1])`.
   */
  function Fan(c: nat, face: seq<nat>): (r: seq<seq<nat>>)
    requires |face| > 0
    ensures |r| == |face|
  {
    var pairs := Pairwise(face + face[..1]);
    seq(|pairs|, i requires 0 <= i < |pairs| => [c, pairs[i].0, pairs[i].1, pairs[i].1])
  }

  /** The pairs walk every edge of the polygon and wrap back to its first index. */
  lemma FanAt(c: nat, face: seq<nat>, i: nat)
    requires i < |face|
    ensures Fan(c, face)[i] == [c, face[i], face[(i + 1) % |face|], face[(i + 1) % |face|]]
  {
    var closed := face + face[..1];
    PairwiseAt(closed, i);
    if i + 1 < |face| {
      assert (i + 1) % |face| == i + 1;
    } else {
      assert (i + 1) % |face| == 0;
    }
  }

  /** 1 for a face that gets a centroid vertex, 0 otherwise. */
  function Large(face: seq<nat>): nat {
    if |face| > 4 then 1 else 0
  }

  /** How many faces have more than four indices. */
  function CountLarge(faces: seq<seq<nat>>): nat
    decreases |faces|
  {
    if faces == [] then 0 else CountLarge(faces[..|faces| - 1]) + Large(faces[|faces| - 1])
  }

  /** The faces one input face contributes, when a centroid would be appended at index c. */
  function FaceQuads(c: nat, face: seq<nat>): seq<seq<nat>> {
    var l := |face|;
    if l == 3 then [face + face[l - 1..]]
    else if l == 4 then [face]
    else if l > 4 then Fan(c, face)
    else []
  }

  /**
   * Every contributed face is a quad: a triangle `[a, b, c]` becomes `[a, b, c, c]`,
   * a quad is kept, a polygon of n indices gives n quads `[c, f[i], f[i+1], f[i+1]]`
   * (indices mod n), and a shorter face gives nothing.
   */
  lemma FaceQuadsShape(c: nat, face: seq<nat>)
    ensures var r := FaceQuads(c, face);
      && (forall i :: 0 <= i < |r| ==> IsQuad(r[i]))
      && (|face| < 3 ==> r == [])
      && (|face| == 3 ==> r == [[face[0], face[1], face[2], face[2]]])
      && (|face| == 4 ==> r == [face])
      && (|face| > 4 ==> |r| == |face|)
      && (|face| > 4 ==> forall i :: 0 <= i < |face| ==>
            var b := face[(i + 1) % |face|];
            r[i] == [c, face[i], b, b])
  {
    var r := FaceQuads(c, face);
    if |face| == 3 {
      assert face + face[2..] == [face[0], face[1], face[2], face[2]];
    } else if |face| > 4 {
      forall i | 0 <= i < |face| ensures r[i] == [c, face[i], face[(i + 1) % |face|], face[(i + 1) % |face|]] {
        FanAt(c, face, i);
      }
    }
  }

  /**
   * Processing one face. Only the polygon branch reads vertex positions, so only
   * there can an index out of range raise (None).
   */
  function Step(st: Normalised, face: seq<nat>, centroid: seq<Point> -> Point): Option<Normalised> {
    if |face| <= 4 then
      Some(Normalised(st.vertices, st.faces + FaceQuads(|st.vertices|, face)))
    else if InRange(face, |st.vertices|) then
      Some(Normalised(st.vertices + [centroid(Positions(st.vertices, face))],
                      st.faces + FaceQuads(|st.vertices|, face)))
    else
      None
  }

  /** The vertex list and the new faces after processing `faces` in order. */
  function Normalise(vertices: seq<Point>, faces: seq<seq<nat>>, centroid: seq<Point> -> Point): Option<Normalised>
    decreases |faces|
  {
    if faces == [] then Some(Normalised(vertices, []))
    else
      match Normalise(vertices, faces[..|faces| - 1], centroid)
      case None => None
      case Some(st) => Step(st, faces[|faces| - 1], centroid)
  }

  /** The face lists of a sequence of faces, joined in order. */
  function Concat(groups: seq<seq<seq<nat>>>): seq<seq<nat>>
    decreases |groups|
  {
    if groups == [] then [] else Concat(groups[..|groups| - 1]) + groups[|groups| - 1]
  }

  /**
   * What each input face contributes, the j-th polygon being fanned around the
   * index right after the original vertices and the polygons before it.
   */
  function Contributions(base: nat, faces: seq<seq<nat>>): (r: seq<seq<seq<nat>>>)
    ensures |r| == |faces|
    decreases |faces|
  {
    if faces == [] then []
    else
      var init := faces[..|faces| - 1];
      Contributions(base, init) + [FaceQuads(base + CountLarge(init), faces[|faces| - 1])]
  }


  /** Unfolding Normalise at its last face, when processing succeeds: the face list. */
  lemma NormaliseLastFaces(vertices: seq<Point>, faces: seq<seq<nat>>, centroid: seq<Point> -> Point)
    requires faces != [] && Normalise(vertices, faces, centroid).Some?
    ensures Normalise(vertices, faces[..|faces| - 1], centroid).Some?
    ensures var st := Normalise(vertices, faces[..|faces| - 1], centroid).value;
      var r := Normalise(vertices, faces, centroid).value;
      && r.faces == st.faces + FaceQuads(|st.vertices|, faces[|faces| - 1])
      && |r.vertices| == |st.vertices| + Large(faces[|faces| - 1])
  {
  }

  /** Unfolding Normalise at its last face, when processing succeeds: the vertex list. */
  lemma NormaliseLastVertices(vertices: seq<Point>, faces: seq<seq<nat>>, centroid: seq<Point> -> Point)
    requires faces != [] && Normalise(vertices, faces, centroid).Some?
    ensures Normalise(vertices, faces[..|faces| - 1], centroid).Some?
    ensures var st := Normalise(vertices, faces[..|faces| - 1], centroid).value;
      var face := faces[|faces| - 1];
      var r := Normalise(vertices, faces, centroid).value;
      && (|face| <= 4 ==> r.vertices == st.vertices)
      && (|face| > 4 ==> InRange(face, |st.vertices|) && r.vertices == st.vertices + [centroid(Positions(st.vertices, face))])
  {
  }

  /** Exactly one vertex is appended per polygon. */
  lemma {:induction false} NormaliseVertexCount(vertices: seq<Point>, faces: seq<seq<nat>>, centroid: seq<Point> -> Point)
    requires Normalise(vertices, faces, centroid).Some?
    ensures |Normalise(vertices, faces, centroid).value.vertices| == |vertices| + CountLarge(faces)
    decreases |faces|
  {
    if faces != [] {
      NormaliseLastFaces(vertices, faces, centroid);
      NormaliseVertexCount(vertices, faces[..|faces| - 1], centroid);
    }
  }

  /** The original vertices are unchanged and stay a prefix of the vertex list. */
  lemma {:induction false} NormaliseKeepsVertices(vertices: seq<Point>, faces: seq<seq<nat>>, centroid: seq<Point> -> Point)
    requires Normalise(vertices, faces, centroid).Some?
    ensures var r := Normalise(vertices, faces, centroid).value;
      |vertices| <= |r.vertices| && r.vertices[..|vertices|] == vertices
    decreases |faces|
  {
    if faces != [] {
      var init := faces[..|faces| - 1];
      NormaliseLastVertices(vertices, faces, centroid);
      NormaliseKeepsVertices(vertices, init, centroid);
      var st := Normalise(vertices, init, centroid).value;
      var r := Normalise(vertices, faces, centroid).value;
      assert r.vertices[..|st.vertices|] == st.vertices;
    }
  }

  /** Every face handed to the host has exactly four indices. */
  lemma {:induction false} NormaliseQuads(vertices: seq<Point>, faces: seq<seq<nat>>, centroid: seq<Point> -> Point)
    requires Normalise(vertices, faces, centroid).Some?
    ensures forall q :: q in Normalise(vertices, faces, centroid).value.faces ==> IsQuad(q)
    decreases |faces|
  {
    if faces != [] {
      var init := faces[..|faces| - 1];
      NormaliseLastFaces(vertices, faces, centroid);
      NormaliseQuads(vertices, init, centroid);
      var st := Normalise(vertices, init, centroid).value;
      FaceQuadsShape(|st.vertices|, faces[|faces| - 1]);
    }
  }

  /** The j-th input face contributes its quads around index `base + ` (polygons before it). */
  lemma {:induction false} ContributionsAt(base: nat, faces: seq<seq<nat>>, j: nat)
    requires j < |faces|
    ensures Contributions(base, faces)[j] == FaceQuads(base + CountLarge(faces[..j]), faces[j])
    decreases |faces|
  {
    var init := faces[..|faces| - 1];
    if j < |init| {
      ContributionsAt(base, init, j);
      assert init[..j] == faces[..j];
    }
  }

  lemma ConcatLast(base: nat, faces: seq<seq<nat>>)
    requires faces != []
    ensures var init := faces[..|faces| - 1];
      Concat(Contributions(base, faces)) == Concat(Contributions(base, init)) + FaceQuads(base + CountLarge(init), faces[|faces| - 1])
  {
    var n := |faces| - 1;
    var init := faces[..n];
    var all := Contributions(base, faces);
    var x := FaceQuads(base + CountLarge(init), faces[n]);
    assert all == Contributions(base, init) + [x];
    assert all[..n] == Contributions(base, init);
    assert all[n] == x;
  }

  /**
   * Output faces appear in input-face order: the face list is each input face's
   * contribution, joined front to back.
   */
  lemma {:induction false} NormaliseOrder(vertices: seq<Point>, faces: seq<seq<nat>>, centroid: seq<Point> -> Point)
    requires Normalise(vertices, faces, centroid).Some?
    ensures Normalise(vertices, faces, centroid).value.faces == Concat(Contributions(|vertices|, faces))
    decreases |faces|
  {
    if faces != [] {
      var init := faces[..|faces| - 1];
      NormaliseLastFaces(vertices, faces, centroid);
      NormaliseOrder(vertices, init, centroid);
      NormaliseVertexCount(vertices, init, centroid);
      ConcatLast(|vertices|, faces);
    }
  }

  lemma FaceQuadsInRange(c: nat, face: seq<nat>, n: nat)
    requires InRange(face, n)
    requires |face| > 4 ==> c < n
    ensures AllInRange(FaceQuads(c, face), n)
  {
    var r := FaceQuads(c, face);
    FaceQuadsShape(c, face);
    forall j | 0 <= j < |r| ensures InRange(r[j], n) {
      if |face| > 4 {
        assert (j + 1) % |face| < |face|;
      }
    }
  }

  /**
   * Each polygon names only vertices present when it is reached: the original
   * ones and the centroids of the polygons before it.
   */
  predicate PolygonsInRange(n: nat, faces: seq<seq<nat>>)
    decreases |faces|
  {
    faces == [] ||
    var init := faces[..|faces| - 1];
    var face := faces[|faces| - 1];
    PolygonsInRange(n, init) && (|face| > 4 ==> InRange(face, n + CountLarge(init)))
  }

  /**
   * Processing raises exactly when some polygon names a vertex not yet in the list;
   * the indices of triangles and quads are never read, so they never raise.
   */
  lemma {:induction false} NormaliseSucceeds(vertices: seq<Point>, faces: seq<seq<nat>>, centroid: seq<Point> -> Point)
    ensures Normalise(vertices, faces, centroid).Some? <==> PolygonsInRange(|vertices|, faces)
    decreases |faces|
  {
    if faces != [] {
      var init := faces[..|faces| - 1];
      NormaliseSucceeds(vertices, init, centroid);
      if Normalise(vertices, init, centroid).Some? {
        NormaliseVertexCount(vertices, init, centroid);
      }
    }
  }

  /** Original indices only: always in range of the vertex list as it grows. */
  lemma {:induction false} InRangeGivesPolygonsInRange(n: nat, faces: seq<seq<nat>>)
    requires AllInRange(faces, n)
    ensures PolygonsInRange(n, faces)
    decreases |faces|
  {
    if faces != [] {
      var init := faces[..|faces| - 1];
      assert AllInRange(init, n);
      InRangeGivesPolygonsInRange(n, init);
      assert InRange(faces[|faces| - 1], n);
    }
  }

  /**
   * When every input index names an original vertex, processing cannot raise, and
   * every output index names a vertex of the final list.
   */
  lemma {:induction false} NormaliseInRange(vertices: seq<Point>, faces: seq<seq<nat>>, centroid: seq<Point> -> Point)
    requires AllInRange(faces, |vertices|)
    ensures Normalise(vertices, faces, centroid).Some?
    ensures var r := Normalise(vertices, faces, centroid).value;
      AllInRange(r.faces, |r.vertices|)
    decreases |faces|
  {
    InRangeGivesPolygonsInRange(|vertices|, faces);
    NormaliseSucceeds(vertices, faces, centroid);
    if faces != [] {
      var init := faces[..|faces| - 1];
      var face := faces[|faces| - 1];
      assert AllInRange(init, |vertices|);
      NormaliseInRange(vertices, init, centroid);
      NormaliseLastFaces(vertices, faces, centroid);
      NormaliseKeepsVertices(vertices, init, centroid);
      var st := Normalise(vertices, init, centroid).value;
      var r := Normalise(vertices, faces, centroid).value;
      assert InRange(face, |vertices|);
      FaceQuadsInRange(|st.vertices|, face, |r.vertices|);
    }
  }

  /**
   * The vertex appended for the j-th input face, a polygon, sits at index
   * `len(vertices)` as it stood then and is the centroid of that face's positions.
   */
  lemma {:induction false} NormaliseCentroids(vertices: seq<Point>, faces: seq<seq<nat>>, centroid: seq<Point> -> Point, j: nat)
    requires AllInRange(faces, |vertices|)
    requires j < |faces| && |faces[j]| > 4
    ensures Normalise(vertices, faces, centroid).Some?
    ensures var r := Normalise(vertices, faces, centroid).value;
      |vertices| + CountLarge(faces[..j]) < |r.vertices| &&
      r.vertices[|vertices| + CountLarge(faces[..j])] == centroid(Positions(vertices, faces[j]))
    decreases |faces|
  {
    NormaliseInRange(vertices, faces, centroid);
    var init := faces[..|faces| - 1];
    assert AllInRange(init, |vertices|);
    NormaliseInRange(vertices, init, centroid);
    NormaliseLastVertices(vertices, faces, centroid);
    NormaliseVertexCount(vertices, init, centroid);
    NormaliseKeepsVertices(vertices, init, centroid);
    var st := Normalise(vertices, init, centroid).value;
    var r := Normalise(vertices, faces, centroid).value;
    if j == |faces| - 1 {
      assert faces[..j] == init;
      assert InRange(faces[j], |vertices|);
      assert Positions(st.vertices, faces[j]) == Positions(vertices, faces[j]);
    } else {
      assert init[..j] == faces[..j];
      NormaliseCentroids(vertices, init, centroid, j);
      assert r.vertices[..|st.vertices|] == st.vertices;
    }
  }

  /** Once a face raises, the whole loop raises. */
  lemma {:induction false} FailureIsFinal(vertices: seq<Point>, faces: seq<seq<nat>>, k: nat, centroid: seq<Point> -> Point)
    requires k <= |faces| && Normalise(vertices, faces[..k], centroid) == None
    ensures Normalise(vertices, faces, centroid) == None
    decreases |faces|
  {
    if k == |faces| {
      assert faces[..k] == faces;
    } else {
      var init := faces[..|faces| - 1];
      assert init[..k] == faces[..k];
      FailureIsFinal(vertices, init, k, centroid);
    }
  }

  /** The inner loop of lines 85-86: one `[c, a, b, b]` per pair, appended in order. */
  method AppendFan(newFaces: seq<seq<nat>>, c: nat, face: seq<nat>) returns (out: seq<seq<nat>>)
    requires |face| > 0
    ensures out == newFaces + Fan(c, face)
  {
    out := newFaces;
    var pairs := Pairwise(face + face[..1]);
    var k := 0;
    while k < |pairs|
      invariant 0 <= k <= |pairs| == |face|
      invariant out == newFaces + Fan(c, face)[..k]
    {
      var (a, b) := pairs[k];
      out := out + [[c, a, b, b]];
      assert Fan(c, face)[..k + 1] == Fan(c, face)[..k] + [[c, a, b, b]];
      k := k + 1;
    }
    assert Fan(c, face)[..k] == Fan(c, face);
  }

  /** Python's `draw_mesh` loop (lines 75-88), with its `vertices` and `new_faces` accumulators. */
  method NormaliseFaces(vertices0: seq<Point>, faces: seq<seq<nat>>, centroid: seq<Point> -> Point)
    returns (r: Option<Normalised>)
    ensures r == Normalise(vertices0, faces, centroid)
  {
    var vertices := vertices0;
    var newFaces: seq<seq<nat>> := [];
    var j := 0;
    while j < |faces|
      invariant 0 <= j <= |faces|
      invariant Normalise(vertices0, faces[..j], centroid) == Some(Normalised(vertices, newFaces))
    {
      assert faces[..j + 1][..j] == faces[..j];
      var face := faces[j];
      var l := |face|;
      if l == 3 {
        newFaces := newFaces + [face + face[l - 1..]];
      } else if l == 4 {
        newFaces := newFaces + [face];
      } else if l > 4 {
        ghost var st := Normalised(vertices, newFaces);
        if !InRange(face, |vertices|) {
          assert Normalise(vertices0, faces[..j + 1], centroid) == None;
          FailureIsFinal(vertices0, faces, j + 1, centroid);
          return None;
        }
        var c := |vertices|;
        vertices := vertices + [centroid(Positions(vertices, face))];
        newFaces := AppendFan(newFaces, c, face);
        assert Step(st, face, centroid) == Some(Normalised(vertices, newFaces));
      } else {
        assert FaceQuads(|vertices|, face) == [];
        assert newFaces + [] == newFaces;
      }
      j := j + 1;
    }
    assert faces[..j] == faces;
    r := Some(Normalised(vertices, newFaces));
  }

  /** `mesh.get_vertices_attributes('xyz')`: the positions in vertex order. */
  function VertexPositions(m: Mesh): seq<Point>
    requires m.Valid()
  {
    seq(|m.vertices|, i requires 0 <= i < |m.vertices| => m.xyz[m.vertices[i]])
  }

  /**
   * The index lists of line 74: for each face in face order, the `key_index` of
   * each of its vertex keys. Each index names, in the vertex order, the key it
   * came from.
   */
  function FaceIndexLists(m: Mesh): (r: seq<seq<nat>>)
    requires m.Valid()
    ensures |r| == |m.faces|
    ensures forall j :: 0 <= j < |r| ==> |r[j]| == |m.faceVertices[m.faces[j]]|
    ensures forall j, i :: 0 <= j < |r| && 0 <= i < |r[j]| ==>
      r[j][i] < |m.vertices| && m.vertices[r[j][i]] == m.faceVertices[m.faces[j]][i]
  {
    var ki := KeyIndex(m.vertices);
    seq(|m.faces|, j requires 0 <= j < |m.faces| =>
      var keys := m.faceVertices[m.faces[j]];
      seq(|keys|, i requires 0 <= i < |keys| => ki[keys[i]]))
  }

  /** The name under which `draw_mesh` creates, and `clear_mesh` looks up, the host mesh. */
  function ClearMeshName(m: Mesh): string {
    MeshName(m.name)
  }

  /**
   * `draw_mesh`: the call handed to the host. Its vertices and faces are the
   * normalised mesh, every face a quad whose indices name a vertex of the call,
   * one centroid vertex per polygon, and its name is the one `clear_mesh` uses.
   */
  method DrawMesh(m: Mesh, layer: Option<string>, color: Option<Rgb>, disjoint: bool, centroid: seq<Point> -> Point)
    returns (call: HostMeshCall)
    requires m.Valid()
    ensures Normalise(VertexPositions(m), FaceIndexLists(m), centroid) == Some(Normalised(call.vertices, call.faces))
    ensures |call.vertices| == |m.vertices| + CountLarge(FaceIndexLists(m))
    ensures call.vertices[..|m.vertices|] == VertexPositions(m)
    ensures forall q :: q in call.faces ==> IsQuad(q)
    ensures AllInRange(call.faces, |call.vertices|)
    ensures call.name == ClearMeshName(m)
    ensures call.layer == layer && call.color == color && call.disjoint == disjoint
  {
    var vertices := VertexPositions(m);
    var faces := FaceIndexLists(m);
    NormaliseInRange(vertices, faces, centroid);
    NormaliseVertexCount(vertices, faces, centroid);
    NormaliseKeepsVertices(vertices, faces, centroid);
    NormaliseQuads(vertices, faces, centroid);
    var r := NormaliseFaces(vertices, faces, centroid);
    call := HostMeshCall(r.value.vertices, r.value.faces, layer, MeshName(m.name), color, disjoint);
  }
}
