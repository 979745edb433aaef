/**
 * The Grasshopper mesh artist. It turns a selection of vertices, edges and faces
 * into descriptor records (position or end points, an object name, a colour
 * looked up with a default), hands each list to the host, and `draw` joins the
 * host results in a fixed order under the artist's `show_*` flags.
 */
module GhMeshArtist {
  import opened Wrappers
  import opened Meshes
  import opened Names

  datatype PointRecord = PointRecord(pos: Point, name: string, color: Rgb)
  datatype LineRecord = LineRecord(start: Point, end: Point, color: Rgb, name: string)
  datatype FacetRecord = FacetRecord(points: seq<Point>, name: string, color: Rgb)

  /**
   * What the host returns: one object per descriptor it was given, standing for
   * that descriptor, a mesh joined from others, or the consolidated mesh.
   */
  datatype HostObject =
    | PointObject(point: PointRecord)
    | LineObject(line: LineRecord)
    | FaceMesh(facet: FacetRecord)
    | JoinedMesh(parts: seq<HostObject>)
    | WholeMesh(color: Rgb)

  /** `colors.get(key, default)`. */
  function ColorOf<K>(colors: map<K, Rgb>, key: K, default: Rgb): (c: Rgb)
    ensures key in colors ==> c == colors[key]
    ensures key !in colors ==> c == default
  {
    if key in colors then colors[key] else default
  }

  /** `selection or everything`: None and the empty list both select everything. */
  function Selection<K>(selection: Option<seq<K>>, everything: seq<K>): (r: seq<K>)
    ensures selection.None? ==> r == everything
    ensures selection == Some([]) ==> r == everything
    ensures selection.Some? && selection.value != [] ==> r == selection.value
  {
    match selection
    case None => everything
    case Some(s) => if s == [] then everything else s
  }

  predicate VerticesKnown(xyz: map<nat, Point>, vertices: seq<nat>) {
    forall i :: 0 <= i < |vertices| ==> vertices[i] in xyz
  }

  predicate EdgesKnown(xyz: map<nat, Point>, edges: seq<(nat, nat)>) {
    forall i :: 0 <= i < |edges| ==> edges[i].0 in xyz && edges[i].1 in xyz
  }

  predicate FaceKnown(m: Mesh, xyz: map<nat, Point>, f: nat) {
    f in m.faceVertices && forall i :: 0 <= i < |m.faceVertices[f]| ==> m.faceVertices[f][i] in xyz
  }

  predicate FacesKnown(m: Mesh, xyz: map<nat, Point>, faces: seq<nat>) {
    forall j :: 0 <= j < |faces| ==> FaceKnown(m, xyz, faces[j])
  }

  /** `[vertex_xyz[vertex] for vertex in mesh.face_vertices(face)]`. */
  function FacePoints(m: Mesh, xyz: map<nat, Point>, f: nat): seq<Point>
    requires FaceKnown(m, xyz, f)
  {
    var keys := m.faceVertices[f];
    seq(|keys|, i requires 0 <= i < |keys| => xyz[keys[i]])
  }

  /**
   * The records `draw_vertices` builds: one per selected vertex, in selection order,
   * at the vertex's position, named `<mesh>.vertex.<v>`, coloured from the map or
   * by default.
   */
  function PointRecords(meshName: string, xyz: map<nat, Point>, vertices: seq<nat>, colors: map<nat, Rgb>, default: Rgb)
    : (r: seq<PointRecord>)
    requires VerticesKnown(xyz, vertices)
    ensures |r| == |vertices|
    decreases |vertices|
  {
    if vertices == [] then []
    else
      var n := |vertices| - 1;
      PointRecords(meshName, xyz, vertices[..n], colors, default)
        + [PointRecord(xyz[vertices[n]], VertexName(meshName, vertices[n]), ColorOf(colors, vertices[n], default))]
  }

  /**
   * The records `draw_edges` builds: one per selected edge, in order, from the
   * position of its first key to that of its second, named `<mesh>.edge.<u>-<v>`.
   */
  function LineRecords(meshName: string, xyz: map<nat, Point>, edges: seq<(nat, nat)>, colors: map<(nat, nat), Rgb>, default: Rgb)
    : (r: seq<LineRecord>)
    requires EdgesKnown(xyz, edges)
    ensures |r| == |edges|
    decreases |edges|
  {
    if edges == [] then []
    else
      var n := |edges| - 1;
      var edge := edges[n];
      LineRecords(meshName, xyz, edges[..n], colors, default)
        + [LineRecord(xyz[edge.0], xyz[edge.1], ColorOf(colors, edge, default), EdgeName(meshName, edge.0, edge.1))]
  }

  /**
   * The records `draw_faces` builds: one per selected face, in order, whose points
   * are the positions of the face's vertices in face order, named `<mesh>.face.<f>`.
   */
  function FacetRecords(m: Mesh, xyz: map<nat, Point>, faces: seq<nat>, colors: map<nat, Rgb>, default: Rgb)
    : (r: seq<FacetRecord>)
    requires FacesKnown(m, xyz, faces)
    ensures |r| == |faces|
    decreases |faces|
  {
    if faces == [] then []
    else
      var n := |faces| - 1;
      FacetRecords(m, xyz, faces[..n], colors, default)
        + [FacetRecord(FacePoints(m, xyz, faces[n]), FaceName(m.name, faces[n]), ColorOf(colors, faces[n], default))]
  }

  /**
   * The i-th point record is the i-th selected vertex at its position, with its
   * vertex name and its colour.
   */
  lemma {:induction false} PointRecordsAt(meshName: string, xyz: map<nat, Point>, vertices: seq<nat>, colors: map<nat, Rgb>, default: Rgb, i: nat)
    requires VerticesKnown(xyz, vertices) && i < |vertices|
    ensures var r := PointRecords(meshName, xyz, vertices, colors, default);
      && r[i].pos == xyz[vertices[i]]
      && r[i].name == VertexName(meshName, vertices[i])
      && r[i].color == ColorOf(colors, vertices[i], default)
    decreases |vertices|
  {
    var n := |vertices| - 1;
    if i < n {
      assert VerticesKnown(xyz, vertices[..n]);
      PointRecordsAt(meshName, xyz, vertices[..n], colors, default, i);
    }
  }

  /**
   * The i-th line record runs from the position of the i-th edge's first key to
   * that of its second, with the edge's name and colour.
   */
  lemma {:induction false} LineRecordsAt(meshName: string, xyz: map<nat, Point>, edges: seq<(nat, nat)>, colors: map<(nat, nat), Rgb>, default: Rgb, i: nat)
    requires EdgesKnown(xyz, edges) && i < |edges|
    ensures var r := LineRecords(meshName, xyz, edges, colors, default);
      && r[i].start == xyz[edges[i].0]
      && r[i].end == xyz[edges[i].1]
      && r[i].color == ColorOf(colors, edges[i], default)
      && r[i].name == EdgeName(meshName, edges[i].0, edges[i].1)
    decreases |edges|
  {
    var n := |edges| - 1;
    if i < n {
      assert EdgesKnown(xyz, edges[..n]);
      LineRecordsAt(meshName, xyz, edges[..n], colors, default, i);
    }
  }

  /**
   * The j-th facet record holds the positions of the j-th selected face's vertices,
   * in face order, with the face's name and colour.
   */
  lemma {:induction false} FacetRecordsAt(m: Mesh, xyz: map<nat, Point>, faces: seq<nat>, colors: map<nat, Rgb>, default: Rgb, j: nat)
    requires FacesKnown(m, xyz, faces) && j < |faces|
    ensures var r := FacetRecords(m, xyz, faces, colors, default);
      var keys := m.faceVertices[faces[j]];
      && |r[j].points| == |keys|
      && (forall i :: 0 <= i < |keys| ==> r[j].points[i] == xyz[keys[i]])
      && r[j].name == FaceName(m.name, faces[j])
      && r[j].color == ColorOf(colors, faces[j], default)
    decreases |faces|
  {
    var n := |faces| - 1;
    if j < n {
      assert FacesKnown(m, xyz, faces[..n]);
      FacetRecordsAt(m, xyz, faces[..n], colors, default, j);
    }
  }

  /** One more known vertex extends the records by its own record. */
  lemma PointRecordsSnoc(meshName: string, xyz: map<nat, Point>, vertices: seq<nat>, colors: map<nat, Rgb>, default: Rgb, v: nat)
    requires VerticesKnown(xyz, vertices) && v in xyz
    ensures VerticesKnown(xyz, vertices + [v])
    ensures PointRecords(meshName, xyz, vertices + [v], colors, default)
      == PointRecords(meshName, xyz, vertices, colors, default) + [PointRecord(xyz[v], VertexName(meshName, v), ColorOf(colors, v, default))]
  {
    assert (vertices + [v])[..|vertices|] == vertices;
  }

  /** One more edge with known ends extends the records by its own record. */
  lemma LineRecordsSnoc(meshName: string, xyz: map<nat, Point>, edges: seq<(nat, nat)>, colors: map<(nat, nat), Rgb>, default: Rgb, edge: (nat, nat))
    requires EdgesKnown(xyz, edges) && edge.0 in xyz && edge.1 in xyz
    ensures EdgesKnown(xyz, edges + [edge])
    ensures LineRecords(meshName, xyz, edges + [edge], colors, default)
      == LineRecords(meshName, xyz, edges, colors, default)
         + [LineRecord(xyz[edge.0], xyz[edge.1], ColorOf(colors, edge, default), EdgeName(meshName, edge.0, edge.1))]
  {
    assert (edges + [edge])[..|edges|] == edges;
  }

  /** One more known face extends the records by its own record. */
  lemma FacetRecordsSnoc(m: Mesh, xyz: map<nat, Point>, faces: seq<nat>, colors: map<nat, Rgb>, default: Rgb, f: nat)
    requires FacesKnown(m, xyz, faces) && FaceKnown(m, xyz, f)
    ensures FacesKnown(m, xyz, faces + [f])
    ensures FacetRecords(m, xyz, faces + [f], colors, default)
      == FacetRecords(m, xyz, faces, colors, default) + [FacetRecord(FacePoints(m, xyz, f), FaceName(m.name, f), ColorOf(colors, f, default))]
  {
    assert (faces + [f])[..|faces|] == faces;
  }

  /** Distinct selected vertices give host points with distinct names. */
  lemma PointNamesUnique(meshName: string, xyz: map<nat, Point>, vertices: seq<nat>, colors: map<nat, Rgb>, default: Rgb)
    requires VerticesKnown(xyz, vertices) && Distinct(vertices)
    ensures var r := PointRecords(meshName, xyz, vertices, colors, default);
      forall i, j :: 0 <= i < j < |r| ==> r[i].name != r[j].name
  {
    var r := PointRecords(meshName, xyz, vertices, colors, default);
    forall i, j | 0 <= i < j < |r| ensures r[i].name != r[j].name {
      PointRecordsAt(meshName, xyz, vertices, colors, default, i);
      PointRecordsAt(meshName, xyz, vertices, colors, default, j);
      if r[i].name == r[j].name {
        VertexNameInjective(meshName, vertices[i], vertices[j]);
      }
    }
  }

  /** Distinct selected edges give host lines with distinct names. */
  lemma LineNamesUnique(meshName: string, xyz: map<nat, Point>, edges: seq<(nat, nat)>, colors: map<(nat, nat), Rgb>, default: Rgb)
    requires EdgesKnown(xyz, edges) && Distinct(edges)
    ensures var r := LineRecords(meshName, xyz, edges, colors, default);
      forall i, j :: 0 <= i < j < |r| ==> r[i].name != r[j].name
  {
    var r := LineRecords(meshName, xyz, edges, colors, default);
    forall i, j | 0 <= i < j < |r| ensures r[i].name != r[j].name {
      LineRecordsAt(meshName, xyz, edges, colors, default, i);
      LineRecordsAt(meshName, xyz, edges, colors, default, j);
      if r[i].name == r[j].name {
        EdgeNameInjective(meshName, edges[i].0, edges[i].1, edges[j].0, edges[j].1);
      }
    }
  }

  /** Distinct selected faces give host meshes with distinct names. */
  lemma FacetNamesUnique(m: Mesh, xyz: map<nat, Point>, faces: seq<nat>, colors: map<nat, Rgb>, default: Rgb)
    requires FacesKnown(m, xyz, faces) && Distinct(faces)
    ensures var r := FacetRecords(m, xyz, faces, colors, default);
      forall i, j :: 0 <= i < j < |r| ==> r[i].name != r[j].name
  {
    var r := FacetRecords(m, xyz, faces, colors, default);
    forall i, j | 0 <= i < j < |r| ensures r[i].name != r[j].name {
      FacetRecordsAt(m, xyz, faces, colors, default, i);
      FacetRecordsAt(m, xyz, faces, colors, default, j);
      if r[i].name == r[j].name {
        FaceNameInjective(m.name, faces[i], faces[j]);
      }
    }
  }

  /** The host's `draw_points`, `draw_lines` and `draw_faces`: one object per descriptor. */
  function DrawPoints(points: seq<PointRecord>): (r: seq<HostObject>)
    ensures |r| == |points|
  {
    seq(|points|, i requires 0 <= i < |points| => PointObject(points[i]))
  }

  function DrawLines(lines: seq<LineRecord>): (r: seq<HostObject>)
    ensures |r| == |lines|
  {
    seq(|lines|, i requires 0 <= i < |lines| => LineObject(lines[i]))
  }

  function DrawFacets(facets: seq<FacetRecord>): (r: seq<HostObject>)
    ensures |r| == |facets|
  {
    seq(|facets|, i requires 0 <= i < |facets| => FaceMesh(facets[i]))
  }

  /** The result of `draw_faces`: the host meshes as they are, or one mesh joined from them. */
  function JoinFaces(meshes: seq<HostObject>, join: bool): seq<HostObject> {
    if join then [JoinedMesh(meshes)] else meshes
  }

  /** A new empty host mesh with each of `meshes` appended to it in turn. */
  method JoinMeshes(meshes: seq<HostObject>) returns (joined: HostObject)
    ensures joined == JoinedMesh(meshes)
  {
    var parts: seq<HostObject> := [];
    var k := 0;
    while k < |meshes|
      invariant 0 <= k <= |meshes|
      invariant parts == meshes[..k]
    {
      parts := parts + [meshes[k]];
      k := k + 1;
    }
    assert meshes[..k] == meshes;
    joined := JoinedMesh(parts);
  }

  class MeshArtist {
    const mesh: Mesh
    /** The artist's `vertex_xyz`, resolved by its base class. */
    const vertexXyz: map<nat, Point>
    const defaultColor: Rgb
    const defaultVertexColor: Rgb
    const defaultEdgeColor: Rgb
    const defaultFaceColor: Rgb

    const showMesh: bool
    const showVertices: bool
    const showEdges: bool
    const showFaces: bool

    /** The colour maps last set by a draw call, already resolved by their setters. */
    var vertexColor: map<nat, Rgb>
    var edgeColor: map<(nat, nat), Rgb>
    var faceColor: map<nat, Rgb>

    constructor (mesh: Mesh, vertexXyz: map<nat, Point>,
                 showMesh: bool, showVertices: bool, showEdges: bool, showFaces: bool,
                 defaultColor: Rgb, defaultVertexColor: Rgb, defaultEdgeColor: Rgb, defaultFaceColor: Rgb)
      ensures this.mesh == mesh && this.vertexXyz == vertexXyz
      ensures this.showMesh == showMesh && this.showVertices == showVertices
      ensures this.showEdges == showEdges && this.showFaces == showFaces
      ensures this.defaultColor == defaultColor && this.defaultVertexColor == defaultVertexColor
      ensures this.defaultEdgeColor == defaultEdgeColor && this.defaultFaceColor == defaultFaceColor
      ensures vertexColor == map[] && edgeColor == map[] && faceColor == map[]
    {
      this.mesh := mesh;
      this.vertexXyz := vertexXyz;
      this.showMesh := showMesh;
      this.showVertices := showVertices;
      this.showEdges := showEdges;
      this.showFaces := showFaces;
      this.defaultColor := defaultColor;
      this.defaultVertexColor := defaultVertexColor;
      this.defaultEdgeColor := defaultEdgeColor;
      this.defaultFaceColor := defaultFaceColor;
      vertexColor, edgeColor, faceColor := map[], map[], map[];
    }

    /** What `draw_vertices` returns: None when a selected key has no position. */
    function VertexResult(vertices: Option<seq<nat>>, colors: map<nat, Rgb>): Option<seq<HostObject>> {
      var selected := Selection(vertices, mesh.vertices);
      if VerticesKnown(vertexXyz, selected)
      then Some(DrawPoints(PointRecords(mesh.name, vertexXyz, selected, colors, defaultVertexColor)))
      else None
    }

    /** What `draw_edges` returns: None when a selected edge has a key without a position. */
    function EdgeResult(edges: Option<seq<(nat, nat)>>, colors: map<(nat, nat), Rgb>): Option<seq<HostObject>> {
      var selected := Selection(edges, mesh.edges);
      if EdgesKnown(vertexXyz, selected)
      then Some(DrawLines(LineRecords(mesh.name, vertexXyz, selected, colors, defaultEdgeColor)))
      else None
    }

    /** What `draw_faces` returns: None when a selected face or one of its vertices is unknown. */
    function FaceResult(faces: Option<seq<nat>>, colors: map<nat, Rgb>, joinFaces: bool): Option<seq<HostObject>> {
      var selected := Selection(faces, mesh.faces);
      if FacesKnown(mesh, vertexXyz, selected)
      then Some(JoinFaces(DrawFacets(FacetRecords(mesh, vertexXyz, selected, colors, defaultFaceColor)), joinFaces))
      else None
    }

    /**
     * `draw`: the consolidated mesh, then the vertex, edge and face results, each
     * only when its `show_*` flag is set. The first sub-draw that raises stops the
     * rest, so the colour maps of later ones stay as they were.
     */
    method Draw(vertices: Option<seq<nat>>, edges: Option<seq<(nat, nat)>>, faces: Option<seq<nat>>,
                vertexcolor: map<nat, Rgb>, edgecolor: map<(nat, nat), Rgb>, facecolor: map<nat, Rgb>,
                color: Option<Rgb>, joinFaces: bool)
      returns (geometry: Option<seq<HostObject>>)
      modifies this`vertexColor, this`edgeColor, this`faceColor
      ensures
        var meshPart := if showMesh then [WholeMesh(if color.Some? then color.value else defaultColor)] else [];
        var v := if showVertices then VertexResult(vertices, vertexcolor) else Some([]);
        var e := if showEdges then EdgeResult(edges, edgecolor) else Some([]);
        var f := if showFaces then FaceResult(faces, facecolor, joinFaces) else Some([]);
        geometry == if v.Some? && e.Some? && f.Some? then Some(meshPart + v.value + e.value + f.value) else None
      ensures vertexColor == if showVertices then vertexcolor else old(vertexColor)
      ensures edgeColor ==
        if showEdges && (showVertices ==> VertexResult(vertices, vertexcolor).Some?)
        then edgecolor else old(edgeColor)
      ensures faceColor ==
        if showFaces && (showVertices ==> VertexResult(vertices, vertexcolor).Some?)
                     && (showEdges ==> EdgeResult(edges, edgecolor).Some?)
        then facecolor else old(faceColor)
    {
      var meshPart: seq<HostObject> := [];
      if showMesh {
        var obj := DrawMesh(color);
        meshPart := [obj];
      }
      var v: Option<seq<HostObject>> := Some([]);
      if showVertices {
        v := DrawVertices(vertices, vertexcolor);
      }
      var e: Option<seq<HostObject>> := Some([]);
      if showEdges && v.Some? {
        e := DrawEdges(edges, edgecolor);
      }
      var f: Option<seq<HostObject>> := Some([]);
      if showFaces && v.Some? && e.Some? {
        f := DrawFaces(faces, facecolor, joinFaces);
      }
      geometry := if v.Some? && e.Some? && f.Some? then Some(meshPart + v.value + e.value + f.value) else None;
    }

    /** `draw_mesh`: exactly one host mesh, in the given colour or the default one. */
    method DrawMesh(color: Option<Rgb>) returns (obj: HostObject)
      ensures obj.WholeMesh?
      ensures color.Some? ==> obj.color == color.value
      ensures color.None? ==> obj.color == defaultColor
    {
      var c := if color.Some? then color.value else defaultColor;
      obj := WholeMesh(c);
    }

    /**
     * `draw_vertices`: stores the colour map, then draws one point per selected
     * vertex; a selected key without a position raises (None).
     */
    method DrawVertices(vertices: Option<seq<nat>>, color: map<nat, Rgb>) returns (r: Option<seq<HostObject>>)
      modifies this`vertexColor
      ensures vertexColor == color
      ensures r == VertexResult(vertices, color)
    {
      vertexColor := color;
      var selected := Selection(vertices, mesh.vertices);
      var points: seq<PointRecord> := [];
      var i := 0;
      while i < |selected|
        invariant 0 <= i <= |selected|
        invariant vertexColor == color
        invariant VerticesKnown(vertexXyz, selected[..i])
        invariant points == PointRecords(mesh.name, vertexXyz, selected[..i], vertexColor, defaultVertexColor)
      {
        var v := selected[i];
        if v !in vertexXyz {
          assert !VerticesKnown(vertexXyz, selected);
          return None;
        }
        assert selected[..i + 1] == selected[..i] + [v];
        PointRecordsSnoc(mesh.name, vertexXyz, selected[..i], vertexColor, defaultVertexColor, v);
        points := points + [PointRecord(vertexXyz[v], VertexName(mesh.name, v), ColorOf(vertexColor, v, defaultVertexColor))];
        i := i + 1;
      }
      assert selected[..i] == selected;
      r := Some(DrawPoints(points));
    }

    /**
     * `draw_edges`: stores the colour map, then draws one line per selected edge;
     * an edge with a key without a position raises (None).
     */
    method DrawEdges(edges: Option<seq<(nat, nat)>>, color: map<(nat, nat), Rgb>) returns (r: Option<seq<HostObject>>)
      modifies this`edgeColor
      ensures edgeColor == color
      ensures r == EdgeResult(edges, color)
    {
      edgeColor := color;
      var selected := Selection(edges, mesh.edges);
      var lines: seq<LineRecord> := [];
      var i := 0;
      while i < |selected|
        invariant 0 <= i <= |selected|
        invariant edgeColor == color
        invariant EdgesKnown(vertexXyz, selected[..i])
        invariant lines == LineRecords(mesh.name, vertexXyz, selected[..i], edgeColor, defaultEdgeColor)
      {
        var edge := selected[i];
        if edge.0 !in vertexXyz || edge.1 !in vertexXyz {
          assert !EdgesKnown(vertexXyz, selected);
          return None;
        }
        assert selected[..i + 1] == selected[..i] + [edge];
        LineRecordsSnoc(mesh.name, vertexXyz, selected[..i], edgeColor, defaultEdgeColor, edge);
        lines := lines + [LineRecord(vertexXyz[edge.0], vertexXyz[edge.1], ColorOf(edgeColor, edge, defaultEdgeColor),
                                     EdgeName(mesh.name, edge.0, edge.1))];
        i := i + 1;
      }
      assert selected[..i] == selected;
      r := Some(DrawLines(lines));
    }

    /**
     * `draw_faces`: stores the colour map, then draws one mesh per selected face,
     * appending them all to one joined mesh when asked to; a face key unknown to the
     * mesh, or a face vertex without a position, raises (None).
     */
    method DrawFaces(faces: Option<seq<nat>>, color: map<nat, Rgb>, joinFaces: bool) returns (r: Option<seq<HostObject>>)
      modifies this`faceColor
      ensures faceColor == color
      ensures r == FaceResult(faces, color, joinFaces)
      ensures r.Some? && joinFaces ==> |r.value| == 1
    {
      faceColor := color;
      var selected := Selection(faces, mesh.faces);
      var facets: seq<FacetRecord> := [];
      var j := 0;
      while j < |selected|
        invariant 0 <= j <= |selected|
        invariant faceColor == color
        invariant FacesKnown(mesh, vertexXyz, selected[..j])
        invariant facets == FacetRecords(mesh, vertexXyz, selected[..j], faceColor, defaultFaceColor)
      {
        var f := selected[j];
        if !FaceKnown(mesh, vertexXyz, f) {
          assert !FacesKnown(mesh, vertexXyz, selected);
          return None;
        }
        assert selected[..j + 1] == selected[..j] + [f];
        FacetRecordsSnoc(mesh, vertexXyz, selected[..j], faceColor, defaultFaceColor, f);
        facets := facets + [FacetRecord(FacePoints(mesh, vertexXyz, f), FaceName(mesh.name, f), ColorOf(faceColor, f, defaultFaceColor))];
        j := j + 1;
      }
      assert selected[..j] == selected;
      var meshes := DrawFacets(facets);
      if !joinFaces {
        return Some(meshes);
      }
      var joined := JoinMeshes(meshes);
      r := Some([joined]);
    }

    /** GH artists are stateless: clearing has no effect. */
    method ClearEdges()
      ensures unchanged(this)
    {
    }

    method ClearVertices()
      ensures unchanged(this)
    {
    }

    method ClearFaces()
      ensures unchanged(this)
    {
    }
  }
}
