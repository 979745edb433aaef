# Mesh artists of compas, modelled in Dafny

This project models two mesh artists of the compas CAD framework. Each one turns
a mesh into what it hands to a CAD host for drawing.

- **The Rhino `draw_mesh` face normalisation**
  (`src/compas_rhino/artists/frameartist.py`). Before the mesh goes to Rhino,
  every face becomes a quadrilateral index list:
  - a triangle `[a, b, c]` becomes `[a, b, c, c]`;
  - a quad is kept;
  - a face with n > 4 indices gets a new centroid vertex appended. It is then
    fanned around that vertex into n degenerate quads `[c, f[i], f[i+1], f[i+1]]`,
    with indices taken mod n;
  - a face with fewer than three indices is dropped.

  The loop (`RhinoMeshArtist.NormaliseFaces`) is proved equal to the
  prefix-recursive specification `Normalise`. Its shape invariants are proved
  about `Normalise`, and `DrawMesh` combines them into the arguments of the
  host call. The host object's name `<mesh>.mesh` is the one `clear_mesh`
  looks up.
- **The Grasshopper `MeshArtist`** (`src/compas_ghpython/artists/meshartist.py`).
  - `draw_vertices`, `draw_edges` and `draw_faces` build one descriptor record
    per selected element: a position or end points, a name such as
    `<mesh>.edge.<u>-<v>`, and a colour from a map with a default.
  - They hand the records to the host. `draw_faces` can join the host meshes
    into one.
  - `draw` concatenates the results under the artist's `show_*` flags.
  - The class keeps the colour maps that the draw calls store as fields.
  - The loops are methods proved equal to the functions `VertexResult`,
    `EdgeResult` and `FaceResult`. The pointwise content of the records and the
    uniqueness of their names are lemmas.

The other modules:

- `Meshes`: the mesh abstraction that both artists read and its `key_index`.
- `Names`: the decimal formatting of keys and the object names. It proves that
  a name determines its key, and that the four kinds of name never clash.
- `Wrappers`: `Option`. `None` stands for a Python exception the source can
  raise:
  - an `IndexError` while a polygon's positions are read;
  - a `KeyError` for a selected key that has no position or no face.

## Model

| member | source | states |
|---|---|---|
| RhinoMeshArtist.FaceQuadsShape | src/compas_rhino/artists/frameartist.py:76-88 | Every face contributed is a quad. A triangle `[a,b,c]` gives `[[a,b,c,c]]` and a quad gives itself. Fewer than 3 indices give nothing. An n-index polygon gives exactly n faces `[c, f[i], f[(i+1)%n], f[(i+1)%n]]`, in order. |
| RhinoMeshArtist.FanAt | src/compas_rhino/artists/frameartist.py:85-86 | The i-th fan face pairs `face[i]` with its successor, wrapping back to `face[0]` after the last index. |
| RhinoMeshArtist.PairwiseAt | src/compas_rhino/artists/frameartist.py:85 | The i-th pair of `pairwise(s)` is `(s[i], s[i+1])`. |
| RhinoMeshArtist.Pairwise | src/compas_rhino/artists/frameartist.py:85 | `pairwise` of n elements gives n-1 pairs (none for an empty list). |
| RhinoMeshArtist.NormaliseFaces | src/compas_rhino/artists/frameartist.py:75-88 | The loop with its `vertices` and `new_faces` accumulators computes exactly `Normalise`. It returns `None` (the IndexError) exactly when `Normalise` does. |
| RhinoMeshArtist.AppendFan | src/compas_rhino/artists/frameartist.py:85-86 | The inner loop appends the polygon's fan, in pair order, after the faces already there. |
| RhinoMeshArtist.NormaliseQuads | src/compas_rhino/artists/frameartist.py:77-86 | Every face appended to `new_faces` has exactly 4 indices. |
| RhinoMeshArtist.NormaliseVertexCount | src/compas_rhino/artists/frameartist.py:82-84 | The final vertex count is the original count plus the number of faces with more than 4 indices. |
| RhinoMeshArtist.NormaliseKeepsVertices | src/compas_rhino/artists/frameartist.py:73-84 | The original vertices are unchanged and form a prefix of the final vertex list. |
| RhinoMeshArtist.NormaliseCentroids | src/compas_rhino/artists/frameartist.py:82-84 | The vertex appended for the j-th face (a polygon) sits at the vertex count just before the append. That count is the original count plus the polygons before it. The vertex is the centroid of that face's positions. |
| RhinoMeshArtist.NormaliseOrder | src/compas_rhino/artists/frameartist.py:74-86 | `new_faces` is each input face's contribution, joined in input-face order. |
| RhinoMeshArtist.ContributionsAt | src/compas_rhino/artists/frameartist.py:82-86 | The j-th input face contributes its quads with the centroid index it gets when it is reached. |
| RhinoMeshArtist.NormaliseLastFaces | src/compas_rhino/artists/frameartist.py:75-88 | One more face extends `new_faces` by that face's quads. It adds a vertex exactly when the face has more than 4 indices. |
| RhinoMeshArtist.NormaliseLastVertices | src/compas_rhino/artists/frameartist.py:82-84 | One more face leaves the vertices unchanged, unless it is a polygon. A polygon appends the centroid of its positions, and its indices must then be in range. |
| RhinoMeshArtist.NormaliseInRange | src/compas_rhino/artists/frameartist.py:74-86 | If every input index is below the original vertex count, the loop cannot raise, and every index in `new_faces` is below the final vertex count. |
| RhinoMeshArtist.FaceQuadsInRange | src/compas_rhino/artists/frameartist.py:77-86 | A face's quads only use its own indices and the centroid index. |
| RhinoMeshArtist.NormaliseSucceeds | src/compas_rhino/artists/frameartist.py:82-84 | The loop raises if and only if some polygon reads a vertex that is not yet in the list. Triangles and quads are never read. |
| RhinoMeshArtist.InRangeGivesPolygonsInRange | src/compas_rhino/artists/frameartist.py:74-84 | Indices that name original vertices stay valid while centroids are appended. |
| RhinoMeshArtist.FailureIsFinal | src/compas_rhino/artists/frameartist.py:82-84 | Once a face raises, processing more faces still raises. |
| RhinoMeshArtist.FaceIndexLists | src/compas_rhino/artists/frameartist.py:72-74 | There is one index list per face, in face order. Each index is the `key_index` of the face's vertex key, so it names that key in the vertex order. |
| Meshes.KeyIndex | src/compas_rhino/artists/frameartist.py:72 | `key_index` has exactly the vertex keys as keys. Each key maps to a position that holds that key. |
| RhinoMeshArtist.DrawMesh | src/compas_rhino/artists/frameartist.py:63-91 | The host call gets the normalised vertices and faces, every face a quad with indices in range, and one new vertex per polygon. The original vertices come first. The layer, colour and `disjoint` are passed through, and the name is `<mesh>.mesh`. |
| Names.DecimalRoundTrip | src/compas_ghpython/artists/meshartist.py:132 | Reading back the decimal text of a key gives the key. |
| Names.DecimalInjective | src/compas_ghpython/artists/meshartist.py:132 | Distinct keys format to distinct decimal text. |
| Names.VertexNameInjective | src/compas_ghpython/artists/meshartist.py:132 | `<mesh>.vertex.<v>` determines v. |
| Names.EdgeNameInjective | src/compas_ghpython/artists/meshartist.py:201 | `<mesh>.edge.<u>-<v>` determines both u and v: the dash is unambiguous. |
| Names.FaceNameInjective | src/compas_ghpython/artists/meshartist.py:164 | `<mesh>.face.<f>` determines f. |
| Names.NameKindsDiffer | src/compas_rhino/artists/frameartist.py:90 | In one mesh, the `.mesh` name and the vertex, edge and face names never coincide. |
| Names.FirstDashAfterDigits | src/compas_ghpython/artists/meshartist.py:201 | In `<u>-<v>`, the first dash comes right after the digits of u. |
| GhMeshArtist.Selection | src/compas_ghpython/artists/meshartist.py:126 | `selection or everything`: `None` and the empty list both select the whole enumeration. Any other list is used as given. |
| GhMeshArtist.ColorOf | src/compas_ghpython/artists/meshartist.py:133 | `dict.get(key, default)`: the map's entry if the key is present, else the default. |
| GhMeshArtist.PointRecordsAt | src/compas_ghpython/artists/meshartist.py:128-134 | The i-th vertex record has `pos = vertex_xyz[v]`, name `<mesh>.vertex.<v>` and the map colour or `default_vertexcolor`, for v the i-th selected vertex. |
| GhMeshArtist.PointRecords | src/compas_ghpython/artists/meshartist.py:128-134 | There is exactly one record per selected vertex. |
| GhMeshArtist.LineRecordsAt | src/compas_ghpython/artists/meshartist.py:195-202 | The i-th edge record has `start = xyz[u]`, `end = xyz[v]`, the map colour or `default_edgecolor`, and name `<mesh>.edge.<u>-<v>`. |
| GhMeshArtist.LineRecords | src/compas_ghpython/artists/meshartist.py:195-202 | There is exactly one record per selected edge. |
| GhMeshArtist.FacetRecordsAt | src/compas_ghpython/artists/meshartist.py:160-166 | The j-th face record's points are the positions of the face's vertices in face order. Its name is `<mesh>.face.<f>` and its colour is the map colour or `default_facecolor`. |
| GhMeshArtist.FacetRecords | src/compas_ghpython/artists/meshartist.py:160-166 | There is exactly one record per selected face. |
| GhMeshArtist.PointNamesUnique | src/compas_ghpython/artists/meshartist.py:129-134 | Distinct selected vertices give records with distinct names. |
| GhMeshArtist.LineNamesUnique | src/compas_ghpython/artists/meshartist.py:196-202 | Distinct selected edges give records with distinct names. |
| GhMeshArtist.FacetNamesUnique | src/compas_ghpython/artists/meshartist.py:161-166 | Distinct selected faces give records with distinct names. |
| GhMeshArtist.DrawPoints | src/compas_ghpython/artists/meshartist.py:135 | The host call returns one point per record. |
| GhMeshArtist.DrawLines | src/compas_ghpython/artists/meshartist.py:203 | The host call returns one line per record. |
| GhMeshArtist.DrawFacets | src/compas_ghpython/artists/meshartist.py:167 | The host call returns one mesh per record. |
| GhMeshArtist.JoinMeshes | src/compas_ghpython/artists/meshartist.py:170-173 | Appending each host mesh in turn to a new mesh gives the mesh joined from all of them, in order. |
| GhMeshArtist.MeshArtist.constructor | src/compas_ghpython/artists/meshartist.py:26-37 | It stores the mesh and the four `show_*` flags. No colour map is set yet. |
| GhMeshArtist.MeshArtist.Draw | src/compas_ghpython/artists/meshartist.py:73-82 | The result is the mesh, vertex, edge and face results, concatenated in that order, each only under its `show_*` flag. The mesh contributes exactly one object. If a part raises, `draw` raises, and the colour maps of the later parts keep their old values. |
| GhMeshArtist.MeshArtist.DrawMesh | src/compas_ghpython/artists/meshartist.py:104-106 | It returns exactly one host mesh, in the given colour or else `default_color`. |
| GhMeshArtist.MeshArtist.DrawVertices | src/compas_ghpython/artists/meshartist.py:125-135 | It stores the colour map. It then returns one host point per selected vertex, built from its record, or raises when a selected vertex has no position. |
| GhMeshArtist.MeshArtist.DrawEdges | src/compas_ghpython/artists/meshartist.py:192-203 | It stores the colour map. It then returns one host line per selected edge, or raises when an end of a selected edge has no position. |
| GhMeshArtist.MeshArtist.DrawFaces | src/compas_ghpython/artists/meshartist.py:157-173 | It stores the colour map. It then returns one host mesh per selected face, or a list of exactly one joined mesh when `join_faces` is set. It raises on an unknown face or a face vertex without a position. |
| GhMeshArtist.MeshArtist.ClearEdges | src/compas_ghpython/artists/meshartist.py:205-207 | Changes nothing. |
| GhMeshArtist.MeshArtist.ClearVertices | src/compas_ghpython/artists/meshartist.py:209-211 | Changes nothing. |
| GhMeshArtist.MeshArtist.ClearFaces | src/compas_ghpython/artists/meshartist.py:213-215 | Changes nothing. |

## Left out

- Host calls are not modelled as real drawing. Each host object (`HostObject`) stands for the descriptor it was made from. This covers `compas_ghpython.draw_points`, `draw_lines`, `draw_faces` and `draw_mesh`, `compas_rhino.draw_mesh` and `Rhino.Geometry.Mesh.Append`. The model only promises one object per descriptor, in order.
- `centroid_polygon` computes floating-point geometry in an external library. It is a function parameter, and nothing is assumed about its value.
- Positions are a `Point` of reals that nothing computes with. Colours are RGB integer triples.
- The mesh data structure belongs to the geometry library. It is a value with its vertex keys, positions, face keys and face vertices, edges and name. `RhinoMeshArtist.DrawMesh` requires `Mesh.Valid()`, which is the library's own guarantee that every face's vertex keys are vertices with positions.
- `vertex_xyz`, the `default_*` colours, `self.layer` and the colour-map setters (`vertex_color`, `edge_color`, `face_color`, with `color_to_colordict`) live in base classes that are not part of this model. They enter as parameters or as fields already resolved to a map.
- `GhMeshArtist.MeshArtist.DrawMesh`: `self.mesh.to_vertices_and_faces()` is external, so the host mesh is modelled by its colour only.
- `GhMeshArtist.MeshArtist.DrawMesh`: a falsy `color` such as an empty tuple is treated like a given colour. Python's `color or self.default_color` would take the default.
- The Rhino `clear`, `clear_mesh` and the host deletions they issue are not modelled. Only the shared name `<mesh>.mesh` is (`RhinoMeshArtist.ClearMeshName`).
- The `show_*` flags are fixed when the artist is built. In Python they are plain attributes a caller may reassign between draws, and no method of the artist changes them.
- A sub-draw that raises may already have issued host calls. The model only records that the whole `draw` raises and which colour maps were stored.
- `src/compas_rhino/artists/frameartist.py` has three defects that stop it from running:
  - the class is named `FrameArtist`;
  - its constructor calls `super(MeshArtist, self)`, and `MeshArtist` is not defined there;
  - `centroid_polygon` and `pairwise` are not imported.

  The model follows the algorithm of lines 72-88 as if those names resolved.
- The Blender frame artist and the Rhino cone artist are not modelled. They only pass fixed descriptors, or a mesh from `to_vertices_and_faces`, to the host.
- `GhMeshArtist.FacePoints` has no contract of its own. `GhMeshArtist.FacetRecordsAt` states its content.
