/**
 * The mesh abstraction the artists read from. The mesh data structure belongs to
 * the external geometry library; here it is a value holding what the artists
 * ask of it: the vertex keys in iteration order, the position of each vertex,
 * the face keys in iteration order with each face's vertex keys, the edges as
 * key pairs, and the mesh's name.
 */
module Meshes {

  /** A position. Its coordinates are floats in the source; nothing here computes with them. */
  datatype Point = Point(x: real, y: real, z: real)

  /** An RGB colour tuple. */
  datatype Rgb = Rgb(r: int, g: int, b: int)

  datatype Mesh = Mesh(
    name: string,
    vertices: seq<nat>,
    xyz: map<nat, Point>,
    faces: seq<nat>,
    faceVertices: map<nat, seq<nat>>,
    edges: seq<(nat, nat)>)
  {
    /**
     * What the geometry library guarantees of its meshes: every vertex has a
     * position, every face key has a vertex list, and every vertex of a face
     * is a vertex of the mesh.
     */
    predicate Valid() {
      && (forall k :: k in vertices ==> k in xyz)
      && (forall j :: 0 <= j < |faces| ==> faces[j] in faceVertices)
      && (forall j, i :: 0 <= j < |faces| && faces[j] in faceVertices && 0 <= i < |faceVertices[faces[j]]|
            ==> faceVertices[faces[j]][i] in vertices)
    }
  }

  /**
   * The mesh's `key_index`: each vertex key mapped to its position in the
   * iteration order (a dictionary built over the enumeration, so a repeated
   * key keeps its last position).
   */
  function KeyIndex(keys: seq<nat>): (ki: map<nat, nat>)
    ensures forall k :: k in ki <==> k in keys
    ensures forall k :: k in ki ==> ki[k] < |keys| && keys[ki[k]] == k
    decreases |keys|
  {
    if keys == [] then map[]
    else
      var init := keys[..|keys| - 1];
      assert forall k :: k in init ==> k in keys;
      assert keys == init + [keys[|keys| - 1]];
      KeyIndex(init)[keys[|keys| - 1] := |keys| - 1]
  }

  predicate Distinct<T(==)>(s: seq<T>) {
    forall i, j :: 0 <= i < j < |s| ==> s[i] != s[j]
  }
}
