/** The vocabulary of the vector store port, shared by its adapters. */
module VectorPort {
  import opened Common

  type Vector = seq<real>

  datatype Match = Match(id: int, score: real)

  datatype Query = Query(vector: Vector, org: int, space: int, topK: int, minScore: Option<real>)
}
