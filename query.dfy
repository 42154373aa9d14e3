/**
 * The pieces of a Prisma `where` object that the list operations build.
 */
module Query {
  import opened Js

  /** `{ [field]: { contains: term, mode: 'insensitive' } }` */
  datatype Contains<F> = Contains(field: F, term: string)

  /** `{ gte?, lte? }`: an inclusive range whose missing bounds are absent. */
  datatype Range = Range(gte: Option<int>, lte: Option<int>)

  /** The `OR` list that searches `term` in every one of `fields`, in order. */
  function SearchAll<F>(fields: seq<F>, term: string): (r: seq<Contains<F>>)
    ensures |r| == |fields|
    ensures forall i :: 0 <= i < |r| ==> r[i] == Contains(fields[i], term)
  {
    if fields == [] then [] else [Contains(fields[0], term)] + SearchAll(fields[1..], term)
  }
}
