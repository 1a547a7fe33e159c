/**
 * The element records the mesh holds. Each keeps the node ids it was read
 * with and hands them back unchanged (`getid()`); the rest of an element
 * (its copy of the point coordinates, shape functions, energy) is not part
 * of this model.
 */
module Elements {
  import opened Text

  type Ids3 = s: seq<Int32> | |s| == 3 witness [0, 0, 0]
  type Ids4 = s: seq<Int32> | |s| == 4 witness [0, 0, 0, 0]
  type Ids6 = s: seq<Int32> | |s| == 6 witness [0, 0, 0, 0, 0, 0]
  type Ids9 = s: seq<Int32> | |s| == 9 witness [0, 0, 0, 0, 0, 0, 0, 0, 0]

  /** Two id triples are equal when they agree node by node. */
  lemma SameIds3(a: Ids3, b: Ids3)
    requires a[0] == b[0] && a[1] == b[1] && a[2] == b[2]
    ensures a == b
  {
    assert a == [b[0], b[1], b[2]] == b;
  }

  /** 3-node triangle (constant strain triangle). */
  datatype CST = CST(id: Ids3)

  /** 4-node quadrilateral. */
  datatype Q4 = Q4(id: Ids4)

  /** 6-node triangle (linear strain triangle). */
  datatype LST = LST(id: Ids6)

  /** 9-node quadrilateral. */
  datatype Q9 = Q9(id: Ids9)
}
