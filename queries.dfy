/**
 * Element queries as recorded during a render: the element type, the
 * parameters set on the query, the ORDER BY terms and the joined tables.
 * The builder functions read like the query calls they stand for:
 * `Where(Find(Entry), "sectionId", One(IntVal(1)))` is `Entry::find()->sectionId(1)`.
 */
module Queries {
  import opened Elements

  /** A single parameter value as a caller passes it: an integer or a string. */
  datatype Scalar = IntVal(n: int) | StrVal(s: string)

  /** A parameter value: one scalar, or an array of scalars. */
  datatype Value = One(x: Scalar) | Many(xs: seq<Scalar>)

  /** One ORDER BY term: a column (or raw SQL text) by name, or an opaque expression object. */
  datatype OrderTerm = Column(name: string) | Expression

  datatype Query = Query(
    elementType: ElementType,
    params: map<string, Value>,
    orderBy: seq<OrderTerm>,
    joins: seq<string>)

  /** A query of the given type with nothing set. */
  function Find(t: ElementType): Query {
    Query(t, map[], [], [])
  }

  /** The query with parameter `name` set to `v` (replacing an earlier value). */
  function Where(q: Query, name: string, v: Value): Query {
    q.(params := q.params[name := v])
  }

  /** The query with its ORDER BY replaced. */
  function OrderBy(q: Query, terms: seq<OrderTerm>): Query {
    q.(orderBy := terms)
  }

  /** The query with one more inner join. */
  function InnerJoin(q: Query, table: string): Query {
    q.(joins := q.joins + [table])
  }
}
