/** The shapes a list endpoint's body can take, and the three ways the
    screens pick their rows out of it. A body is missing, a bare array,
    or an object whose `data` or `applications` member may hold the
    array; `None` stands for a member that is absent. */
module Responses {
  import opened Wrappers

  datatype Body<T> =
    | NoBody
    | ArrayBody(items: seq<T>)
    | ObjectBody(data: Option<seq<T>>, applications: Option<seq<T>>)

  /** `data.data` when it is an array, else `data` itself when that is an
      array, else nothing. */
  function DataOrArray<T>(body: Body<T>): (rows: seq<T>)
    ensures body.ArrayBody? ==> rows == body.items
    ensures body.ObjectBody? && body.data.Some? ==> rows == body.data.value
    ensures body.NoBody? || (body.ObjectBody? && body.data.None?) ==> rows == []
  {
    match body
    case ObjectBody(Some(rows), _) => rows
    case ArrayBody(rows) => rows
    case _ => []
  }

  /** `data.data` when present, else nothing: a bare array is not read. */
  function DataOnly<T>(body: Body<T>): (rows: seq<T>)
    ensures body.ObjectBody? && body.data.Some? ==> rows == body.data.value
    ensures !(body.ObjectBody? && body.data.Some?) ==> rows == []
  {
    match body
    case ObjectBody(Some(rows), _) => rows
    case _ => []
  }

  /** `Array.isArray(data) ? data : data.data || data.applications || []`. */
  function ArrayFirst<T>(body: Body<T>): (rows: seq<T>)
    ensures body.ArrayBody? ==> rows == body.items
    ensures body.ObjectBody? && body.data.Some? ==> rows == body.data.value
    ensures body.ObjectBody? && body.data.None? && body.applications.Some? ==> rows == body.applications.value
    ensures body.NoBody? || (body.ObjectBody? && body.data.None? && body.applications.None?) ==> rows == []
  {
    match body
    case ArrayBody(rows) => rows
    case ObjectBody(Some(rows), _) => rows
    case ObjectBody(None, Some(rows)) => rows
    case _ => []
  }

  /** The three readers agree on an object with a `data` array; on a bare
      array the `data`-only reader finds no rows where the other two find
      them all, and only the last reader looks at `applications`. */
  lemma ReadersCompared<T>(body: Body<T>)
    ensures body.ObjectBody? && body.data.Some? ==>
      DataOnly(body) == DataOrArray(body) == ArrayFirst(body) == body.data.value
    ensures body.ArrayBody? ==>
      DataOrArray(body) == ArrayFirst(body) == body.items && DataOnly(body) == []
    ensures DataOnly(body) == [] || DataOnly(body) == DataOrArray(body)
    ensures DataOrArray(body) == [] || DataOrArray(body) == ArrayFirst(body)
  {
  }
}
