/** Values shared by the CRUD adapters: optional values, results, the
    record shape the backend stores, the collection names and the
    `refresh` callback the sync library hands to `list` and `subscribe`. */
module Common {

  /** A JavaScript value that may be `undefined`. */
  datatype Option<T> = None | Some(value: T) {
    function GetOr(default: T): T {
      match this
      case Some(v) => v
      case None => default
    }
  }

  /** A call that either returns a value or throws. */
  datatype Result<T, E> = Success(value: T) | Failure(error: E)

  /** One field of a stored record, as the GraphQL client delivers it. */
  datatype Field = Str(s: string) | Bool(b: bool) | Num(n: int) | Null

  /** A record of a collection: field name to field value. */
  type Entity = map<string, Field>

  /** The collections the data store declares. */
  datatype ModelName = Client | Todo

  /** `x || 0` for a number that may be `undefined`: both `undefined` and
      `0` give `0`, every other number is kept. */
  function OrZero(x: Option<int>): (r: int)
    ensures x.Some? ==> r == x.value
    ensures x.None? ==> r == 0
  {
    match x
    case Some(v) => v
    case None => 0
  }

  /** The `refresh` callback of the sync library. The model keeps only how
      often it was called; the library's reaction (scheduling another
      `list` call) is played by the sweep drivers. */
  class Refresher {
    var calls: nat

    constructor ()
      ensures calls == 0
    {
      calls := 0;
    }

    method Refresh()
      modifies this
      ensures calls == old(calls) + 1
    {
      calls := calls + 1;
    }
  }
}
