/** The source of identifiers: it may fail, and never repeats itself. */
module Ids {
  import opened Domain

  class IdSource {
    var next: Id

    constructor ()
      ensures next == 0
    {
      next := 0;
    }

    method New() returns (r: Result<Id>)
      modifies this
      ensures r == Ok(old(next)) || r == Err(NoEntropy)
      ensures next == if r.Ok? then old(next) + 1 else old(next)
    {
      var fails: bool := *;
      if fails {
        return Err(NoEntropy);
      }
      next := next + 1;
      return Ok(next - 1);
    }

    method Draw() returns (id: Id)
      modifies this
      ensures id == old(next) && next == old(next) + 1
    {
      id := next;
      next := next + 1;
    }
  }
}
