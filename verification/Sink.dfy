/** The event sink, as the record of what was published for each execution. */
module Sink {
  import opened Domain

  class EventLog {
    var published: map<Id, seq<Event>>

    constructor ()
      ensures published == map[]
    {
      published := map[];
    }

    method Publish(v: Event)
      modifies this
      ensures published == old(published)[v.executionId := old(Of(v.executionId)) + [v]]
    {
      published := published[v.executionId := Of(v.executionId) + [v]];
    }

    function Of(e: Id): seq<Event>
      reads this
    {
      if e in published then published[e] else []
    }
  }
}
