/** The boundary to the host's two global registration calls, `add_action`
    and `add_filter`. What the host does with a registration is not part of
    this model: the delegate only records, in order, the calls it receives. */
module WordPress {
  import opened PhpValues
  import opened Hooks

  datatype Kind = Action | Filter

  /** One call forwarded to the host. */
  datatype Event = Event(kind: Kind, registration: Registration)

  class WordPressDelegate {
    /** Every call made so far, oldest first. */
    var trace: seq<Event>

    constructor ()
      ensures trace == []
    {
      trace := [];
    }

    /** `add_action($name, $callback, $priority, $numberOfParameters)`. */
    method AddAction(name: string, callback: Value, priority: int, numberOfParameters: int)
      modifies this
      ensures trace == old(trace) + [Event(Action, Registration(name, callback, priority, numberOfParameters))]
    {
      trace := trace + [Event(Action, Registration(name, callback, priority, numberOfParameters))];
    }

    /** `add_filter($name, $callback, $priority, $numberOfParameters)`. */
    method AddFilter(name: string, callback: Value, priority: int, numberOfParameters: int)
      modifies this
      ensures trace == old(trace) + [Event(Filter, Registration(name, callback, priority, numberOfParameters))]
    {
      trace := trace + [Event(Filter, Registration(name, callback, priority, numberOfParameters))];
    }
  }
}
