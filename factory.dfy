/** A prototype-based factory: new hooks are made by cloning the hook it was
    given. */
module Factories {
  import opened Hooks

  class Factory {
    /** The prototype; nothing after construction replaces it. */
    const hook: Hook

    constructor (hook: Hook)
      ensures this.hook == hook
    {
      this.hook := hook;
    }

    /** A new hook whose fields are those the prototype holds now. The
        prototype is left as it was, and later changes to the result cannot
        reach it. */
    method Make() returns (made: Hook)
      ensures fresh(made) && made != hook
      ensures made.name == hook.name && made.callback == hook.callback
      ensures made.priority == hook.priority && made.numberOfParameters == hook.numberOfParameters
    {
      made := hook.Clone();
    }
  }
}
