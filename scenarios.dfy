/** Client code: the situations the library's unit tests set up, and a few
    they do not, each with what the model says must come out of it. */
module Scenarios {
  import opened PhpValues
  import opened Hooks
  import opened WordPress
  import opened Factories
  import opened Loaders

  /** The closure the tests use as a callback. */
  const closure: Value := Object("Closure", 0)

  /** A loader over a fresh prototype hook and a fresh delegate. */
  method NewLoader() returns (loader: Loader)
    ensures fresh(loader) && fresh(loader.wpDelegate) && fresh(loader.hookFactory)
    ensures fresh(loader.hookFactory.hook)
    ensures loader.actions == [] && loader.filters == [] && loader.wpDelegate.trace == []
  {
    var prototype := new Hook();
    var factory := new Factory(prototype);
    var delegate := new WordPressDelegate();
    loader := new Loader(factory, delegate);
  }

  /** One action and one filter, then `register`: the delegate receives
      exactly one `add_action` and then one `add_filter`, with the values
      given. */
  method ActionThenFilterAreRegistered(host: Host) returns (loader: Loader, trace: seq<Event>, result: Result<Loader>)
    ensures trace == [Event(Action, Registration("My Action", closure, 1, 1)),
                      Event(Filter, Registration("My Filter", closure, 1, 1))]
    ensures result == Ok(loader)
  {
    loader := NewLoader();
    var added := loader.AddAction(Str("My Action"), closure, Int(1), Int(1));
    added := loader.AddFilter(Str("My Filter"), closure, Int(1), Int(1));
    ForwardsOneOfEach(loader.actions, loader.filters, host);
    result := loader.Register(host);
    trace := loader.wpDelegate.trace;
  }

  /** One complete action and one complete filter, both with a Closure as
      callback, are forwarded as one `add_action` and then one
      `add_filter`. */
  lemma ForwardsOneOfEach(actions: seq<Hook>, filters: seq<Hook>, host: Host)
    requires |actions| == 1 && actions[0].Holds(Registration("My Action", closure, 1, 1))
    requires |filters| == 1 && filters[0].Holds(Registration("My Filter", closure, 1, 1))
    ensures RegisterFlush(actions, filters, host) ==
      Flush([Event(Action, Registration("My Action", closure, 1, 1)),
             Event(Filter, Registration("My Filter", closure, 1, 1))], None)
  {
    RegisterForwardsAll(actions, filters, host);
  }

  /** `register` leaves the lists alone, so a second call forwards the same
      hooks a second time. */
  method RegisterTwice(host: Host) returns (trace: seq<Event>)
    ensures trace == [Event(Action, Registration("init", closure, 10, 1)),
                      Event(Action, Registration("init", closure, 10, 1))]
  {
    var loader := NewLoader();
    var added := loader.AddAction(Str("init"), closure, Int(10), Int(1));
    RegisterForwardsAll(loader.actions, loader.filters, host);
    var result := loader.Register(host);
    result := loader.Register(host);
    trace := loader.wpDelegate.trace;
  }

  /** A rejected argument leaves both lists as they were, and the error
      names the value received. */
  method RejectedArgumentsAddNothing() returns (byName: Result<Loader>, byPriority: Result<Loader>, actions: nat, filters: nat)
    ensures byName == Err(InvalidArgument("Received non-string type: 2"))
    ensures byPriority == Err(InvalidArgument("Received non-integer type: 1"))
    ensures actions == 0 && filters == 0
  {
    var loader := NewLoader();
    byName := loader.AddAction(Int(2), closure, Int(1), Int(1));
    byPriority := loader.AddFilter(Str("Filter"), closure, Str("1"), Int(1));
    actions, filters := |loader.actions|, |loader.filters|;
  }

  /** The hook names `post` and `ajax` register for the query
      "post_update"; `ajax` is private unless told otherwise. */
  method RouteNames() returns (names: seq<string>)
    ensures names == ["admin_post_post_update", "wp_ajax_post_update", "wp_ajax_nopriv_post_update"]
  {
    var loader := NewLoader();
    var r := loader.Post(Str("post_update"), closure);
    r := loader.Ajax(Str("post_update"), closure);
    r := loader.Ajax(Str("post_update"), closure, Bool(true));
    assert "admin_post_" + "post_update" == "admin_post_post_update";
    assert "wp_ajax_" + "post_update" == "wp_ajax_post_update";
    assert "wp_ajax_nopriv_" + "post_update" == "wp_ajax_nopriv_post_update";
    names := [loader.actions[0].name.value, loader.actions[1].name.value, loader.actions[2].name.value];
  }

  /** An action whose callback is not callable stops `register` when it is
      reached: the hooks before it have already been forwarded, nothing after
      it is, and the error is the getter's. */
  method RegisterStopsAtUncallable(host: Host) returns (trace: seq<Event>, result: Result<Loader>)
    ensures trace == [Event(Action, Registration("first", closure, 10, 1))]
    ensures result == Err(Runtime(PropertyNotSetMessage("callback")))
  {
    var loader := NewLoader();
    var added := loader.AddAction(Str("first"), closure, Int(10), Int(1));
    added := loader.AddAction(Str("second"), Int(5), Int(10), Int(1));
    added := loader.AddFilter(Str("third"), closure, Int(10), Int(1));
    StopsAtSecondAction(loader.actions, loader.filters, host);
    result := loader.Register(host);
    trace := loader.wpDelegate.trace;
  }

  /** The walk over a forwardable action followed by one whose callback is
      the int 5 ends after one event, whatever the filters are. */
  lemma StopsAtSecondAction(actions: seq<Hook>, filters: seq<Hook>, host: Host)
    requires |actions| == 2 && actions[0].Holds(Registration("first", closure, 10, 1))
    requires actions[1].name.Some? && actions[1].callback == Int(5)
    ensures RegisterFlush(actions, filters, host) ==
      Flush([Event(Action, Registration("first", closure, 10, 1))], Some(Runtime(PropertyNotSetMessage("callback"))))
  {
    assert Forward(actions[0], host) == Ok(Registration("first", closure, 10, 1));
    assert Forward(actions[1], host) == Err(Runtime(PropertyNotSetMessage("callback")));
    ForwardAllPrefix(Action, actions, host);
  }

  /** Hooks made from a fresh prototype start with every getter failing. */
  method MadeHooksStartUnset(host: Host) returns (name: Result<string>, callback: Result<Value>, priority: Result<int>, count: Result<int>)
    ensures name == Err(Runtime(PropertyNotSetMessage("name")))
    ensures callback == Err(Runtime(PropertyNotSetMessage("callback")))
    ensures priority == Err(Runtime(PropertyNotSetMessage("priority")))
    ensures count == Err(Runtime(PropertyNotSetMessage("numberOfParameters")))
  {
    var prototype := new Hook();
    var factory := new Factory(prototype);
    var made := factory.Make();
    name, callback := made.GetName(), made.GetCallback(host);
    priority, count := made.GetPriority(), made.GetNumberOfParameters();
  }

  /** Since `__clone`'s result is thrown away, a prototype changed after the
      factory was built passes its fields on to every hook made later; the
      made hook is still a separate object, so setting it leaves the
      prototype alone. */
  method PrototypeStateIsCopied() returns (copied: Result<string>, renamed: Result<string>, prototype: Result<string>)
    ensures copied == Ok("shared") && renamed == Ok("renamed") && prototype == Ok("shared")
  {
    var hook := new Hook();
    var factory := new Factory(hook);
    var r := hook.SetName(Str("shared"));
    var copy := factory.Make();
    copied := copy.GetName();
    r := copy.SetName(Str("renamed"));
    renamed, prototype := copy.GetName(), hook.GetName();
  }
}
