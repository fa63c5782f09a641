/** The loader: a registry of action hooks and filter hooks, each list kept
    in insertion order, that forwards every stored hook to the delegate when
    it is registered. */
module Loaders {
  import opened PhpValues
  import opened Hooks
  import opened WordPress
  import opened Factories

  /** What `register` forwards for one hook: its four getters, evaluated in
      the order PHP evaluates the call's arguments; the first one that throws
      decides the failure. */
  function Forward(h: Hook, host: Host): (r: Result<Registration>)
    reads h
    ensures r.Ok? <==> h.Complete() && IsCallable(h.callback, host)
    ensures r.Ok? ==> h.Holds(r.value)
    ensures h.name.None? ==> r == Err(Runtime(PropertyNotSetMessage("name")))
    ensures h.name.Some? && !IsCallable(h.callback, host) ==> r == Err(Runtime(PropertyNotSetMessage("callback")))
    ensures h.name.Some? && IsCallable(h.callback, host) && h.priority.None? ==>
      r == Err(Runtime(PropertyNotSetMessage("priority")))
    ensures h.name.Some? && IsCallable(h.callback, host) && h.priority.Some? && h.numberOfParameters.None? ==>
      r == Err(Runtime(PropertyNotSetMessage("numberOfParameters")))
  {
    match h.GetName()
    case Err(e) => Err(e)
    case Ok(name) =>
      match h.GetCallback(host)
      case Err(e) => Err(e)
      case Ok(callback) =>
        match h.GetPriority()
        case Err(e) => Err(e)
        case Ok(priority) =>
          match h.GetNumberOfParameters()
          case Err(e) => Err(e)
          case Ok(count) => Ok(Registration(name, callback, priority, count))
  }

  /** The calls made so far, and what stopped the walk if anything did. */
  datatype Flush = Flush(events: seq<Event>, failure: Option<Failure>)

  /** One `foreach` of `register`: forward the hooks in order, stopping at the
      first one whose getters throw. */
  function ForwardAll(kind: Kind, hooks: seq<Hook>, host: Host): (f: Flush)
    reads hooks
    ensures forall e :: e in f.events ==> e.kind == kind
    decreases |hooks|
  {
    if hooks == [] then Flush([], None)
    else
      var before := ForwardAll(kind, hooks[..|hooks| - 1], host);
      if before.failure.Some? then before
      else
        match Forward(hooks[|hooks| - 1], host)
        case Err(e) => Flush(before.events, Some(e))
        case Ok(reg) => Flush(before.events + [Event(kind, reg)], None)
  }

  /** The walk forwards a prefix of the hooks, one event per hook in the same
      order, and stops exactly at the first hook that cannot be forwarded. */
  lemma {:induction false} ForwardAllPrefix(kind: Kind, hooks: seq<Hook>, host: Host)
    ensures var f := ForwardAll(kind, hooks, host);
      |f.events| <= |hooks| &&
      (forall i :: 0 <= i < |f.events| ==>
         Forward(hooks[i], host).Ok? && f.events[i] == Event(kind, Forward(hooks[i], host).value)) &&
      (f.failure.None? ==> |f.events| == |hooks|) &&
      (f.failure.Some? ==> |f.events| < |hooks| && Forward(hooks[|f.events|], host) == Err(f.failure.value))
    decreases |hooks|
  {
    if hooks != [] {
      var init := hooks[..|hooks| - 1];
      ForwardAllPrefix(kind, init, host);
      var before := ForwardAll(kind, init, host);
      var f := ForwardAll(kind, hooks, host);
      forall i | 0 <= i < |before.events|
        ensures hooks[i] == init[i]
      {
      }
    }
  }

  /** The walk succeeds exactly when every hook can be forwarded, and then it
      forwards every hook, in order. */
  lemma {:induction false} ForwardAllSucceeds(kind: Kind, hooks: seq<Hook>, host: Host)
    ensures var f := ForwardAll(kind, hooks, host);
      (f.failure.None? <==> forall i :: 0 <= i < |hooks| ==> Forward(hooks[i], host).Ok?) &&
      (f.failure.None? ==>
         |f.events| == |hooks| &&
         forall i :: 0 <= i < |hooks| ==> f.events[i] == Event(kind, Forward(hooks[i], host).value))
  {
    ForwardAllPrefix(kind, hooks, host);
  }

  /** One more turn of the walk: with no failure so far, hook `i` either
      adds its event or stops the walk with its getter's exception. */
  lemma ForwardAllStep(kind: Kind, hooks: seq<Hook>, i: nat, host: Host)
    requires i < |hooks|
    requires ForwardAll(kind, hooks[..i], host).failure.None?
    ensures var before := ForwardAll(kind, hooks[..i], host).events;
      var r := Forward(hooks[i], host);
      ForwardAll(kind, hooks[..i + 1], host) ==
        if r.Ok? then Flush(before + [Event(kind, r.value)], None) else Flush(before, Some(r.error))
  {
    assert hooks[..i + 1][..i] == hooks[..i];
  }

  /** Once the walk over a prefix has failed, later hooks change nothing:
      the exception has already left the loop. */
  lemma {:induction false} FailureIsFinal(kind: Kind, hooks: seq<Hook>, n: nat, host: Host)
    requires n <= |hooks|
    requires ForwardAll(kind, hooks[..n], host).failure.Some?
    ensures ForwardAll(kind, hooks, host) == ForwardAll(kind, hooks[..n], host)
    decreases |hooks| - n
  {
    if n < |hooks| {
      assert hooks[..n + 1][..n] == hooks[..n];
      FailureIsFinal(kind, hooks, n + 1, host);
    } else {
      assert hooks[..n] == hooks;
    }
  }

  /** Everything `register` does: all actions, then (if none failed) all
      filters. */
  function RegisterFlush(actions: seq<Hook>, filters: seq<Hook>, host: Host): (f: Flush)
    reads actions, filters
    ensures ForwardAll(Action, actions, host).failure.Some? ==> f == ForwardAll(Action, actions, host)
    ensures f.failure.None? ==> ForwardAll(Action, actions, host).failure.None? && ForwardAll(Filter, filters, host).failure.None?
  {
    var a := ForwardAll(Action, actions, host);
    if a.failure.Some? then a
    else
      var f := ForwardAll(Filter, filters, host);
      Flush(a.events + f.events, f.failure)
  }

  /** With N actions and M filters that can all be forwarded, `register`
      makes exactly N + M calls: one `add_action` per action in insertion
      order, then one `add_filter` per filter in insertion order, each with
      that hook's four fields. */
  lemma RegisterForwardsAll(actions: seq<Hook>, filters: seq<Hook>, host: Host)
    requires forall i :: 0 <= i < |actions| ==> Forward(actions[i], host).Ok?
    requires forall j :: 0 <= j < |filters| ==> Forward(filters[j], host).Ok?
    ensures var f := RegisterFlush(actions, filters, host);
      f.failure.None? && |f.events| == |actions| + |filters| &&
      (forall i :: 0 <= i < |actions| ==>
         f.events[i] == Event(Action, Forward(actions[i], host).value) && actions[i].Holds(f.events[i].registration)) &&
      (forall j :: 0 <= j < |filters| ==>
         f.events[|actions| + j] == Event(Filter, Forward(filters[j], host).value) &&
         filters[j].Holds(f.events[|actions| + j].registration))
  {
    ForwardAllSucceeds(Action, actions, host);
    ForwardAllSucceeds(Filter, filters, host);
  }

  /** For hooks whose name, priority and parameter count are all set, the
      only getter that can stop `register` is `getCallback`, and it does so
      exactly when some callback is not callable. */
  lemma RegisterFailsOnlyOnCallback(actions: seq<Hook>, filters: seq<Hook>, host: Host)
    requires forall i :: 0 <= i < |actions| ==> actions[i].Complete()
    requires forall j :: 0 <= j < |filters| ==> filters[j].Complete()
    ensures var f := RegisterFlush(actions, filters, host);
      (f.failure.None? <==>
         (forall i :: 0 <= i < |actions| ==> IsCallable(actions[i].callback, host)) &&
         (forall j :: 0 <= j < |filters| ==> IsCallable(filters[j].callback, host))) &&
      (f.failure.Some? ==> f.failure.value == Runtime(PropertyNotSetMessage("callback")))
  {
    ForwardAllPrefix(Action, actions, host);
    ForwardAllPrefix(Filter, filters, host);
    ForwardAllSucceeds(Action, actions, host);
    ForwardAllSucceeds(Filter, filters, host);
  }

  /** The type checks `addAction` and `addFilter` run through the setters,
      in the setters' order: name, then priority, then parameter count (the
      callback is never checked). */
  function Validate(name: Value, callback: Value, priority: Value, count: Value): (r: Result<Registration>)
    ensures r.Ok? <==> name.Str? && priority.Int? && count.Int?
    ensures r.Ok? ==> r.value == Registration(name.s, callback, priority.i, count.i)
    ensures !name.Str? ==> r == Err(TypeMismatch("string", name))
    ensures name.Str? && !priority.Int? ==> r == Err(TypeMismatch("integer", priority))
    ensures name.Str? && priority.Int? && !count.Int? ==> r == Err(TypeMismatch("integer", count))
  {
    match AsString(name)
    case Err(e) => Err(e)
    case Ok(n) =>
      match AsInteger(priority)
      case Err(e) => Err(e)
      case Ok(p) =>
        match AsInteger(count)
        case Err(e) => Err(e)
        case Ok(k) => Ok(Registration(n, callback, p, k))
  }

  /** The hook name `post` registers: "admin_post_" and the query as text. */
  function PostHookName(query: Value): (r: Result<string>)
    ensures r.Err? <==> query.Object?
    ensures r.Ok? ==> r.value == "admin_post_" + ToPhpString(query).value
  {
    match ToPhpString(query)
    case Err(e) => Err(e)
    case Ok(text) => Ok("admin_post_" + text)
  }

  /** The hook name `ajax` registers: "wp_ajax_nopriv_" and the query when
      the endpoint is public (a truthy flag), "wp_ajax_" and the query when
      it is for authenticated users only. */
  function AjaxHookName(query: Value, public: Value): (r: Result<string>)
    ensures r.Err? <==> query.Object?
    ensures r.Ok? && Truthy(public) ==> r.value == "wp_ajax_nopriv_" + ToPhpString(query).value
    ensures r.Ok? && !Truthy(public) ==> r.value == "wp_ajax_" + ToPhpString(query).value
  {
    match ToPhpString(query)
    case Err(e) => Err(e)
    case Ok(text) => Ok(if Truthy(public) then "wp_ajax_nopriv_" + text else "wp_ajax_" + text)
  }

  /** No query makes `post` and `ajax` register the same hook name, and the
      query's text can be read back from either name. */
  lemma PostAndAjaxNamesDiffer(postQuery: Value, ajaxQuery: Value, public: Value)
    requires !postQuery.Object? && !ajaxQuery.Object?
    ensures PostHookName(postQuery).value != AjaxHookName(ajaxQuery, public).value
    ensures PostHookName(postQuery).value[11..] == ToPhpString(postQuery).value
    ensures AjaxHookName(ajaxQuery, public).value[if Truthy(public) then 15 else 8..] == ToPhpString(ajaxQuery).value
  {
    assert PostHookName(postQuery).value[0] == 'a';
    assert AjaxHookName(ajaxQuery, public).value[0] == 'w';
  }

  /** The two ajax prefixes overlap: the private endpoint for a query
      "nopriv_" + q uses the same hook name as the public endpoint for q. */
  lemma AjaxNamesOverlap(q: string)
    ensures AjaxHookName(Str("nopriv_" + q), Bool(false)) == AjaxHookName(Str(q), Bool(true))
  {
    assert "wp_ajax_" + ("nopriv_" + q) == "wp_ajax_nopriv_" + q;
  }

  class Loader {
    var hookFactory: Factory
    var wpDelegate: WordPressDelegate
    var actions: seq<Hook>
    var filters: seq<Hook>

    /** Every stored hook has its name, priority and parameter count set. */
    ghost predicate Valid()
      reads this, actions, filters
    {
      (forall i :: 0 <= i < |actions| ==> actions[i].Complete()) &&
      (forall j :: 0 <= j < |filters| ==> filters[j].Complete())
    }

    constructor (factory: Factory, wpDelegate: WordPressDelegate)
      ensures hookFactory == factory && this.wpDelegate == wpDelegate
      ensures actions == [] && filters == [] && Valid()
    {
      hookFactory := factory;
      this.wpDelegate := wpDelegate;
      actions := [];
      filters := [];
    }

    /** `after` is `before` with one more hook at the end, a new one holding
        exactly `reg`. */
    ghost predicate Appended(before: seq<Hook>, after: seq<Hook>, reg: Registration)
      reads after
    {
      |after| == |before| + 1 && after[..|before|] == before && after[|before|].Holds(reg)
    }

    /** Make a hook, run the four setters, and only when all of them accept
        their argument append the hook to `actions`. */
    method AddAction(name: Value, callback: Value, priority: Value, count: Value) returns (r: Result<Loader>)
      modifies this`actions
      ensures var v := Validate(name, callback, priority, count);
        if v.Ok? then
          r == Ok(this) && Appended(old(actions), actions, v.value) && fresh(actions[|old(actions)|])
        else
          r == Err(v.error) && actions == old(actions)
      ensures old(Valid()) ==> Valid()
    {
      var action := MakeHook(name, callback, priority, count);
      if action.Err? {
        return Err(action.error);
      }
      actions := actions + [action.value];
      r := Ok(this);
    }

    /** As `AddAction`, for `filters`. */
    method AddFilter(name: Value, callback: Value, priority: Value, count: Value) returns (r: Result<Loader>)
      modifies this`filters
      ensures var v := Validate(name, callback, priority, count);
        if v.Ok? then
          r == Ok(this) && Appended(old(filters), filters, v.value) && fresh(filters[|old(filters)|])
        else
          r == Err(v.error) && filters == old(filters)
      ensures old(Valid()) ==> Valid()
    {
      var filter := MakeHook(name, callback, priority, count);
      if filter.Err? {
        return Err(filter.error);
      }
      filters := filters + [filter.value];
      r := Ok(this);
    }

    /** The part `addAction` and `addFilter` share: a hook from the factory,
        with the four setters applied in order; the first setter that throws
        ends it. */
    method MakeHook(name: Value, callback: Value, priority: Value, count: Value) returns (r: Result<Hook>)
      ensures var v := Validate(name, callback, priority, count);
        if v.Ok? then r.Ok? && fresh(r.value) && r.value.Holds(v.value) && r.value.Complete()
        else r == Err(v.error)
    {
      var hook := hookFactory.Make();
      var outcome := hook.SetName(name);
      if outcome.Err? {
        return Err(outcome.error);
      }
      outcome := hook.SetCallback(callback);
      outcome := hook.SetPriority(priority);
      if outcome.Err? {
        return Err(outcome.error);
      }
      outcome := hook.SetNumberOfParameters(count);
      if outcome.Err? {
        return Err(outcome.error);
      }
      r := Ok(hook);
    }

    /** `post($query, $callback)`: the action "admin_post_{query}" with
        priority 10 and one parameter. */
    method Post(query: Value, callback: Value) returns (r: Result<Loader>)
      modifies this`actions
      ensures match PostHookName(query)
        case Err(e) => r == Err(e) && actions == old(actions)
        case Ok(hookName) =>
          r == Ok(this) && Appended(old(actions), actions, Registration(hookName, callback, 10, 1)) &&
          fresh(actions[|old(actions)|])
      ensures old(Valid()) ==> Valid()
    {
      var text := ToPhpString(query);
      if text.Err? {
        return Err(text.error);
      }
      r := AddAction(Str("admin_post_" + text.value), callback, Int(10), Int(1));
    }

    /** `ajax($query, $callback, $public = false)`: the action
        "wp_ajax_nopriv_{query}" for a public endpoint, "wp_ajax_{query}"
        otherwise, with priority 10 and one parameter. */
    method Ajax(query: Value, callback: Value, public: Value := Bool(false)) returns (r: Result<Loader>)
      modifies this`actions
      ensures match AjaxHookName(query, public)
        case Err(e) => r == Err(e) && actions == old(actions)
        case Ok(hookName) =>
          r == Ok(this) && Appended(old(actions), actions, Registration(hookName, callback, 10, 1)) &&
          fresh(actions[|old(actions)|])
      ensures old(Valid()) ==> Valid()
    {
      var text := ToPhpString(query);
      if text.Err? {
        return Err(text.error);
      }
      var hookName := "wp_ajax_" + text.value;
      if Truthy(public) {
        hookName := "wp_ajax_nopriv_" + text.value;
      }
      r := AddAction(Str(hookName), callback, Int(10), Int(1));
    }

    /** `register()`: forward every action, then every filter, to the
        delegate. The lists are left as they are, so registering again
        forwards every hook again. */
    method Register(host: Host) returns (r: Result<Loader>)
      modifies wpDelegate
      ensures var f := RegisterFlush(actions, filters, host);
        wpDelegate.trace == old(wpDelegate.trace) + f.events &&
        r == (if f.failure.None? then Ok(this) else Err(f.failure.value))
      ensures old(Valid()) && r.Err? ==> r.error == Runtime(PropertyNotSetMessage("callback"))
    {
      ghost var valid := Valid();
      if valid {
        RegisterFailsOnlyOnCallback(actions, filters, host);
      }
      var failure := ForwardHooks(Action, actions, host);
      if failure.Some? {
        return Err(failure.value);
      }
      failure := ForwardHooks(Filter, filters, host);
      if failure.Some? {
        return Err(failure.value);
      }
      r := Ok(this);
    }

    /** One `foreach` of `register`, over `hooks`. */
    method ForwardHooks(kind: Kind, hooks: seq<Hook>, host: Host) returns (failure: Option<Failure>)
      modifies wpDelegate
      ensures var f := ForwardAll(kind, hooks, host);
        wpDelegate.trace == old(wpDelegate.trace) + f.events && failure == f.failure
    {
      var i := 0;
      while i < |hooks|
        invariant 0 <= i <= |hooks|
        invariant ForwardAll(kind, hooks[..i], host).failure.None?
        invariant wpDelegate.trace == old(wpDelegate.trace) + ForwardAll(kind, hooks[..i], host).events
      {
        var hook := hooks[i];
        ForwardAllStep(kind, hooks, i, host);
        var name := hook.GetName();
        if name.Err? {
          FailureIsFinal(kind, hooks, i + 1, host);
          return Some(name.error);
        }
        var callback := hook.GetCallback(host);
        if callback.Err? {
          FailureIsFinal(kind, hooks, i + 1, host);
          return Some(callback.error);
        }
        var priority := hook.GetPriority();
        if priority.Err? {
          FailureIsFinal(kind, hooks, i + 1, host);
          return Some(priority.error);
        }
        var count := hook.GetNumberOfParameters();
        if count.Err? {
          FailureIsFinal(kind, hooks, i + 1, host);
          return Some(count.error);
        }
        if kind == Action {
          wpDelegate.AddAction(name.value, callback.value, priority.value, count.value);
        } else {
          wpDelegate.AddFilter(name.value, callback.value, priority.value, count.value);
        }
        i := i + 1;
      }
      assert hooks[..i] == hooks;
      failure := None;
    }
  }
}
