/** The initialization gate: a middleware that holds every request back
    until one `APIBox.Init` request has configured the signing validator and
    the proxy clients, then lets everything through. */
module Gate {
  import opened Wrappers
  import opened Router
  import opened Targets

  /** The action name of the one request the gate handles itself. */
  const InitAction := "APIBox.Init"

  /** The configuration option that switches the gate off. */
  const DisabledOption := "apiinit.disabled"

  /** A callback registered to run once initialization is done; the function
      itself is opaque, so a callback is known by an identifier. */
  datatype Callback = Callback(id: nat)

  /** The part of a request the gate looks at: its action and its flat
      parameter map. */
  datatype Request = Request(action: string, params: map<string, string>)

  /** An error of the gate's own error group. */
  datatype GroupError = GroupError(group: string, code: nat, name: string)

  /** The gate's only error, the first (and only) entry of the `init` group. */
  const ModuleInitWaiting := GroupError("init", 0, "ModuleInitWaiting")

  /** The three ways the gate treats a request. */
  datatype Decision = PassThrough | HandleInit | Reject

  /** What the gate does with a request: hand it to the next handler,
      answer it as the init request (handing the callbacks off to be run),
      or answer it with an error. */
  datatype Outcome = PassedThrough | Initialized(handoff: seq<Callback>) | Rejected(error: GroupError)

  /** The middlewares the init request configures, each present only when
      the application has registered it. */
  datatype Middlewares = Middlewares(sign: Option<SignTarget>, proxy: Option<map<string, Client>>)

  /** `GetDefaultBool("apiinit.disabled", false)` on a configuration of
      boolean options. */
  function ConfigDisabled(config: map<string, bool>): (disabled: bool)
    ensures DisabledOption !in config ==> !disabled
    ensures DisabledOption in config ==> disabled == config[DisabledOption]
  {
    if DisabledOption in config then config[DisabledOption] else false
  }

  /** The gate's decision for a request with the given action. */
  function Decide(disabled: bool, inited: bool, action: string): (d: Decision)
    ensures d == PassThrough <==> disabled || inited
    ensures d == HandleInit <==> !disabled && !inited && action == InitAction
    ensures d == Reject <==> !disabled && !inited && action != InitAction
  {
    if disabled then PassThrough
    else if inited then PassThrough
    else if action == InitAction then HandleInit
    else Reject
  }

  /** The middlewares after an init request with parameters `params`: the
      routed settings are applied to each middleware that is present, and
      only when its group of settings is not empty. */
  ghost function Configure(targets: Middlewares, params: map<string, string>): (r: Middlewares)
    ensures r.sign.Some? <==> targets.sign.Some?
    ensures r.proxy.Some? <==> targets.proxy.Some?
    ensures r.proxy.Some? ==> r.proxy.value.Keys == targets.proxy.value.Keys
    ensures SignParamsOf(params) == map[] ==> r.sign == targets.sign
  {
    var signParams := SignParamsOf(params);
    var proxyParams := ProxyParamsOf(params);
    Middlewares(
      if |signParams| > 0 && targets.sign.Some? then Some(SignConfigured(targets.sign.value, signParams))
      else targets.sign,
      if |proxyParams| > 0 && targets.proxy.Some? then Some(ProxyConfigured(targets.proxy.value, proxyParams))
      else targets.proxy)
  }

  /** The emptiness checks in front of the appliers make no difference: an
      empty group of settings leaves its middleware as it is anyway. */
  lemma ConfigureGuardsHarmless(targets: Middlewares, params: map<string, string>)
    ensures Configure(targets, params).sign ==
      (if targets.sign.Some? then Some(SignConfigured(targets.sign.value, SignParamsOf(params))) else None)
    ensures Configure(targets, params).proxy ==
      (if targets.proxy.Some? then Some(ProxyConfigured(targets.proxy.value, ProxyParamsOf(params))) else None)
  {
    if targets.proxy.Some? && ProxyParamsOf(params) == map[] {
      var registry := targets.proxy.value;
      assert ProxyConfigured(registry, map[]) == registry;
    }
  }

  /** An init request carrying one signing key, one backend URL and two keys
      of no middleware sets the validator's key and the backend's URL and
      changes nothing else. */
  lemma ConfigureExample(sign: SignTarget, registry: map<string, Client>)
    requires "b1" in registry
    ensures var params := map["apisign.sign_key" := "abc", "apiproxy.b1.gwurl" := "http://x",
                              "foo.bar" := "z", "noDot" := "y"];
      var after := Configure(Middlewares(Some(sign), Some(registry)), params);
      && after.sign == Some(sign.(signKey := "abc"))
      && after.proxy.Some? && after.proxy.value.Keys == registry.Keys
      && after.proxy.value["b1"] == ClientConfigured(registry["b1"], map["gwurl" := "http://x"])
      && forall alias :: alias in registry && alias != "b1" ==> after.proxy.value[alias] == registry[alias]
  {
    RouteExample();
    var params := map["apisign.sign_key" := "abc", "apiproxy.b1.gwurl" := "http://x",
                      "foo.bar" := "z", "noDot" := "y"];
    var proxyParams := map["b1" := map["gwurl" := "http://x"]];
    assert Configure(Middlewares(Some(sign), Some(registry)), params).proxy
        == Some(ProxyConfigured(registry, proxyParams));
  }

  /** The decisions on a run of requests with the given actions, starting
      from the given flags. */
  function Run(disabled: bool, inited: bool, actions: seq<string>): (ds: seq<Decision>)
    ensures |ds| == |actions|
    decreases |actions|
  {
    if actions == [] then []
    else
      var d := Decide(disabled, inited, actions[0]);
      [d] + Run(disabled, inited || d == HandleInit, actions[1..])
  }

  /** The `inited` flag after a run of requests. */
  function InitedAfter(disabled: bool, inited: bool, actions: seq<string>): bool
    decreases |actions|
  {
    if actions == [] then inited
    else InitedAfter(disabled, inited || Decide(disabled, inited, actions[0]) == HandleInit, actions[1..])
  }

  /** The actions of a run of requests. */
  function Actions(requests: seq<Request>): seq<string>
  {
    seq(|requests|, i requires 0 <= i < |requests| => requests[i].action)
  }

  /** What the gate answers for a decision, with the callbacks it holds. */
  function OutcomeOf(d: Decision, callbacks: seq<Callback>): Outcome
  {
    match d
    case PassThrough => PassedThrough
    case HandleInit => Initialized(callbacks)
    case Reject => Rejected(ModuleInitWaiting)
  }

  /** The middlewares after a run of requests: each request handled as the
      init request configures them. */
  ghost function TargetsAfter(disabled: bool, inited: bool, requests: seq<Request>, targets: Middlewares): Middlewares
    decreases |requests|
  {
    if requests == [] then targets
    else
      var earlier := requests[..|requests| - 1];
      var last := requests[|requests| - 1];
      var before := TargetsAfter(disabled, inited, earlier, targets);
      if Decide(disabled, InitedAfter(disabled, inited, Actions(earlier)), last.action) == HandleInit
      then Configure(before, last.params)
      else before
  }

  /** One more request at the end of a run adds the decision taken with the
      flag the run so far left behind, and updates that flag. */
  lemma {:induction false} RunSnoc(disabled: bool, inited: bool, actions: seq<string>, action: string)
    ensures Run(disabled, inited, actions + [action])
         == Run(disabled, inited, actions) + [Decide(disabled, InitedAfter(disabled, inited, actions), action)]
    ensures InitedAfter(disabled, inited, actions + [action])
         == (InitedAfter(disabled, inited, actions) || Decide(disabled, InitedAfter(disabled, inited, actions), action) == HandleInit)
    decreases |actions|
  {
    if actions == [] {
      assert actions + [action] == [action];
    } else {
      var d := Decide(disabled, inited, actions[0]);
      assert (actions + [action])[0] == actions[0];
      assert (actions + [action])[1..] == actions[1..] + [action];
      RunSnoc(disabled, inited || d == HandleInit, actions[1..], action);
    }
  }

  /** The gate ends a run initialized exactly when it started so or handled
      an init request during the run; in particular it never returns to
      uninitialized. */
  lemma {:induction false} InitedAfterRun(disabled: bool, inited: bool, actions: seq<string>)
    ensures InitedAfter(disabled, inited, actions) <==> inited || HandleInit in Run(disabled, inited, actions)
    decreases |actions|
  {
    if actions != [] {
      var d := Decide(disabled, inited, actions[0]);
      InitedAfterRun(disabled, inited || d == HandleInit, actions[1..]);
      assert Run(disabled, inited, actions) == [d] + Run(disabled, inited || d == HandleInit, actions[1..]);
    }
  }

  /** A disabled or initialized gate passes every request through, a second
      `APIBox.Init` included. */
  lemma {:induction false} RunPassesWhenSettled(disabled: bool, inited: bool, actions: seq<string>)
    requires disabled || inited
    ensures forall i :: 0 <= i < |actions| ==> Run(disabled, inited, actions)[i] == PassThrough
    decreases |actions|
  {
    if actions != [] {
      RunPassesWhenSettled(disabled, inited, actions[1..]);
    }
  }

  /** Once an init request has been handled, every later request passes
      through. */
  lemma {:induction false} RunAfterInit(disabled: bool, inited: bool, actions: seq<string>, i: nat)
    requires i < |actions| && Run(disabled, inited, actions)[i] == HandleInit
    ensures forall j :: i < j < |actions| ==> Run(disabled, inited, actions)[j] == PassThrough
    decreases i
  {
    var d := Decide(disabled, inited, actions[0]);
    var tail := Run(disabled, inited || d == HandleInit, actions[1..]);
    assert Run(disabled, inited, actions) == [d] + tail;
    if i == 0 {
      RunPassesWhenSettled(disabled, true, actions[1..]);
    } else {
      assert tail[i - 1] == HandleInit;
      RunAfterInit(disabled, inited || d == HandleInit, actions[1..], i - 1);
    }
  }

  /** At most one request of a run is handled as the init request. */
  lemma RunAtMostOneInit(disabled: bool, inited: bool, actions: seq<string>, i: nat, j: nat)
    requires i < j < |actions|
    ensures !(Run(disabled, inited, actions)[i] == HandleInit && Run(disabled, inited, actions)[j] == HandleInit)
  {
    if Run(disabled, inited, actions)[i] == HandleInit {
      RunAfterInit(disabled, inited, actions, i);
    }
  }

  /** A request is rejected only by an enabled gate that has not been
      initialized, so every request before it was rejected too. */
  lemma {:induction false} RunRejectedBeforeInit(disabled: bool, inited: bool, actions: seq<string>, j: nat)
    requires j < |actions| && Run(disabled, inited, actions)[j] == Reject
    ensures !disabled && !inited && actions[j] != InitAction
    ensures forall i :: 0 <= i < j ==> Run(disabled, inited, actions)[i] == Reject
    decreases j
  {
    var d := Decide(disabled, inited, actions[0]);
    var tail := Run(disabled, inited || d == HandleInit, actions[1..]);
    assert Run(disabled, inited, actions) == [d] + tail;
    if disabled || inited {
      RunPassesWhenSettled(disabled, inited, actions);
      assert false;
    }
    if j > 0 {
      assert tail[j - 1] == Reject;
      RunRejectedBeforeInit(disabled, inited || d == HandleInit, actions[1..], j - 1);
      assert d != HandleInit;
    }
  }

  /** The gate middleware. */
  class Init {
    const disabled: bool
    var inited: bool
    var callbacks: seq<Callback>

    /** A new gate: disabled as configured (by default not), not yet
        initialized, with no callbacks. */
    constructor (config: map<string, bool>)
      ensures disabled == ConfigDisabled(config)
      ensures !inited && callbacks == []
    {
      disabled := ConfigDisabled(config);
      inited := false;
      callbacks := [];
    }

    /** Registers a callback after those already registered. */
    method AddCallback(callback: Callback)
      modifies this
      ensures callbacks == old(callbacks) + [callback]
      ensures inited == old(inited)
    {
      callbacks := callbacks + [callback];
    }

    /** One request through the gate. A passed-through or rejected request
        changes nothing; the init request configures the middlewares present,
        marks the gate initialized whatever settings it carried, and hands
        the registered callbacks off, in order, to be run. */
    method ServeHTTP(request: Request, targets: Middlewares) returns (outcome: Outcome, targets': Middlewares)
      modifies this
      ensures callbacks == old(callbacks)
      ensures var d := Decide(disabled, old(inited), request.action);
        && inited == (old(inited) || d == HandleInit)
        && outcome == OutcomeOf(d, callbacks)
        && targets' == (if d == HandleInit then Configure(targets, request.params) else targets)
    {
      targets' := targets;
      match Decide(disabled, inited, request.action)
      case PassThrough =>
        outcome := PassedThrough;
      case Reject =>
        outcome := Rejected(ModuleInitWaiting);
      case HandleInit =>
        var signParams, proxyParams := Route(request.params);
        if |signParams| > 0 && targets.sign.Some? {
          var sign := ApplySignSettings(targets.sign.value, signParams);
          targets' := targets'.(sign := Some(sign));
        }
        if |proxyParams| > 0 && targets.proxy.Some? {
          var registry := ApplyProxySettings(targets.proxy.value, proxyParams);
          targets' := targets'.(proxy := Some(registry));
        }
        inited := true;
        outcome := Initialized(callbacks);
    }

    /** A run of requests through the gate, one after the other, each seeing
        the middlewares the previous ones left behind. The gate answers each
        as `Run` decides, ends with the flag `InitedAfter` gives, and leaves
        the middlewares as `TargetsAfter` gives. */
    method ServeAll(requests: seq<Request>, targets: Middlewares) returns (outcomes: seq<Outcome>, targets': Middlewares)
      modifies this
      ensures callbacks == old(callbacks)
      ensures inited == InitedAfter(disabled, old(inited), Actions(requests))
      ensures |outcomes| == |requests|
      ensures forall i :: 0 <= i < |requests| ==>
        outcomes[i] == OutcomeOf(Run(disabled, old(inited), Actions(requests))[i], callbacks)
      ensures targets' == TargetsAfter(disabled, old(inited), requests, targets)
    {
      ghost var inited0 := inited;
      ghost var actions := Actions(requests);
      outcomes := [];
      targets' := targets;
      var i := 0;
      while i < |requests|
        invariant 0 <= i <= |requests|
        invariant callbacks == old(callbacks)
        invariant inited == InitedAfter(disabled, inited0, actions[..i])
        invariant |outcomes| == i
        invariant forall k :: 0 <= k < i ==>
          outcomes[k] == OutcomeOf(Run(disabled, inited0, actions[..i])[k], callbacks)
        invariant targets' == TargetsAfter(disabled, inited0, requests[..i], targets)
      {
        assert actions[..i + 1] == actions[..i] + [requests[i].action];
        assert requests[..i + 1][..i] == requests[..i];
        assert Actions(requests[..i]) == actions[..i];
        RunSnoc(disabled, inited0, actions[..i], requests[i].action);
        ghost var decisions := Run(disabled, inited0, actions[..i]);
        assert Run(disabled, inited0, actions[..i + 1])
            == decisions + [Decide(disabled, inited, requests[i].action)];
        var outcome;
        outcome, targets' := ServeHTTP(requests[i], targets');
        outcomes := outcomes + [outcome];
        i := i + 1;
      }
      assert actions[..i] == actions;
      assert requests[..i] == requests;
    }
  }
}
