/** The host port a single-container app is launched on
    (src/apps/hostports_resolve.go), and its agreement with the tunnel resolver. */
module LaunchPorts {
  import opened Wrappers
  import opened Texts
  import opened HostPorts
  import opened ComposePorts
  import opened ComposeRewrite

  /** What docker binds for the rule's port, if the container is there. */
  function LiveBinding(live: Published, rule: Rule): nat {
    Lookup(live, Format(rule.port) + "/" + WireProtocol(rule.protocol))
  }

  /** Reserves the port one rule is published on. */
  method ReserveLaunch(reg: HostPortRegistry, app: App, rule: Rule, live: Published) returns (port: Option<nat>)
    requires reg.Valid()
    modifies reg
    ensures reg.Valid() && old(reg.log) <= reg.log && Reserves(app, reg.log[|old(reg.log)|..])
    ensures port.Some? ==> Granted(reg, TunnelKey(app, rule, ""), port.value)
    ensures app.stage.PROD? ==> Extends(old(reg.held), reg.held)
    ensures reg.held.Keys <= old(reg.held).Keys + {TunnelKey(app, rule, "")}
    ensures var preferred := Hint(rule, LiveBinding(live, rule));
            && (app.stage.PROD? || preferred > 0 ==>
                  Recovered(old(reg.View()), TunnelKey(app, rule, ""), preferred, port))
            && (app.stage.DEV? && preferred == 0 && rule.port !in old(reg.inUse) ==> port == Some(rule.port))
  {
    var key := TunnelKey(app, rule, "");
    var preferred := LiveBinding(live, rule);
    if preferred == 0 {
      preferred := rule.hostPort;
    }
    if app.stage.DEV? && preferred == 0 {
      var declared := DeclareKey(reg, key);
      if declared {
        return Some(key.port);
      }
    }
    port := RecoverKey(reg, key, preferred);
  }

  lemma PlainStepAssigns(app: App, rule: Rule, docker: Docker, before: Registry, after: Registry, port: Option<nat>)
    requires docker.Plain? && PlainStep(app, rule, docker, before, after, port)
    requires forall k :: k in before.held ==> !RuleKey(app, rule, k)
    ensures SoleKey(app, rule, after.held, "")
    ensures port.Some? && !OnHostNetwork(docker) ==>
              TunnelKey(app, rule, "") in after.held && after.held[TunnelKey(app, rule, "")] == port.value
  {
    var bound := PlainBinding(docker, rule);
    if !(bound == 0 && OnHostNetwork(docker)) && Hint(rule, bound) != 0 && Hint(rule, bound) in before.inUse {
      var refused :| (after, port) == ReserveFree(before, TunnelKey(app, rule, ""), refused);
      ScanIsLeastAndComplete(before, TunnelKey(app, rule, ""), refused);
    }
  }

  /** Launch and tunnel resolver of a PROD app run in either order, with any
      bystanders in between. The rule's key is assigned once; once both return a
      port it is the same one, but for a container still on the host network, which
      is dialed as it is when it has not been launched yet. */
  method TunnelAndLaunchAgree(
      reg: HostPortRegistry, app: App, rule: Rule, live: Published, docker: Docker, between: seq<Op>, tunnelFirst: bool)
    returns (dialed: Option<nat>, launched: Option<nat>)
    requires reg.Valid() && app.stage.PROD? && docker.Plain?
    requires SoleKey(app, rule, reg.held, "") && Bystanders(app, rule, "", between)
    modifies reg
    ensures reg.Valid() && SoleKey(app, rule, reg.held, "")
    ensures launched.Some? ==>
              TunnelKey(app, rule, "") in reg.held && reg.held[TunnelKey(app, rule, "")] == launched.value
    ensures dialed.Some? && launched.Some? && !OnHostNetwork(docker) ==> dialed == launched
    ensures launched.Some? && !tunnelFirst ==> dialed == launched
  {
    ghost var key := TunnelKey(app, rule, "");
    ghost var r0 := reg.View();
    if tunnelFirst {
      dialed := ResolveTunnel(reg, app, rule, docker);
      TunnelAssigns(app, rule, docker, r0, reg.View(), dialed);
    } else {
      launched := ReserveLaunch(reg, app, rule, live);
    }
    ghost var r1 := reg.View();
    Perform(reg, between);
    BystandersKeepSoleKey(app, rule, r1, between, "");
    if key in r1.held { HeldKeyKeepsItsPort(r1, between, key, 0, {}); }
    ghost var r2 := reg.View();
    if tunnelFirst {
      launched := ReserveLaunch(reg, app, rule, live);
    } else {
      dialed := ResolveTunnel(reg, app, rule, docker);
      TunnelAssigns(app, rule, docker, r2, reg.View(), dialed);
    }
  }

  /** Whatever the tunnel resolver returns for a plain app off the host network is
      the port of the rule's one key. */
  lemma TunnelAssigns(app: App, rule: Rule, docker: Docker, before: Registry, after: Registry, port: Option<nat>)
    requires docker.Plain? && SoleKey(app, rule, before.held, "")
    requires ReturnsKnown(app, rule, before, after, port)
    requires (forall k :: k in before.held ==> !RuleKey(app, rule, k)) ==>
               PlainStep(app, rule, docker, before, after, port)
    ensures SoleKey(app, rule, after.held, "")
    ensures port.Some? && !OnHostNetwork(docker) ==>
              TunnelKey(app, rule, "") in after.held && after.held[TunnelKey(app, rule, "")] == port.value
    ensures TunnelKey(app, rule, "") in before.held ==>
              after == before && port == Some(before.held[TunnelKey(app, rule, "")])
  {
    if forall k :: k in before.held ==> !RuleKey(app, rule, k) {
      PlainStepAssigns(app, rule, docker, before, after, port);
      assert RuleKey(app, rule, TunnelKey(app, rule, ""));
    } else {
      assert RuleKey(app, rule, TunnelKey(app, rule, ""));
    }
  }
}
