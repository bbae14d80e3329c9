/**
 This module models the controller's check that the host's own Party plugin is
 enabled: the plugin list is scanned for the first Party plugin, and the
 answer is that plugin's enabled flag (false when there is none).
 */
module Plugins {

  /** One entry of the host's plugin list, as far as the check looks at it:
      whether it is a Party plugin, and whether the user has it enabled. */
  datatype Plugin = Plugin(isPartyPlugin: bool, enabled: bool)

  /** True iff index `i` holds the first Party plugin of the list. */
  ghost predicate FirstPartyPluginAt(plugins: seq<Plugin>, i: int)
  {
    && 0 <= i < |plugins|
    && plugins[i].isPartyPlugin
    && forall j :: 0 <= j < i ==> !plugins[j].isPartyPlugin
  }

  /** True iff the list holds a Party plugin and the first one is enabled. */
  ghost predicate FirstPartyPluginEnabled(plugins: seq<Plugin>)
  {
    exists i :: FirstPartyPluginAt(plugins, i) && plugins[i].enabled
  }

  /** The check as a function over the list, for use inside the controller. */
  function PartyPluginEnabled(plugins: seq<Plugin>): bool
  {
    if |plugins| == 0 then false
    else if plugins[0].isPartyPlugin then plugins[0].enabled
    else PartyPluginEnabled(plugins[1..])
  }

  /** The function answers exactly whether the first Party plugin is enabled. */
  lemma {:induction false} PartyPluginEnabledIsFirstMatch(plugins: seq<Plugin>)
    ensures PartyPluginEnabled(plugins) <==> FirstPartyPluginEnabled(plugins)
  {
    if |plugins| == 0 {
    } else if plugins[0].isPartyPlugin {
      if plugins[0].enabled {
        assert FirstPartyPluginAt(plugins, 0);
      } else {
        forall i | FirstPartyPluginAt(plugins, i)
          ensures !plugins[i].enabled
        {
          assert i == 0;
        }
      }
    } else {
      var rest := plugins[1..];
      PartyPluginEnabledIsFirstMatch(rest);
      if PartyPluginEnabled(rest) {
        var i :| FirstPartyPluginAt(rest, i) && rest[i].enabled;
        assert FirstPartyPluginAt(plugins, i + 1);
      } else {
        forall i | FirstPartyPluginAt(plugins, i) && plugins[i].enabled
          ensures false
        {
          assert FirstPartyPluginAt(rest, i - 1);
        }
      }
    }
  }

  /** A list without any Party plugin makes the check fail. */
  lemma {:induction false} NoPartyPluginNotEnabled(plugins: seq<Plugin>)
    requires forall i :: 0 <= i < |plugins| ==> !plugins[i].isPartyPlugin
    ensures !PartyPluginEnabled(plugins)
  {
    PartyPluginEnabledIsFirstMatch(plugins);
  }

  /** `CheckForPartyPlugin`: a scan that stops at the first Party plugin. */
  method CheckForPartyPlugin(plugins: seq<Plugin>) returns (enabled: bool)
    ensures enabled <==> FirstPartyPluginEnabled(plugins)
    ensures enabled == PartyPluginEnabled(plugins)
  {
    enabled := false;
    var i := 0;
    while i < |plugins|
      invariant 0 <= i <= |plugins|
      invariant forall j :: 0 <= j < i ==> !plugins[j].isPartyPlugin
      invariant !enabled
    {
      if plugins[i].isPartyPlugin {
        if plugins[i].enabled {
          enabled := true;
        }
        break;
      }
      i := i + 1;
    }
    PartyPluginEnabledIsFirstMatch(plugins);
    if i < |plugins| {
      assert FirstPartyPluginAt(plugins, i);
    } else {
      NoPartyPluginNotEnabled(plugins);
    }
  }
}
