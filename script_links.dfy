/**
 * EnsureSiteScriptLink: a site collection user custom action at the
 * "ScriptLink" location that references a script. The action is found by a
 * case-insensitive match on its name; a missing one is added, an existing one
 * is loaded and saved again only when one of its fields differs.
 */
module ScriptLinks {
  import opened Errors
  import opened Text
  import opened Remote
  import opened Plans

  const ScriptLinkLocation: string := "ScriptLink"

  /** The custom action EnsureSiteScriptLink leaves behind. */
  function ScriptLink(name: string, scriptSrc: string, sequence: int): UserCustomAction
  {
    UserCustomAction(ScriptLinkLocation, name, scriptSrc, sequence)
  }

  /**
   * FirstOrDefault over the custom actions with a case-insensitive name
   * comparison: the index of the first match, or -1 when there is none.
   */
  function FindScriptLink(actions: seq<UserCustomAction>, name: string): (i: int)
    ensures -1 <= i < |actions|
    ensures i >= 0 ==> EqualsIgnoreCase(actions[i].name, name)
    ensures forall j :: 0 <= j < |actions| && (i < 0 || j < i) ==> !EqualsIgnoreCase(actions[j].name, name)
    decreases |actions|
  {
    if |actions| == 0 then -1
    else if EqualsIgnoreCase(actions[0].name, name) then 0
    else
      var j := FindScriptLink(actions[1..], name);
      if j < 0 then -1 else j + 1
  }

  /**
   * The existing action's fields compared one by one with the wanted ones;
   * each differing field is overwritten and marks the action as changed.
   */
  method Reconcile(existing: UserCustomAction, name: string, scriptSrc: string, sequence: int)
    returns (action: UserCustomAction, changed: bool)
    ensures action == ScriptLink(name, scriptSrc, sequence)
    ensures changed <==> existing != ScriptLink(name, scriptSrc, sequence)
  {
    action := existing;
    changed := false;
    if action.location != ScriptLinkLocation {
      action := action.(location := ScriptLinkLocation);
      changed := true;
    }
    if action.name != name {
      action := action.(name := name);
      changed := true;
    }
    if action.scriptSrc != scriptSrc {
      action := action.(scriptSrc := scriptSrc);
      changed := true;
    }
    if action.sequence != sequence {
      action := action.(sequence := sequence);
      changed := true;
    }
  }

  /**
   * The requests EnsureSiteScriptLink makes from the site's state s: load the
   * custom actions; add the link when no name matches; otherwise load the
   * matching action and save it only when it differs from the wanted one.
   */
  function ScriptLinkPlan(site: Site, s: SiteState, name: string, scriptSrc: string, sequence: int): seq<Step>
  {
    match site.CustomActionsQuery(s)
    case Fail(e) => [Raise(e)]
    case Ok(actions) =>
      var i := FindScriptLink(actions, name);
      var link := ScriptLink(name, scriptSrc, sequence);
      if i < 0 then [Request(SaveCustomAction(name), CustomActionAdded(link))]
      else if LoadCustomAction(name) in site.faults then [Raise(site.FaultOf(LoadCustomAction(name)))]
      else [StepIf(actions[i] != link, Request(SaveCustomAction(name), CustomActionUpdated(i, link)))]
  }

  /** What EnsureSiteScriptLink returns for a run of its plan. */
  function LinkResult(x: Executed, name: string, scriptSrc: string, sequence: int): Result<UserCustomAction>
  {
    if x.outcome.Pass? then Ok(ScriptLink(name, scriptSrc, sequence)) else Fail(x.outcome.error)
  }

  // ---------------------------------------------------------------------------
  // What the plan does

  /** A link is added exactly when no action's name matches, and saved again exactly when the match differs. */
  lemma UpdatesOnlyWhenChanged(site: Site, s: SiteState, name: string, scriptSrc: string, sequence: int)
    requires site.CustomActionsQuery(s).Ok?
    ensures var actions := site.CustomActionsQuery(s).value;
      var i := FindScriptLink(actions, name);
      var link := ScriptLink(name, scriptSrc, sequence);
      var plan := ScriptLinkPlan(site, s, name, scriptSrc, sequence);
      (Request(SaveCustomAction(name), CustomActionAdded(link)) in plan <==> i < 0) &&
      (i >= 0 ==>
        (Request(SaveCustomAction(name), CustomActionUpdated(i, link)) in plan <==>
           LoadCustomAction(name) !in site.faults && actions[i] != link))
  {
  }

  /** A link appended to actions none of which matches its name is the first match. */
  lemma {:induction false} FindAfterAdd(actions: seq<UserCustomAction>, name: string, link: UserCustomAction)
    requires FindScriptLink(actions, name) < 0 && EqualsIgnoreCase(link.name, name)
    ensures FindScriptLink(actions + [link], name) == |actions|
    decreases |actions|
  {
    if |actions| > 0 {
      assert (actions + [link])[1..] == actions[1..] + [link];
      FindAfterAdd(actions[1..], name, link);
    }
  }

  /** A link that replaces the first match, with a matching name, is still the first match. */
  lemma {:induction false} FindAfterUpdate(actions: seq<UserCustomAction>, name: string, i: nat, link: UserCustomAction)
    requires FindScriptLink(actions, name) == i && EqualsIgnoreCase(link.name, name)
    ensures FindScriptLink(actions[i := link], name) == i
    decreases i
  {
    if i > 0 {
      assert actions[i := link][1..] == actions[1..][i - 1 := link];
      FindAfterUpdate(actions[1..], name, i - 1, link);
    }
  }

  /** The custom actions after a successful run: the link appended, or put in place of the first match. */
  lemma ActionsAfterRun(site: Site, s: SiteState, name: string, scriptSrc: string, sequence: int)
    ensures var x := Execute(site, s, ScriptLinkPlan(site, s, name, scriptSrc, sequence));
      var i := FindScriptLink(s.customActions, name);
      var link := ScriptLink(name, scriptSrc, sequence);
      x.outcome.Pass? ==>
        x.state.customActions == if i < 0 then s.customActions + [link] else s.customActions[i := link]
  {
    var plan := ScriptLinkPlan(site, s, name, scriptSrc, sequence);
    ExecuteSingle(site, s, plan[0]);
    var i := FindScriptLink(s.customActions, name);
    var link := ScriptLink(name, scriptSrc, sequence);
    if i >= 0 && s.customActions[i] == link {
      assert s.customActions[i := link] == s.customActions;
    }
  }

  /**
   * After a successful run the first action matching the name is the wanted
   * link; it was appended, or it replaced the match, and no other action changed.
   */
  lemma ScriptLinkEnsured(site: Site, s: SiteState, name: string, scriptSrc: string, sequence: int)
    ensures var x := Execute(site, s, ScriptLinkPlan(site, s, name, scriptSrc, sequence));
      var link := ScriptLink(name, scriptSrc, sequence);
      x.outcome.Pass? ==>
        var i := FindScriptLink(x.state.customActions, name);
        i >= 0 && x.state.customActions[i] == link &&
        (x.state.customActions == s.customActions + [link] ||
         (i < |s.customActions| && x.state.customActions == s.customActions[i := link]))
  {
    var link := ScriptLink(name, scriptSrc, sequence);
    assert EqualsIgnoreCase(link.name, name);
    ActionsAfterRun(site, s, name, scriptSrc, sequence);
    var i := FindScriptLink(s.customActions, name);
    if i < 0 {
      FindAfterAdd(s.customActions, name, link);
    } else {
      FindAfterUpdate(s.customActions, name, i, link);
    }
  }

  /** Once a run has succeeded, running again finds the link as wanted and saves nothing. */
  lemma ScriptLinkIdempotent(site: Site, s: SiteState, name: string, scriptSrc: string, sequence: int)
    requires LoadCustomAction(name) !in site.faults
    ensures var x := Execute(site, s, ScriptLinkPlan(site, s, name, scriptSrc, sequence));
      x.outcome.Pass? ==> Requested(ScriptLinkPlan(site, x.state, name, scriptSrc, sequence)) == []
  {
    var x := Execute(site, s, ScriptLinkPlan(site, s, name, scriptSrc, sequence));
    ScriptLinkEnsured(site, s, name, scriptSrc, sequence);
    if x.outcome.Pass? {
      var plan := ScriptLinkPlan(site, x.state, name, scriptSrc, sequence);
      assert site.CustomActionsQuery(s).Ok?;
      assert plan == [Skip];
    }
  }

  // ---------------------------------------------------------------------------
  // The imperative steps

  /** The body of the using block of EnsureSiteScriptLink. */
  method EnsureScriptLinkInScope(site: Site, name: string, scriptSrc: string, sequence: int)
    returns (r: Result<UserCustomAction>)
    modifies site
    ensures var x := Execute(site, old(site.state), ScriptLinkPlan(site, old(site.state), name, scriptSrc, sequence));
      r == LinkResult(x, name, scriptSrc, sequence) && site.state == x.state && site.history == old(site.history) + x.effects
  {
    ghost var plan := ScriptLinkPlan(site, site.state, name, scriptSrc, sequence);
    ExecuteSingle(site, site.state, plan[0]);
    var actions := site.CustomActionsQuery(site.state);
    if actions.Fail? {
      return Fail(actions.error);
    }
    var i := FindScriptLink(actions.value, name);
    var action: UserCustomAction;
    if i < 0 {
      action := UserCustomAction(ScriptLinkLocation, name, scriptSrc, sequence);
      var o := site.Perform(SaveCustomAction(name), CustomActionAdded(action));
      if o.Throw? {
        return Fail(o.error);
      }
    } else {
      if LoadCustomAction(name) in site.faults {
        return Fail(site.FaultOf(LoadCustomAction(name)));
      }
      var changed;
      action, changed := Reconcile(actions.value[i], name, scriptSrc, sequence);
      if changed {
        var o := site.Perform(SaveCustomAction(name), CustomActionUpdated(i, action));
        if o.Throw? {
          return Fail(o.error);
        }
      }
    }
    r := Ok(action);
  }
}
