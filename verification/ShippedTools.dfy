/** The tools that the application registers (agent/tools.py) meet the conditions of the graph's guarantees. */
module ShippedTools {
  import opened ToolPolicy
  import opened ExecutiveGraph
  import opened GraphSafety
  import opened GraphTheorems

  predicate SearchTool(name: string) { name == "search_web" || name == "url_inspect" }

  predicate OtherReadTool(name: string) {
    || name == "state_get_overview" || name == "state_get_thing_context" || name == "memory_search" || name == "file_search"
    || name == "file_inspect"
  }

  predicate ReversibleTool(name: string) {
    || name == "thing_create" || name == "task_create" || name == "task_change_status" || name == "thing_context_set"
    || name == "thing_change_state" || name == "blocker_manage" || name == "automation_create" || name == "automation_cancel"
    || name == "memory_remember"
  }

  predicate SensitiveTool(name: string) { name == "thing_date_set" || name == "memory_forget" }

  predicate IrreversibleTool(name: string) { name == "thing_merge" || name == "thing_delete" || name == "file_delete" }

  predicate Shipped(d: ToolDefinition) {
    match d.risk
    case Read => d.replay == ReadOnly && (SearchTool(d.name) || OtherReadTool(d.name))
    case ReversibleWrite => d.replay == Idempotent && ReversibleTool(d.name)
    case SensitiveWrite => d.replay == Idempotent && SensitiveTool(d.name)
    case Irreversible => d.replay == Idempotent && IrreversibleTool(d.name)
  }

  ghost predicate ShippedOnly(tools: Definitions) {
    forall name | name in tools :: tools[name].name == name && Shipped(tools[name])
  }

  lemma SearchPrefix(name: string)
    requires "search." <= name
    ensures |name| >= 7 && name[0] == 's' && name[6] == '.'
  {
    assert name[..7] == "search.";
    assert name[0] == name[..7][0] && name[6] == name[..7][6];
  }

  lemma OthersAreNoSearches(name: string)
    requires OtherReadTool(name) || ReversibleTool(name) || SensitiveTool(name) || IrreversibleTool(name)
    ensures !IsSearch(name)
  {
    assert name[0] != 's' || name[6] == 'g';
    if "search." <= name {
      SearchPrefix(name);
    }
    assert name != "search_web" && name != "url_inspect";
  }

  lemma IrreversibleNames(name: string)
    requires IrreversibleTool(name)
    ensures !IsDateTool(name) && !IsGatedSearch(name)
  {
    assert |name| == 11 || |name| == 12;
    assert |name| == 12 ==> name[6] == 'd';
    assert "url_inspect"[0] == 'u' && name[0] != 'u';
    assert |"thing_date_set"| == 14 && |"state.set_deadline"| == 18 && |"search_web"| == 10 && |"search.web"| == 10 && |"search.official"| == 15;
  }

  /** The shipped registry is coherent, gates every search it has, and decides no irreversible tool by its name. */
  lemma ShippedMeetsConditions(tools: Definitions)
    requires ShippedOnly(tools)
    ensures ValidDefinitions(tools) && GatedSearches(tools) && IrreversiblesByRisk(tools)
    ensures forall name | name in tools && IsDateTool(name) :: tools[name].risk == SensitiveWrite
    ensures forall name :: IsExternal(tools, name) == 0
  {
    hide IsSearch, IsGatedSearch, IsDateTool, SearchTool, OtherReadTool, ReversibleTool, SensitiveTool, IrreversibleTool;
    forall name | name in tools
      ensures IsSearch(name) ==> IsGatedSearch(name)
      ensures tools[name].risk == Irreversible ==> !DecidedByName(name)
      ensures IsDateTool(name) ==> tools[name].risk == SensitiveWrite
    {
      ShippedName(tools[name]);
    }
  }

  lemma ShippedName(d: ToolDefinition)
    requires Shipped(d)
    ensures IsSearch(d.name) ==> IsGatedSearch(d.name)
    ensures d.risk == Irreversible ==> !DecidedByName(d.name)
    ensures IsDateTool(d.name) ==> d.risk == SensitiveWrite
  {
    hide IsSearch;
    if SearchTool(d.name) {
      assert IsGatedSearch(d.name);
      NamesAreApart(d.name);
    } else {
      OthersAreNoSearches(d.name);
      if IrreversibleTool(d.name) {
        IrreversibleNames(d.name);
      } else if !SensitiveTool(d.name) {
        DateNames(d.name);
      }
    }
  }

  lemma DateNames(name: string)
    requires OtherReadTool(name) || ReversibleTool(name)
    ensures !IsDateTool(name)
  {
  }

  /** With the shipped tools every run keeps the search quota, spends no external action, executes an irreversible action only after the
      user has confirmed that very action, and sets a date only after its confirmation or with evidence. */
  lemma ShippedRunsAreSafe(g: Graph, m: Machine)
    requires ShippedOnly(g.tools) && Reachable(g, m)
    ensures SearchesOf(m.dispatched) <= g.limits.searches
    ensures forall i | 0 <= i < |m.dispatched| :: !IrreversibleUnconfirmed(g, m, i)
    ensures forall i | 0 <= i < |m.dispatched| && IsDateTool(m.dispatched[i].action.name) ::
              var d := m.dispatched[i]; ActionId(g.run, d.action) in m.confirmed || BackedDate(d.view, d.action.args)
    ensures m.state.externals == 0
  {
    hide Reachable, IrreversibleUnconfirmed, GatedSearches, IrreversiblesByRisk, SearchesOf, ShippedOnly, ValidDefinitions, IsDateTool,
         ActionId, BackedDate;
    ShippedMeetsConditions(g.tools);
    SearchQuotaHolds(g, m);
    forall i | 0 <= i < |m.dispatched| ensures !IrreversibleUnconfirmed(g, m, i) {
      IrreversibleIsConfirmed(g, m, i);
    }
    forall i | 0 <= i < |m.dispatched| && IsDateTool(m.dispatched[i].action.name)
      ensures var d := m.dispatched[i]; ActionId(g.run, d.action) in m.confirmed || BackedDate(d.view, d.action.args)
    {
      DateChangesAreBacked(g, m, i);
    }
    BudgetsAreKept(g, m);
    NoExternals(g.tools, Actions(m.dispatched));
  }

  lemma {:induction false} NoExternals(tools: Definitions, actions: seq<Action>)
    requires forall name :: IsExternal(tools, name) == 0
    ensures CountExternal(tools, actions) == 0
  {
    hide IsExternal;
    if actions != [] {
      NoExternals(tools, actions[..|actions| - 1]);
    }
  }
}
