/** Tool definitions, their registry (agent/tools.py) and the policy matrix (agent/policy.py). */
module ToolPolicy {
  import opened Wrappers
  import opened PyText

  datatype Risk = Read | ReversibleWrite | SensitiveWrite | Irreversible

  datatype ReplayPolicy = ReadOnly | Idempotent | NonReplayable

  datatype ToolDefinition = ToolDefinition(name: string, risk: Risk, replay: ReplayPolicy, enabled: bool)

  // ----- the registry

  type Definitions = map<string, ToolDefinition>

  datatype RegistrationError = AlreadyRegistered | WriteNeedsReplayPolicy | ReadMustBeReadOnly

  predicate Coherent(d: ToolDefinition) { d.risk.Read? <==> d.replay.ReadOnly? }

  ghost predicate ValidDefinitions(tools: Definitions) {
    forall name | name in tools :: tools[name].name == name && Coherent(tools[name])
  }

  /** The enabled tool of that name, as ToolRegistry.get finds it. */
  function Lookup(tools: Definitions, name: string): (found: Option<ToolDefinition>)
    ensures found.Some? <==> name in tools && tools[name].enabled
    ensures found.Some? ==> found.value == tools[name]
  {
    if name in tools && tools[name].enabled then Some(tools[name]) else None
  }

  class ToolRegistry {
    var definitions: Definitions

    ghost predicate Valid()
      reads this
    {
      ValidDefinitions(definitions)
    }

    constructor ()
      ensures Valid() && definitions == map[]
    {
      definitions := map[];
    }

    /** Adds the tool under its own name, unless the name is taken or risk and replay policy disagree. */
    method Register(d: ToolDefinition) returns (r: Result<(), RegistrationError>)
      requires Valid()
      modifies this
      ensures Valid()
      ensures r.Ok? <==> d.name !in old(definitions) && (d.risk == Read <==> d.replay == ReadOnly)
      ensures r.Ok? ==> definitions == old(definitions)[d.name := d]
      ensures r.Err? ==> definitions == old(definitions)
      ensures r == Err(AlreadyRegistered) <==> d.name in old(definitions)
      ensures r == Err(WriteNeedsReplayPolicy) <==> d.name !in old(definitions) && d.risk != Read && d.replay == ReadOnly
    {
      if d.name in definitions {
        return Err(AlreadyRegistered);
      }
      if d.risk != Read && d.replay == ReadOnly {
        return Err(WriteNeedsReplayPolicy);
      }
      if d.risk == Read && d.replay != ReadOnly {
        return Err(ReadMustBeReadOnly);
      }
      definitions := definitions[d.name := d];
      return Ok(());
    }
  }

  // ----- what the policy looks at

  datatype Certainty = Confirmed | Probable | Unconfirmed | Disputed

  // The argument source_id: absent or blank, text that is no UUID, or a UUID.
  datatype SourceId = NoSourceId | MalformedSourceId | SourceUuid

  /** Tool arguments: their canonical JSON text and the fields that the policy reads, each as it parses them. */
  datatype Arguments = Arguments(canonical: string, certainty: Option<Certainty>, isPrimary: Option<bool>, thingId: string,
                                 sourceId: SourceId, sourceRefs: nat, evidenceUrls: seq<string>)

  /** An entry of tool_results; urls are those of its payload and batchNames its batch_tool_names. */
  datatype ToolResult = ToolResult(toolName: Option<string>, success: bool, urls: set<string>, batchNames: seq<string>)

  // The active Thing of the prefetched state.
  datatype ActiveThing = ActiveThing(thingId: string, hasDeadline: bool)

  /** The part of the graph state that the policy reads. */
  datatype View = View(results: seq<ToolResult>, active: Option<ActiveThing>)

  predicate IsSearch(name: string) {
    name == "search_web" || name == "url_inspect" || "search." <= name
  }

  predicate IsGatedSearch(name: string) {
    name == "search_web" || name == "url_inspect" || name == "search.web" || name == "search.official"
  }

  predicate GivesEvidence(name: string) {
    name == "search_web" || name == "url_inspect" || name == "search.official"
  }

  predicate IsDateTool(name: string) {
    name == "thing_date_set" || name == "state.set_deadline"
  }

  lemma NamesAreApart(name: string)
    ensures IsGatedSearch(name) ==> IsSearch(name) && !IsDateTool(name)
  {
    assert "search.web"[..7] == "search." && "search.official"[..7] == "search.";
    assert "thing_date_set"[0] == 't' && "state.set_deadline"[1] == 't';
  }

  // ----- counting searches

  function CountNames(names: seq<string>): nat {
    if names == [] then 0
    else CountNames(names[..|names| - 1]) + if IsSearch(names[|names| - 1]) then 1 else 0
  }

  function SearchesIn(r: ToolResult): nat {
    if r.toolName.Some? && IsSearch(r.toolName.value) then 1 else CountNames(r.batchNames)
  }

  /** The number of searches that a list of results stands for. */
  function CountSearch(results: seq<ToolResult>): nat {
    if results == [] then 0 else CountSearch(results[..|results| - 1]) + SearchesIn(results[|results| - 1])
  }

  lemma CountSearchSnoc(results: seq<ToolResult>, last: ToolResult)
    ensures CountSearch(results + [last]) == CountSearch(results) + SearchesIn(last)
  {
    assert (results + [last])[..|results|] == results;
  }

  method CountSearchToolsInResults(results: seq<ToolResult>) returns (count: nat)
    ensures count == CountSearch(results)
  {
    hide IsSearch;
    count := 0;
    for i := 0 to |results|
      invariant count == CountSearch(results[..i])
    {
      var r := results[i];
      assert results[..i + 1][..i] == results[..i];
      if r.toolName.Some? && IsSearch(r.toolName.value) {
        count := count + 1;
        continue;
      }
      var inBatch := 0;
      for j := 0 to |r.batchNames|
        invariant inBatch == CountNames(r.batchNames[..j])
      {
        assert r.batchNames[..j + 1][..j] == r.batchNames[..j];
        if IsSearch(r.batchNames[j]) {
          inBatch := inBatch + 1;
        }
      }
      assert r.batchNames[..|r.batchNames|] == r.batchNames;
      count := count + inBatch;
    }
    assert results[..|results|] == results;
  }

  // ----- evidence

  predicate HasSource(args: Arguments) {
    match args.sourceId
    case SourceUuid => true
    case MalformedSourceId => false
    case NoSourceId => args.sourceRefs > 0
  }

  predicate IsEvidence(r: ToolResult) {
    r.success && r.toolName.Some? && GivesEvidence(r.toolName.value)
  }

  /** A URL that some successful search of the run returned. */
  ghost predicate FoundUrl(results: seq<ToolResult>, url: string) {
    exists i | 0 <= i < |results| :: IsEvidence(results[i]) && url in results[i].urls
  }

  function SearchUrls(results: seq<ToolResult>): (urls: set<string>)
    ensures forall url :: url in urls <==> FoundUrl(results, url)
  {
    set i, url | 0 <= i < |results| && IsEvidence(results[i]) && url in results[i].urls :: url
  }

  method SearchUrlsFromState(results: seq<ToolResult>) returns (urls: set<string>)
    ensures urls == SearchUrls(results)
  {
    urls := {};
    for i := 0 to |results|
      invariant forall url :: url in urls <==> FoundUrl(results[..i], url)
    {
      if results[i].success && results[i].toolName.Some? && GivesEvidence(results[i].toolName.value) {
        urls := urls + results[i].urls;
      }
      forall url ensures FoundUrl(results[..i + 1], url) <==> FoundUrl(results[..i], url) || (IsEvidence(results[i]) && url in results[i].urls) {
        assert results[..i + 1][i] == results[i];
        if FoundUrl(results[..i], url) {
          var j :| 0 <= j < i && IsEvidence(results[..i][j]) && url in results[..i][j].urls;
          assert results[..i + 1][j] == results[..i][j];
        }
      }
    }
    assert results[..|results|] == results;
  }

  /** One of the non-blank evidence URLs of the arguments was found by a search. */
  predicate HasSearchEvidence(results: seq<ToolResult>, args: Arguments) {
    exists i | 0 <= i < |args.evidenceUrls| :: Strip(args.evidenceUrls[i]) != "" && Strip(args.evidenceUrls[i]) in SearchUrls(results)
  }

  predicate Overwrites(view: View, args: Arguments) {
    args.thingId != "" && view.active.Some? && view.active.value.thingId == args.thingId && view.active.value.hasDeadline
  }

  // ----- the matrix

  datatype AllowReason = Allowed | SearchAllowed | SourceVerified | SearchVerified

  datatype ConfirmReason = ConfirmationRequired | DeadlineOverwrite

  datatype Verdict =
    | Allow(reason: AllowReason)
    | RequireConfirmation(why: ConfirmReason)
    | RequireMoreContext
    | DenyDisabled
    | DenySearchQuota

  function ByRisk(d: ToolDefinition): Verdict {
    if d.risk.SensitiveWrite? || d.risk.Irreversible? then RequireConfirmation(ConfirmationRequired) else Allow(Allowed)
  }

  function EvaluateDate(d: ToolDefinition, view: View, args: Arguments): Verdict {
    var confirmed := args.certainty == Some(Confirmed);
    var primary := if args.isPrimary.Some? then args.isPrimary.value else true;
    var source, search := HasSource(args), HasSearchEvidence(view.results, args);
    if confirmed && primary && !source && !search then RequireMoreContext
    else if confirmed && primary && (source || search) && Overwrites(view, args) then RequireConfirmation(DeadlineOverwrite)
    else if source && confirmed then Allow(SourceVerified)
    else if search && confirmed then Allow(SearchVerified)
    else ByRisk(d)
  }

  function Evaluate(d: ToolDefinition, view: View, args: Arguments, searchLimit: nat): Verdict {
    if !d.enabled then DenyDisabled
    else if IsGatedSearch(d.name) then
      if CountSearch(view.results) >= searchLimit then DenySearchQuota else Allow(SearchAllowed)
    else if IsDateTool(d.name) then EvaluateDate(d, view, args)
    else ByRisk(d)
  }

  /** A confirmed date with evidence that replaces no known primary deadline. */
  ghost predicate BackedDate(view: View, args: Arguments) {
    && args.certainty == Some(Confirmed)
    && (HasSource(args) || HasSearchEvidence(view.results, args))
    && !(args.isPrimary != Some(false) && Overwrites(view, args))
  }

  /** When the risk class asks for confirmation, exactly the searches within quota and the backed dates go without it. */
  lemma SensitiveAllowedExactly(d: ToolDefinition, view: View, args: Arguments, searchLimit: nat)
    requires d.risk.SensitiveWrite? || d.risk.Irreversible?
    ensures Evaluate(d, view, args, searchLimit).Allow? <==>
            d.enabled && ((IsGatedSearch(d.name) && CountSearch(view.results) < searchLimit) || (IsDateTool(d.name) && BackedDate(view, args)))
  {
    hide IsGatedSearch, IsSearch, IsDateTool;
    NamesAreApart(d.name);
  }

  /** A tool of another risk class is asked for more only as a search without quota or as a confirmed primary date that lacks
      evidence or would overwrite the known deadline. */
  lemma PlainAllowedExactly(d: ToolDefinition, view: View, args: Arguments, searchLimit: nat)
    requires d.risk.Read? || d.risk.ReversibleWrite?
    ensures var primary := args.certainty == Some(Confirmed) && args.isPrimary != Some(false);
            var evidence := HasSource(args) || HasSearchEvidence(view.results, args);
            Evaluate(d, view, args, searchLimit).Allow? <==>
              && d.enabled
              && (IsGatedSearch(d.name) ==> CountSearch(view.results) < searchLimit)
              && (IsDateTool(d.name) && primary ==> evidence && !Overwrites(view, args))
  {
    hide IsGatedSearch, IsSearch, IsDateTool;
    NamesAreApart(d.name);
  }

  /** The verdict on every call: a disabled tool is denied; a gated search is allowed or denied by the quota; a date tool needs more context for a
      confirmed primary date without evidence, and a confirmation where it would overwrite the known deadline, and goes without one for any
      other confirmed date with evidence, by source before search; everything else is decided by the risk. */
  lemma VerdictExactly(d: ToolDefinition, view: View, args: Arguments, searchLimit: nat)
    ensures var v := Evaluate(d, view, args, searchLimit);
            var gated := d.name == "search_web" || d.name == "url_inspect" || d.name == "search.web" || d.name == "search.official";
            var dated := d.name == "thing_date_set" || d.name == "state.set_deadline";
            var confirmed := args.certainty == Some(Confirmed);
            var primary := args.isPrimary != Some(false);
            var source := args.sourceId.SourceUuid? || (args.sourceId.NoSourceId? && args.sourceRefs > 0);
            var evidence := source || HasSearchEvidence(view.results, args);
            var overwrites := args.thingId != "" && view.active.Some? && view.active.value.thingId == args.thingId && view.active.value.hasDeadline;
            var byRisk := if d.risk == SensitiveWrite || d.risk == Irreversible then RequireConfirmation(ConfirmationRequired) else Allow(Allowed);
            && (v == DenyDisabled <==> !d.enabled)
            && (d.enabled && gated ==> v == if CountSearch(view.results) >= searchLimit then DenySearchQuota else Allow(SearchAllowed))
            && (d.enabled && dated && confirmed && primary && !evidence ==> v == RequireMoreContext)
            && (d.enabled && dated && confirmed && primary && evidence && overwrites ==> v == RequireConfirmation(DeadlineOverwrite))
            && (d.enabled && dated && confirmed && evidence && !(primary && overwrites) ==> v == Allow(if source then SourceVerified else SearchVerified))
            && (d.enabled && dated && (!confirmed || (!primary && !evidence)) ==> v == byRisk)
            && (d.enabled && !gated && !dated ==> v == byRisk)
  {
    hide IsSearch;
    NamesAreApart(d.name);
  }

  /** What counts as a search, what gives evidence, and when a call has search evidence: one of its URLs, stripped and not blank, was returned by
      a successful evidence tool of the run. */
  lemma EvidenceExactly(name: string, results: seq<ToolResult>, args: Arguments)
    ensures IsSearch(name) <==> name == "search_web" || name == "url_inspect" || (|name| >= 7 && name[..7] == "search.")
    ensures HasSearchEvidence(results, args) <==>
              exists i, j :: 0 <= i < |args.evidenceUrls| && 0 <= j < |results| && Strip(args.evidenceUrls[i]) != ""
                && results[j].success && results[j].toolName.Some?
                && (results[j].toolName.value == "search_web" || results[j].toolName.value == "url_inspect" || results[j].toolName.value == "search.official")
                && Strip(args.evidenceUrls[i]) in results[j].urls
  {
    if HasSearchEvidence(results, args) {
      var i :| 0 <= i < |args.evidenceUrls| && Strip(args.evidenceUrls[i]) != "" && Strip(args.evidenceUrls[i]) in SearchUrls(results);
      var j :| 0 <= j < |results| && IsEvidence(results[j]) && Strip(args.evidenceUrls[i]) in results[j].urls;
    }
    if i, j :| 0 <= i < |args.evidenceUrls| && 0 <= j < |results| && Strip(args.evidenceUrls[i]) != "" && IsEvidence(results[j])
               && Strip(args.evidenceUrls[i]) in results[j].urls {
      assert FoundUrl(results, Strip(args.evidenceUrls[i]));
    }
  }

  /** One more result adds one search of its own, or the searches of the batch that it names, one for each name that is a search. */
  lemma CountSearchExactly(results: seq<ToolResult>, last: ToolResult, names: seq<string>, name: string)
    ensures CountSearch([]) == 0 && CountNames([]) == 0
    ensures CountSearch(results + [last]) == CountSearch(results)
              + (if last.toolName.Some? && IsSearch(last.toolName.value) then 1 else CountNames(last.batchNames))
    ensures CountNames(names + [name]) == CountNames(names) + (if IsSearch(name) then 1 else 0)
  {
    hide IsSearch;
    CountSearchSnoc(results, last);
    assert (names + [name])[..|names|] == names;
  }

  /** The names on which the matrix decides before it looks at the risk. */
  predicate DecidedByName(name: string) { IsGatedSearch(name) || IsDateTool(name) }

  /** An irreversible tool is never allowed without confirmation under any arguments exactly when it is disabled or its name is not one of these
      (a search name lets it through only while the quota leaves something). */
  lemma IrreversibleNeverAllowedExactly(d: ToolDefinition, searchLimit: nat)
    requires d.risk.Irreversible? && searchLimit > 0
    ensures (forall view, args :: !Evaluate(d, view, args, searchLimit).Allow?) <==> !d.enabled || !DecidedByName(d.name)
  {
    hide IsGatedSearch, IsSearch, IsDateTool;
    var view := View([], None);
    var args := Arguments("{}", Some(Confirmed), None, "", SourceUuid, 0, []);
    SensitiveAllowedExactly(d, view, args, searchLimit);
    assert CountSearch(view.results) == 0;
    assert BackedDate(view, args);
    if d.enabled && DecidedByName(d.name) {
      assert Evaluate(d, view, args, searchLimit).Allow?;
    } else {
      forall v, a ensures !Evaluate(d, v, a, searchLimit).Allow? {
        SensitiveAllowedExactly(d, v, a, searchLimit);
      }
    }
  }

  /** Evidence found once stays found when the run adds results. */
  lemma EvidenceStays(results: seq<ToolResult>, more: seq<ToolResult>, args: Arguments)
    requires HasSearchEvidence(results, args) && results <= more
    ensures HasSearchEvidence(more, args)
  {
    var i :| 0 <= i < |args.evidenceUrls| && Strip(args.evidenceUrls[i]) != "" && Strip(args.evidenceUrls[i]) in SearchUrls(results);
    var url := Strip(args.evidenceUrls[i]);
    assert FoundUrl(results, url);
    var j :| 0 <= j < |results| && IsEvidence(results[j]) && url in results[j].urls;
    assert more[j] == results[j];
    assert FoundUrl(more, url);
  }
}
