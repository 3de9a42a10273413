/** The bounded prompt context built from a thread, memories and sources (application/context.py). */
module ContextBudget {
  import opened Wrappers
  import opened PyText

  datatype Message = Message(id: nat, role: string, content: string)

  // An entry of a memory group; the builder skips the entries that are not dictionaries.
  datatype MemoryEntry = Malformed | MemoryEntry(content: string, summary: string)

  // A memory group is None when the dictionary has no list under its name.
  datatype MemoryContext = MemoryContext(profile: Option<seq<MemoryEntry>>, relevant: Option<seq<MemoryEntry>>)

  datatype Source = Source(title: nat, content: string)

  datatype Budgets = Budgets(total: nat, recent: nat, summary: nat, memory: nat, source: nat, attachment: nat, recentCount: nat) {
    predicate Valid() {
      total > 0 && recent > 0 && summary > 0 && memory > 0 && source > 0 && attachment > 0 && recentCount > 0
    }
  }

  datatype Context = Context(recent: seq<Message>, omitted: seq<Message>, summary: string,
                             profile: seq<MemoryEntry>, relevant: seq<MemoryEntry>, sources: seq<Source>, attachments: seq<Source>) {
    function Spoken(): nat { Characters(recent) + |summary| }

    function Size(): nat {
      Spoken() + Cost(profile) + Cost(relevant) + |Text(sources)| + |Text(attachments)|
    }
  }

  // ----- recent messages

  function Characters(messages: seq<Message>): nat {
    if messages == [] then 0 else |messages[0].content| + Characters(messages[1..])
  }

  /** The messages from the given position on may all be shown in full; the newest one always may. */
  predicate Shown(messages: seq<Message>, from: nat, budget: nat, count: nat)
    requires from <= |messages|
  {
    var tail := messages[from..];
    |tail| <= 1 || (|tail| <= count && Characters(tail) <= budget)
  }

  ghost predicate IsRecentStart(messages: seq<Message>, from: nat, budget: nat, count: nat) {
    && from <= |messages| && Shown(messages, from, budget, count)
    && (forall k | 0 <= k < from :: !Shown(messages, k, budget, count))
  }

  ghost predicate IsRecent(recent: seq<Message>, messages: seq<Message>, budget: nat, count: nat) {
    exists from: nat :: IsRecentStart(messages, from, budget, count) && recent == messages[from..]
  }

  function Reversed<T>(s: seq<T>): (r: seq<T>)
    ensures |r| == |s|
    ensures forall i | 0 <= i < |s| :: r[i] == s[|s| - 1 - i]
  {
    seq(|s|, i requires 0 <= i < |s| => s[|s| - 1 - i])
  }

  lemma {:induction false} FewerCharacters(messages: seq<Message>, j: nat, k: nat)
    requires j <= k <= |messages|
    ensures Characters(messages[k..]) <= Characters(messages[j..])
    decreases k - j
  {
    if j < k {
      assert messages[j..][1..] == messages[j + 1..];
      FewerCharacters(messages, j + 1, k);
    }
  }

  /** Taking one more message from the end. */
  lemma OneMoreMessage(messages: seq<Message>, k: nat, budget: nat, count: nat)
    requires k < |messages|
    ensures Characters(messages[k..]) == |messages[k].content| + Characters(messages[k + 1..])
    ensures Reversed(messages[k..]) == Reversed(messages[k + 1..]) + [messages[k]]
    ensures var fits := |messages| - (k + 1) < count && Characters(messages[k + 1..]) + |messages[k].content| <= budget;
            Shown(messages, k, budget, count) <==> (k + 1 == |messages| || fits)
  {
    assert messages[k..][1..] == messages[k + 1..];
    assert |messages[k..]| == |messages| - k;
  }

  /** Once a message no longer fits, no longer run fits either. */
  lemma NoLongerRun(messages: seq<Message>, k: nat, budget: nat, count: nat)
    requires 0 < k < |messages| && !Shown(messages, k - 1, budget, count)
    ensures forall j | 0 <= j < k :: !Shown(messages, j, budget, count)
  {
    forall j | 0 <= j < k ensures !Shown(messages, j, budget, count) {
      FewerCharacters(messages, j, k - 1);
    }
  }

  /** The longest run of newest messages within both limits; it is never empty unless the thread is. */
  method RecentMessages(messages: seq<Message>, budget: nat, count: nat) returns (recent: seq<Message>)
    requires count > 0
    ensures IsRecent(recent, messages, budget, count)
  {
    hide Shown, Characters;
    var selected: seq<Message> := [];
    var used, k := 0, |messages|;
    EmptyTail(messages, budget, count);
    while k > 0
      invariant 0 <= k <= |messages|
      invariant selected == Reversed(messages[k..])
      invariant used == Characters(messages[k..])
      invariant Shown(messages, k, budget, count)
    {
      OneMoreMessage(messages, k - 1, budget, count);
      var length := |messages[k - 1].content|;
      if selected != [] && (|selected| >= count || used + length > budget) {
        NoLongerRun(messages, k, budget, count);
        break;
      }
      selected := selected + [messages[k - 1]];
      used := used + length;
      k := k - 1;
    }
    recent := Reversed(selected);
    assert recent == messages[k..];
    assert IsRecentStart(messages, k, budget, count);
  }

  lemma EmptyTail(messages: seq<Message>, budget: nat, count: nat)
    ensures messages[|messages|..] == [] && Shown(messages, |messages|, budget, count) && Characters(messages[|messages|..]) == 0
  {
  }

  /** A short newest message keeps the whole window inside its budget. */
  lemma RecentFits(recent: seq<Message>, messages: seq<Message>, budget: nat, count: nat)
    requires IsRecent(recent, messages, budget, count)
    requires messages != [] ==> |messages[|messages| - 1].content| <= budget
    ensures Characters(recent) <= budget
  {
    if |recent| == 1 {
      assert recent[1..] == [];
    }
  }

  // ----- the rest of the thread

  predicate HasId(messages: seq<Message>, id: nat) { exists i | 0 <= i < |messages| :: messages[i].id == id }

  ghost predicate DistinctIds(messages: seq<Message>) {
    forall i, j | 0 <= i < j < |messages| :: messages[i].id != messages[j].id
  }

  function Omitted(messages: seq<Message>, recent: seq<Message>): seq<Message> {
    if messages == [] then []
    else if HasId(recent, messages[0].id) then Omitted(messages[1..], recent)
    else [messages[0]] + Omitted(messages[1..], recent)
  }

  /** With distinct ids, the messages left out and the recent ones are the whole thread, in order. */
  lemma {:induction false} OmittedThenRecent(messages: seq<Message>, from: nat)
    requires from <= |messages| && DistinctIds(messages)
    ensures Omitted(messages, messages[from..]) == messages[..from]
    ensures Omitted(messages, messages[from..]) + messages[from..] == messages
  {
    OmittedFrom(messages, messages[from..], from);
  }

  lemma {:induction false} OmittedFrom(messages: seq<Message>, recent: seq<Message>, from: nat)
    requires from <= |messages| && recent == messages[from..] && DistinctIds(messages)
    ensures Omitted(messages, recent) == messages[..from]
  {
    if from == 0 {
      OmittedNone(messages, recent, 0);
      assert messages[0..] == messages;
    } else {
      forall i | 0 <= i < |recent| ensures recent[i].id != messages[0].id {
        assert recent[i] == messages[from + i];
      }
      forall i, j | 0 <= i < j < |messages[1..]| ensures messages[1..][i].id != messages[1..][j].id {
        assert messages[1..][i] == messages[i + 1] && messages[1..][j] == messages[j + 1];
      }
      OmittedFrom(messages[1..], recent, from - 1);
      assert messages[..from] == [messages[0]] + messages[1..][..from - 1];
    }
  }

  lemma {:induction false} OmittedNone(messages: seq<Message>, recent: seq<Message>, k: nat)
    requires k <= |messages| && recent == messages
    ensures Omitted(messages[k..], recent) == []
    decreases |messages| - k
  {
    if k < |messages| {
      assert recent[k].id == messages[k..][0].id;
      assert messages[k..][1..] == messages[k + 1..];
      OmittedNone(messages, recent, k + 1);
    }
  }

  // ----- the summary of the messages left out

  function WordLength(s: string): (n: nat)
    ensures n <= |s|
  {
    if s == "" || IsSpace(s[0]) then 0 else 1 + WordLength(s[1..])
  }

  /** " ".join(s.split()): the words of the text, one space between two of them. */
  function Normalized(s: string): string {
    if s == "" then ""
    else if IsSpace(s[0]) then Normalized(s[1..])
    else
      var n := WordLength(s);
      var rest := Normalized(s[n..]);
      if rest == "" then s[..n] else s[..n] + " " + rest
  }

  lemma {:induction false} WordFacts(s: string)
    ensures var n := WordLength(s);
            && Solid(s[..n]) == s[..n] && (forall i | 0 <= i < n :: !IsSpace(s[i])) && (n < |s| ==> IsSpace(s[n]))
  {
    if s != "" && !IsSpace(s[0]) {
      WordFacts(s[1..]);
      var n := WordLength(s);
      assert s[..n][1..] == s[1..][..n - 1];
      assert forall i | 1 <= i < |s| :: s[i] == s[1..][i - 1];
    }
  }

  /** Words are separated by single spaces, with none at either end. */
  ghost predicate SingleSpaced(s: string) {
    && (s != "" ==> Trimmed(s))
    && (forall i, j | 0 <= i && j == i + 1 < |s| && IsSpace(s[i]) :: s[i] == ' ' && !IsSpace(s[j]))
  }

  /** Normalizing keeps every solid character in its order, and nothing but single spaces between words. */
  lemma {:induction false} NormalizedFacts(s: string)
    ensures Solid(Normalized(s)) == Solid(s) && SingleSpaced(Normalized(s)) && |Normalized(s)| <= |s|
  {
    hide SingleSpaced;
    if s == "" {
      WordIsSingleSpaced("");
    } else if IsSpace(s[0]) {
      NormalizedFacts(s[1..]);
    } else {
      var n := WordLength(s);
      var word, rest := s[..n], Normalized(s[n..]);
      WordFacts(s);
      WordIsSingleSpaced(word);
      NormalizedFacts(s[n..]);
      assert s == word + s[n..];
      SolidConcat(word, s[n..]);
      if rest != "" {
        SolidConcat(word, " " + rest);
        SolidConcat(" ", rest);
        assert word + " " + rest == word + (" " + rest);
        JoinedIsSingleSpaced(word, rest);
        SomeSpace(s, n);
      }
    }
  }

  /** Whitespace separates words: normalizing two texts with whitespace between them puts one space between what they normalize to, if there
      are words on both sides. A text without whitespace stays as it is. */
  lemma {:induction false} NormalizedJoins(a: string, space: char, b: string)
    requires IsSpace(space)
    ensures Normalized(a + [space] + b) ==
            if Normalized(a) == "" then Normalized(b)
            else if Normalized(b) == "" then Normalized(a)
            else Normalized(a) + " " + Normalized(b)
    ensures (forall i | 0 <= i < |a| :: !IsSpace(a[i])) ==> Normalized(a) == a
  {
    hide IsSpace;
    var all := a + [space] + b;
    if a == "" {
      assert all[0] == space && all[1..] == b;
    } else if IsSpace(a[0]) {
      assert all[1..] == a[1..] + [space] + b;
      NormalizedJoins(a[1..], space, b);
    } else {
      var n := WordLength(a);
      WordFacts(a);
      WordLengthOf(all, n);
      assert all[..n] == a[..n] && all[n..] == a[n..] + [space] + b;
      NormalizedJoins(a[n..], space, b);
      Regrouped(a[..n], Normalized(a[n..]), Normalized(b));
      if forall i | 0 <= i < |a| :: !IsSpace(a[i]) {
        assert n == |a| && a[n..] == "" && a[..n] == a;
      }
    }
  }

  lemma Regrouped(word: string, rest: string, other: string)
    ensures word + " " + (rest + " " + other) == (word + " " + rest) + " " + other
  {
  }

  lemma {:induction false} WordLengthOf(s: string, n: nat)
    requires n < |s| && (forall i | 0 <= i < n :: !IsSpace(s[i])) && IsSpace(s[n])
    ensures WordLength(s) == n
  {
    if n > 0 {
      WordLengthOf(s[1..], n - 1);
    }
  }

  lemma WordIsSingleSpaced(word: string)
    requires forall i | 0 <= i < |word| :: !IsSpace(word[i])
    ensures SingleSpaced(word)
  {
  }

  lemma SomeSpace(s: string, n: nat)
    requires n == WordLength(s) <= |s| && Normalized(s[n..]) != "" && |Normalized(s[n..])| <= |s| - n
    ensures n + 1 + |Normalized(s[n..])| <= |s|
  {
    WordFacts(s);
    var t := s[n..];
    assert IsSpace(t[0]);
    NormalizedFacts(t[1..]);
  }

  lemma JoinedIsSingleSpaced(word: string, rest: string)
    requires word != "" && rest != "" && (forall i | 0 <= i < |word| :: !IsSpace(word[i])) && SingleSpaced(rest)
    ensures SingleSpaced(word + " " + rest)
  {
    var all := word + " " + rest;
    var k := |word|;
    assert all[k] == ' ' && all[k + 1] == rest[0];
    forall i, j | 0 <= i && j == i + 1 < |all| && IsSpace(all[i]) ensures all[i] == ' ' && !IsSpace(all[j]) {
      if i > k {
        assert all[i] == rest[i - k - 1] && all[j] == rest[j - k - 1];
      }
    }
    assert all[0] == word[0] && all[|all| - 1] == rest[|rest| - 1];
  }

  function Prefix(s: string, n: int): string {
    if n <= 0 then "" else if n < |s| then s[..n] else s
  }

  function SummaryLine(message: Message, perMessage: nat): string {
    var prefix := message.role + ": ";
    prefix + Prefix(Normalized(message.content), Max(1, Min(240, perMessage - |prefix| - 1)))
  }

  function SummaryLines(messages: seq<Message>, perMessage: nat): (lines: seq<string>)
    ensures |lines| == |messages|
    ensures forall i | 0 <= i < |messages| :: lines[i] == SummaryLine(messages[i], perMessage)
  {
    seq(|messages|, i requires 0 <= i < |messages| => SummaryLine(messages[i], perMessage))
  }

  /** An excerpt names its role and shows the beginning of the normalized content, all of it if there is room: never more than 240 characters,
      and always at least one. */
  lemma ExcerptShows(message: Message, perMessage: nat)
    ensures var line, start, content := SummaryLine(message, perMessage), |message.role| + 2, Normalized(message.content);
            && start <= |line| && line[..start] == message.role + ": " && line[start..] <= content
            && |line| - start <= 240 && (|line| > start + 1 ==> |line| < perMessage)
            && (line[start..] == content <==> |content| <= 1 || (|content| <= 240 && start + |content| < perMessage))
            && (content != "" ==> |line| > start)
            && (line[start..] != content && |line| - start < 240 && |line| > start + 1 ==> |line| + 1 == perMessage)
            && (line[start..] != content && |line| == start + 1 ==> perMessage <= start + 2)
  {
    hide Normalized;
  }

  function PerMessage(messages: seq<Message>, budget: nat): nat
    requires messages != []
  {
    Max(1, budget / |messages|)
  }

  /** The first n lines are as many as fit in the budget. */
  ghost predicate MostLines(lines: seq<string>, budget: nat, n: nat) {
    && n <= |lines| && |JoinLines(lines[..n])| <= budget
    && (forall k | n < k <= |lines| :: |JoinLines(lines[..k])| > budget)
  }

  ghost predicate IsSummary(summary: string, messages: seq<Message>, budget: nat) {
    if messages == [] then summary == ""
    else
      var lines := SummaryLines(messages, PerMessage(messages, budget));
      exists n: nat :: MostLines(lines, budget, n) && summary == JoinLines(lines[..n])
  }

  lemma {:induction false} JoinGrows(lines: seq<string>, j: nat, k: nat)
    requires 0 < j <= k <= |lines|
    ensures |JoinLines(lines[..j])| <= |JoinLines(lines[..k])|
    decreases k - j
  {
    if j < k {
      JoinOneMore(lines, k - 1);
      JoinGrows(lines, j, k - 1);
    }
  }

  lemma JoinOneMore(lines: seq<string>, k: nat)
    requires k < |lines|
    ensures k > 0 ==> JoinLines(lines[..k + 1]) == JoinLines(lines[..k]) + "\n" + lines[k]
    ensures k == 0 ==> JoinLines(lines[..k + 1]) == lines[0]
  {
    assert lines[..k + 1][..k] == lines[..k];
  }

  lemma LinesEnd(lines: seq<string>, n: nat, budget: nat)
    requires n <= |lines| && |JoinLines(lines[..n])| <= budget
    requires n < |lines| ==> |JoinLines(lines[..n + 1])| > budget
    ensures MostLines(lines, budget, n)
  {
    forall k | n < k <= |lines| ensures |JoinLines(lines[..k])| > budget {
      JoinGrows(lines, n + 1, k);
    }
  }

  method Summarize(messages: seq<Message>, budget: nat) returns (summary: string)
    ensures IsSummary(summary, messages, budget)
  {
    hide SummaryLine;
    if messages == [] {
      return "";
    }
    var lines: seq<string> := [];
    var perMessage := PerMessage(messages, budget);
    ghost var all := SummaryLines(messages, perMessage);
    var used, k := 0, 0;
    while k < |messages|
      invariant 0 <= k <= |messages| && lines == all[..k]
      invariant used == if k == 0 then 0 else |JoinLines(all[..k])| + 1
      invariant |JoinLines(all[..k])| <= budget
    {
      var line := SummaryLine(messages[k], perMessage);
      JoinOneMore(all, k);
      if used + |line| > budget {
        break;
      }
      lines := lines + [line];
      used := used + |line| + 1;
      k := k + 1;
    }
    LinesEnd(all, k, budget);
    summary := JoinLines(lines);
  }

  // ----- memories

  function EntryCost(entry: MemoryEntry): nat {
    if entry.Malformed? then 0 else |entry.content| + |entry.summary|
  }

  function Cost(entries: seq<MemoryEntry>): nat {
    if entries == [] then 0 else Cost(entries[..|entries| - 1]) + EntryCost(entries[|entries| - 1])
  }

  function WellFormed(entries: seq<MemoryEntry>): seq<MemoryEntry> {
    if entries == [] then []
    else if entries[|entries| - 1].Malformed? then WellFormed(entries[..|entries| - 1])
    else WellFormed(entries[..|entries| - 1]) + [entries[|entries| - 1]]
  }

  /** Malformed entries are left out and the others kept in their order, and each costs the length of its content and of its summary. */
  lemma {:induction false} GroupsAddUp(a: seq<MemoryEntry>, b: seq<MemoryEntry>)
    ensures WellFormed(a + b) == WellFormed(a) + WellFormed(b) && Cost(a + b) == Cost(a) + Cost(b)
    ensures WellFormed([Malformed]) == [] && Cost([Malformed]) == 0
    ensures forall content, summary :: WellFormed([MemoryEntry(content, summary)]) == [MemoryEntry(content, summary)]
                                       && Cost([MemoryEntry(content, summary)]) == |content| + |summary|
  {
    assert [Malformed][..0] == [];
    forall content, summary ensures WellFormed([MemoryEntry(content, summary)]) == [MemoryEntry(content, summary)]
                                    && Cost([MemoryEntry(content, summary)]) == |content| + |summary| {
      assert [MemoryEntry(content, summary)][..0] == [];
    }
    if b == [] {
      assert a + b == a;
    } else {
      assert (a + b)[..|a + b| - 1] == a + b[..|b| - 1];
      GroupsAddUp(a, b[..|b| - 1]);
    }
  }

  /** The kept entries are the well-formed ones before the first entry that no longer fits. */
  ghost predicate IsAffordable(kept: seq<MemoryEntry>, entries: seq<MemoryEntry>, budget: int) {
    && Cost(kept) <= budget
    && exists n: nat :: n <= |entries| && kept == WellFormed(entries[..n]) && (n < |entries| ==> Cost(kept) + EntryCost(entries[n]) > budget)
  }

  function Group(group: Option<seq<MemoryEntry>>): seq<MemoryEntry> { if group.Some? then group.value else [] }

  method TrimGroup(group: Option<seq<MemoryEntry>>, budget: nat) returns (kept: seq<MemoryEntry>, remaining: nat)
    ensures IsAffordable(kept, Group(group), budget)
    ensures remaining == budget - Cost(kept)
  {
    kept, remaining := [], budget;
    if group == None {
      assert WellFormed(Group(group)[..0]) == [];
    } else {
      var entries, k := group.value, 0;
      while k < |entries| && EntryCost(entries[k]) <= remaining
        invariant 0 <= k <= |entries|
        invariant kept == WellFormed(entries[..k])
        invariant Cost(kept) <= budget && remaining == budget - Cost(kept)
      {
        assert entries[..k + 1][..k] == entries[..k];
        if !entries[k].Malformed? {
          assert (kept + [entries[k]])[..|kept|] == kept;
          kept := kept + [entries[k]];
          remaining := remaining - EntryCost(entries[k]);
        }
        k := k + 1;
      }
    }
  }

  // ----- sources and attachments

  function Text(sources: seq<Source>): string {
    if sources == [] then "" else Text(sources[..|sources| - 1]) + sources[|sources| - 1].content
  }

  lemma TextSnoc(sources: seq<Source>, last: Source)
    ensures Text(sources + [last]) == Text(sources) + last.content
  {
    assert (sources + [last])[..|sources|] == sources;
  }

  /** The kept sources stand at these places of the given ones, in their order: each keeps its title and the beginning of its content, none is
      empty, and all but the last are whole. */
  ghost predicate CutAt(kept: seq<Source>, sources: seq<Source>, at: seq<nat>) {
    && |at| == |kept| && (forall i, j | 0 <= i < j < |at| :: at[i] < at[j])
    && (forall i | 0 <= i < |at| ::
          at[i] < |sources| && kept[i].title == sources[at[i]].title && kept[i].content <= sources[at[i]].content && kept[i].content != "")
    && (forall i | 0 <= i < |at| - 1 :: kept[i] == sources[at[i]])
  }

  ghost predicate CutFrom(kept: seq<Source>, sources: seq<Source>) {
    exists at :: CutAt(kept, sources, at)
  }

  lemma {:induction false} TextPrefix(sources: seq<Source>, n: nat)
    requires n <= |sources|
    ensures Text(sources[..n]) <= Text(sources)
    decreases |sources| - n
  {
    if n == |sources| {
      assert sources[..n] == sources;
    } else {
      assert sources[..n + 1][..n] == sources[..n];
      TextPrefix(sources, n + 1);
    }
  }

  /** Cutting one more source to the characters that remain. */
  lemma CutOneMore(kept: seq<Source>, sources: seq<Source>, n: nat, budget: nat)
    requires n < |sources| && |Text(kept)| < budget
    requires Text(kept) == Prefix(Text(sources[..n]), budget)
    ensures var cut := sources[n].(content := Prefix(sources[n].content, budget - |Text(kept)|));
            && Text(kept) + cut.content == Prefix(Text(sources[..n + 1]), budget)
            && Text(kept + [cut]) == Text(kept) + cut.content
  {
    hide Text;
    var cut := sources[n].(content := Prefix(sources[n].content, budget - |Text(kept)|));
    PrefixOfSum(Text(sources[..n]), sources[n].content, budget);
    assert sources[..n + 1] == sources[..n] + [sources[n]];
    TextSnoc(sources[..n], sources[n]);
    TextSnoc(kept, cut);
    assert cut.content <= sources[n].content;
  }

  /** The state of the loop: what is kept stands at places before n, all of it whole while something remains. */
  ghost predicate CutSoFar(kept: seq<Source>, sources: seq<Source>, at: seq<nat>, n: nat, remaining: nat) {
    && CutAt(kept, sources, at) && (forall i | 0 <= i < |at| :: at[i] < n)
    && (remaining > 0 ==> forall i | 0 <= i < |at| :: kept[i] == sources[at[i]])
  }

  lemma CutNext(kept: seq<Source>, sources: seq<Source>, at: seq<nat>, n: nat, remaining: nat)
    requires CutSoFar(kept, sources, at, n, remaining) && n < |sources| && remaining > 0
    ensures var trimmed := Prefix(sources[n].content, remaining);
            if trimmed == "" then CutSoFar(kept, sources, at, n + 1, remaining)
            else CutSoFar(kept + [sources[n].(content := trimmed)], sources, at + [n], n + 1, remaining - |trimmed|)
  {
  }

  /** The kept contents, read one after another, are the first characters of the given contents, each under its own title. */
  method TrimSources(sources: seq<Source>, budget: nat) returns (kept: seq<Source>)
    ensures Text(kept) == Prefix(Text(sources), budget)
    ensures CutFrom(kept, sources)
  {
    hide CutSoFar, CutAt, Text;
    kept := [];
    var remaining, n := budget, 0;
    ghost var at: seq<nat> := [];
    assert Text([]) == "" by { NothingCut(sources, budget); }
    NothingCut(sources, budget);
    while n < |sources| && remaining > 0
      invariant 0 <= n <= |sources|
      invariant Text(kept) == Prefix(Text(sources[..n]), budget) && remaining == budget - |Text(kept)|
      invariant CutSoFar(kept, sources, at, n, remaining)
    {
      var trimmed := Prefix(sources[n].content, remaining);
      CutOneMore(kept, sources, n, budget);
      CutNext(kept, sources, at, n, remaining);
      if trimmed != "" {
        kept := kept + [sources[n].(content := trimmed)];
        remaining := remaining - |trimmed|;
        at := at + [n];
      }
      n := n + 1;
    }
    WholePrefix(sources, n, budget);
    assert CutAt(kept, sources, at) by { CutIsAt(kept, sources, at, n, remaining); }
  }

  lemma CutIsAt(kept: seq<Source>, sources: seq<Source>, at: seq<nat>, n: nat, remaining: nat)
    requires CutSoFar(kept, sources, at, n, remaining)
    ensures CutAt(kept, sources, at)
  {
    hide CutAt;
  }

  lemma NothingCut(sources: seq<Source>, budget: nat)
    ensures CutSoFar([], sources, [], 0, budget) && Text([]) == "" && Text(sources[..0]) == ""
  {
  }

  lemma WholePrefix(sources: seq<Source>, n: nat, budget: nat)
    requires n <= |sources|
    requires n == |sources| || |Text(sources[..n])| >= budget
    ensures Prefix(Text(sources), budget) == Prefix(Text(sources[..n]), budget)
  {
    TextPrefix(sources, n);
    if n == |sources| {
      assert sources[..n] == sources;
    }
  }

  lemma PrefixOfSum(a: string, b: string, n: nat)
    requires |Prefix(a, n)| < n
    ensures Prefix(a, n) == a && Prefix(a + b, n) == a + Prefix(b, n - |a|)
  {
  }

  lemma SummaryFits(summary: string, messages: seq<Message>, budget: nat)
    requires IsSummary(summary, messages, budget)
    ensures |summary| <= budget
  {
  }

  // ----- the whole context

  /** What the sections of a context are, section by section. */
  ghost predicate IsContext(c: Context, messages: seq<Message>, memory: MemoryContext, sources: seq<Source>,
                            attachments: seq<Source>, b: Budgets) {
    var left := Max(0, b.total - c.Spoken());
    var forMemory := Min(b.memory, left);
    var forSources := left - Cost(c.profile) - Cost(c.relevant);
    && IsRecent(c.recent, messages, b.recent, b.recentCount)
    && c.omitted == Omitted(messages, c.recent)
    && IsSummary(c.summary, c.omitted, b.summary)
    && IsAffordable(c.profile, Group(memory.profile), forMemory)
    && IsAffordable(c.relevant, Group(memory.relevant), forMemory - Cost(c.profile))
    && Text(c.sources) == Prefix(Text(sources), Min(b.source, forSources))
    && Text(c.attachments) == Prefix(Text(attachments), Min(b.attachment, forSources - |Text(c.sources)|))
    && CutFrom(c.sources, sources) && CutFrom(c.attachments, attachments)
  }

  method Build(messages: seq<Message>, memory: MemoryContext, sources: seq<Source>, attachments: seq<Source>, b: Budgets)
    returns (c: Context)
    requires b.Valid()
    ensures IsContext(c, messages, memory, sources, attachments, b)
  {
    hide IsRecent, IsSummary, Text, CutFrom, Cost, Characters;
    var recent := RecentMessages(messages, b.recent, b.recentCount);
    var omitted := Omitted(messages, recent);
    var summary := Summarize(omitted, b.summary);
    var remaining := Max(0, b.total - (Characters(recent) + |summary|));
    var profile, left := TrimGroup(memory.profile, Min(b.memory, remaining));
    var relevant, _ := TrimGroup(memory.relevant, left);
    remaining := remaining - (Cost(profile) + Cost(relevant));
    var boundedSources := TrimSources(sources, Min(b.source, Max(0, remaining)));
    remaining := remaining - |Text(boundedSources)|;
    var boundedAttachments := TrimSources(attachments, Min(b.attachment, Max(0, remaining)));
    c := Context(recent, omitted, summary, profile, relevant, boundedSources, boundedAttachments);
  }

  /** Whatever the inputs, memories, sources and attachments take only what recent messages and summary leave of the total. */
  lemma ContextIsBounded(c: Context, messages: seq<Message>, memory: MemoryContext, sources: seq<Source>, attachments: seq<Source>, b: Budgets)
    requires b.Valid() && IsContext(c, messages, memory, sources, attachments, b)
    ensures c.Size() <= Max(b.total, c.Spoken())
    ensures c.Size() <= b.total <==> c.Spoken() <= b.total
    ensures Cost(c.profile) + Cost(c.relevant) <= b.memory && |Text(c.sources)| <= b.source && |Text(c.attachments)| <= b.attachment
    ensures |c.recent| <= b.recentCount && |c.summary| <= b.summary
  {
    hide IsSummary, Text, CutFrom, Cost, Characters;
    SummaryFits(c.summary, c.omitted, b.summary);
  }

  /** The total holds when the newest message fits the recent budget and the recent and summary budgets fit the total. */
  lemma ContextFitsTotal(c: Context, messages: seq<Message>, memory: MemoryContext, sources: seq<Source>, attachments: seq<Source>, b: Budgets)
    requires b.Valid() && IsContext(c, messages, memory, sources, attachments, b)
    requires messages != [] ==> |messages[|messages| - 1].content| <= b.recent
    requires b.recent + b.summary <= b.total
    ensures c.Size() <= b.total
  {
    hide IsSummary, IsRecent, Text, Cost, Characters;
    RecentFits(c.recent, messages, b.recent, b.recentCount);
    ContextIsBounded(c, messages, memory, sources, attachments, b);
  }

  /** The section kept all well-formed entries, or the next one costs more than its budget has left. */
  ghost predicate FullOrWhole(kept: seq<MemoryEntry>, entries: seq<MemoryEntry>, budget: int) {
    || kept == WellFormed(entries)
    || exists e :: e in entries && Cost(kept) + EntryCost(e) > budget
  }

  /** Nothing is left out before a budget is used up: a message only if the next one breaks a limit of the recent messages, a memory only if the
      next one breaks its budget or the total, and a character of sources or attachments only if their budget or the total is reached. */
  lemma LeavesOutOnlyWhenFull(c: Context, messages: seq<Message>, memory: MemoryContext, sources: seq<Source>, attachments: seq<Source>, b: Budgets)
    requires b.Valid() && IsContext(c, messages, memory, sources, attachments, b)
    ensures var n := |messages| - |c.recent|;
            && 0 <= n && c.recent == messages[n..]
            && (n > 0 ==> |c.recent| >= b.recentCount || Characters(c.recent) + |messages[n - 1].content| > b.recent)
    ensures var left := if b.total > c.Spoken() then b.total - c.Spoken() else 0;
            var forMemory := if b.memory < left then b.memory else left;
            && FullOrWhole(c.profile, Group(memory.profile), forMemory)
            && FullOrWhole(c.relevant, Group(memory.relevant), forMemory - Cost(c.profile))
            && (Text(c.sources) == Text(sources) || |Text(c.sources)| == b.source || |Text(c.sources)| == left - Cost(c.profile) - Cost(c.relevant))
            && (Text(c.attachments) == Text(attachments) || |Text(c.attachments)| == b.attachment
                || |Text(c.attachments)| == left - Cost(c.profile) - Cost(c.relevant) - |Text(c.sources)|)
  {
    hide IsSummary, Text, Cost, CutFrom, IsAffordable, IsRecent;
    RecentIsLongest(c.recent, messages, b.recent, b.recentCount);
    var left := Max(0, b.total - c.Spoken());
    var forMemory := Min(b.memory, left);
    AffordableIsFull(c.profile, Group(memory.profile), forMemory);
    AffordableIsFull(c.relevant, Group(memory.relevant), forMemory - Cost(c.profile));
    assert Cost(c.profile) + Cost(c.relevant) <= left by { AffordableFits(c, memory, forMemory); }
  }

  lemma AffordableFits(c: Context, memory: MemoryContext, budget: int)
    requires IsAffordable(c.profile, Group(memory.profile), budget) && IsAffordable(c.relevant, Group(memory.relevant), budget - Cost(c.profile))
    ensures Cost(c.profile) + Cost(c.relevant) <= budget
  {
    hide Cost;
  }

  lemma RecentIsLongest(recent: seq<Message>, messages: seq<Message>, budget: nat, count: nat)
    requires IsRecent(recent, messages, budget, count) && count > 0
    ensures var n := |messages| - |recent|;
            && 0 <= n && recent == messages[n..]
            && (n > 0 ==> |recent| >= count || Characters(recent) + |messages[n - 1].content| > budget)
  {
    hide Shown, Characters;
    var from: nat :| IsRecentStart(messages, from, budget, count) && recent == messages[from..];
    if from > 0 {
      OneMoreMessage(messages, from - 1, budget, count);
      assert !Shown(messages, from - 1, budget, count);
    }
  }

  lemma AffordableIsFull(kept: seq<MemoryEntry>, entries: seq<MemoryEntry>, budget: int)
    requires IsAffordable(kept, entries, budget)
    ensures FullOrWhole(kept, entries, budget)
  {
    hide Cost, WellFormed;
    var n: nat :| n <= |entries| && kept == WellFormed(entries[..n]) && (n < |entries| ==> Cost(kept) + EntryCost(entries[n]) > budget);
    if n == |entries| {
      assert entries[..n] == entries;
    } else {
      assert entries[n] in entries;
    }
  }

  /** With distinct message ids nothing of the thread is lost or repeated: what is summarized, then what is shown. */
  lemma ContextCoversThread(c: Context, messages: seq<Message>, memory: MemoryContext, sources: seq<Source>, attachments: seq<Source>, b: Budgets)
    requires IsContext(c, messages, memory, sources, attachments, b) && DistinctIds(messages)
    ensures c.omitted + c.recent == messages
    ensures messages != [] ==> c.recent != []
  {
    hide IsSummary, Text, Cost, Characters;
    var from: nat :| IsRecentStart(messages, from, b.recent, b.recentCount) && c.recent == messages[from..];
    OmittedThenRecent(messages, from);
    if messages != [] {
      assert Shown(messages, |messages| - 1, b.recent, b.recentCount);
    }
  }
}
