/** The colon-separated keys from which action ids, idempotency keys and slot keys are derived. */
module KeyStrings {

  function Digit(d: nat): char
    requires d < 10
  {
    ('0' as int + d) as char
  }

  function Decimal(n: nat): string {
    if n < 10 then [Digit(n)] else Decimal(n / 10) + [Digit(n % 10)]
  }

  function Value(s: string): int {
    if s == "" then 0 else 10 * Value(s[..|s| - 1]) + (s[|s| - 1] as int - '0' as int)
  }

  ghost predicate NoColon(s: string) { ':' !in s }

  lemma {:induction false} DecimalFacts(n: nat)
    ensures Value(Decimal(n)) == n && NoColon(Decimal(n))
  {
    if n < 10 {
      assert Decimal(n)[..0] == "";
    } else {
      DecimalFacts(n / 10);
      assert Decimal(n)[..|Decimal(n)| - 1] == Decimal(n / 10);
    }
  }

  function Joined(a: string, rest: string): string { a + ":" + rest }

  /** A key splits at its first colon in only one way. */
  lemma SplitAtColon(a: string, ra: string, b: string, rb: string)
    requires NoColon(a) && NoColon(b) && Joined(a, ra) == Joined(b, rb)
    ensures a == b && ra == rb
  {
    var s, t := Joined(a, ra), Joined(b, rb);
    assert s[|a|] == ':' && t[|b|] == ':';
    assert forall i | 0 <= i < |a| :: s[i] == a[i] && a[i] != ':';
    assert forall i | 0 <= i < |b| :: t[i] == b[i] && b[i] != ':';
    assert |a| == |b|;
    assert s[..|a|] == a && t[..|b|] == b;
    assert s[|a| + 1..] == ra && t[|b| + 1..] == rb;
  }

  // ----- tool actions

  /** The name from which the id of a single tool action is hashed. */
  function SingleKey(run: string, index: nat, tool: string): string {
    Joined(run, Joined(Decimal(index), tool))
  }

  /** The name from which the id of a batched tool action is hashed. */
  function BatchTail(position: nat, tool: string): string { Joined("batch", Joined(Decimal(position), tool)) }

  function BatchKey(run: string, base: nat, position: nat, tool: string): string {
    Joined(run, Joined(Decimal(base), BatchTail(position, tool)))
  }

  lemma SingleKeyInjective(run: string, i: nat, m: string, other: string, j: nat, n: string)
    requires NoColon(run) && NoColon(other) && SingleKey(run, i, m) == SingleKey(other, j, n)
    ensures run == other && i == j && m == n
  {
    hide Decimal, Joined;
    DecimalFacts(i);
    DecimalFacts(j);
    SplitAtColon(run, Joined(Decimal(i), m), other, Joined(Decimal(j), n));
    SplitAtColon(Decimal(i), m, Decimal(j), n);
  }

  lemma BatchKeyInjective(run: string, b: nat, i: nat, m: string, other: string, c: nat, j: nat, n: string)
    requires NoColon(run) && NoColon(other) && BatchKey(run, b, i, m) == BatchKey(other, c, j, n)
    ensures run == other && b == c && i == j && m == n
  {
    hide Decimal, Joined;
    SingleKeyInjective(run, b, BatchTail(i, m), other, c, BatchTail(j, n));
    DecimalFacts(i);
    DecimalFacts(j);
    assert NoColon("batch");
    SplitAtColon("batch", Joined(Decimal(i), m), "batch", Joined(Decimal(j), n));
    SplitAtColon(Decimal(i), m, Decimal(j), n);
  }

  /** A single action and a batched one share a key exactly when the single tool is named like the tail of the batched key. */
  lemma SingleMeetsBatch(run: string, i: nat, m: string, other: string, b: nat, j: nat, n: string)
    requires NoColon(run) && NoColon(other)
    ensures SingleKey(run, i, m) == BatchKey(other, b, j, n) <==> run == other && i == b && m == BatchTail(j, n)
    ensures NoColon(m) ==> SingleKey(run, i, m) != BatchKey(other, b, j, n)
  {
    hide Decimal;
    assert BatchTail(j, n)[5] == ':';
    if SingleKey(run, i, m) == BatchKey(other, b, j, n) {
      SingleKeyInjective(run, i, m, other, b, BatchTail(j, n));
    }
  }

  // ----- automation slots

  /** scheduled_slot_key: the automation, its definition revision and the scheduled time in ISO form. */
  function SlotKey(automation: string, revision: nat, scheduledFor: string): string {
    Joined(automation, Joined(Decimal(revision), scheduledFor))
  }

  lemma SlotKeyInjective(a: string, r: nat, t: string, b: string, s: nat, u: string)
    requires NoColon(a) && NoColon(b)
    ensures SlotKey(a, r, t) == SlotKey(b, s, u) <==> a == b && r == s && t == u
  {
    hide Decimal;
    if SlotKey(a, r, t) == SlotKey(b, s, u) {
      SingleKeyInjective(a, r, t, b, s, u);
    }
  }
}
