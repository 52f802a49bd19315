/** The episodic memory item written for a completed or waiting run. */
module RunOutcomes {
  import opened Prelude
  import opened Nodes
  import opened Memory

  /** What the item's content dictionary holds of the run. */
  datatype Report = Report(
    runId: string, vertical: string, skillName: string, status: Status, citations: seq<string>,
    approvalRequired: bool, approvalRole: Option<string>, pendingTool: Option<string>, toolNames: seq<string>,
    stepCount: nat, cost: real, outcome: Outcome, error: Option<RunError>)

  function StatusName(status: Status): string {
    match status
    case Pending => "pending"
    case Running => "running"
    case Paused => "paused"
    case ApprovalRequired => "approval_required"
    case Completed => "completed"
    case Failed => "failed"
    case Cancelled => "cancelled"
  }

  function Digit(d: nat): char
    requires d < 10
  {
    ['0', '1', '2', '3', '4', '5', '6', '7', '8', '9'][d]
  }

  /** The decimal numeral of n. */
  function Decimal(n: nat): string {
    if n < 10 then [Digit(n)] else Decimal(n / 10) + [Digit(n % 10)]
  }

  function OrDefault(s: string, default: string): string {
    if s == "" then default else s
  }

  function EntityKey(runName: string, status: Status, stepCount: nat): string {
    runName + ":" + StatusName(status) + ":" + Decimal(stepCount)
  }

  function ToolNames(trace: seq<TraceEntry>): seq<string> {
    seq(|trace|, i requires 0 <= i < |trace| => trace[i].toolName)
  }

  predicate Writable(status: Status) {
    status == Completed || status == ApprovalRequired
  }

  /** The words of the content and the time of writing come from outside. */
  function RunOutcome(s: RunState, words: set<string>, now: real): Option<Item<Report>> {
    if !Writable(s.status) then None
    else
      var runName := OrDefault(s.runId, "unknown-run");
      var vertical := OrDefault(s.vertical, "general");
      var skill := OrDefault(s.skillName, "unknown-skill");
      Some(Item(
        vertical + ".run_outcomes", EntityKey(runName, s.status, s.stepCount), Episodic,
        Report(runName, vertical, skill, s.status, s.citations, s.pendingApproval, s.approvalRole, s.pendingTool,
               ToolNames(s.trace), s.stepCount, s.cost, s.outcome, s.error),
        words, Team, 0.9, 1.0, true, now, now))
  }

  lemma DigitInjective(d: nat, e: nat)
    requires d < 10 && e < 10
    ensures Digit(d) == Digit(e) <==> d == e
    ensures Digit(d) != ':'
  {
  }

  lemma {:induction false} DecimalShape(n: nat)
    ensures ColonFree(Decimal(n)) && |Decimal(n)| > 0
    ensures n >= 10 <==> |Decimal(n)| > 1
  {
    DigitInjective(n % 10, 0);
    if n >= 10 {
      DecimalShape(n / 10);
    }
  }

  lemma {:induction false} DecimalInjective(m: nat, n: nat)
    ensures Decimal(m) == Decimal(n) <==> m == n
    decreases m
  {
    DecimalShape(m);
    DecimalShape(n);
    DigitInjective(m % 10, n % 10);
    if m >= 10 && n >= 10 {
      DecimalInjective(m / 10, n / 10);
      var a, b := Decimal(m / 10), Decimal(n / 10);
      if Decimal(m) == Decimal(n) {
        assert a == (a + [Digit(m % 10)])[..|Decimal(m)| - 1] == (b + [Digit(n % 10)])[..|Decimal(n)| - 1] == b;
        assert (a + [Digit(m % 10)])[|a|] == (b + [Digit(n % 10)])[|b|];
      }
    }
  }

  /** The number that a string of digits stands for. */
  function Number(s: string): int {
    if s == "" then 0 else Number(s[..|s| - 1]) * 10 + (s[|s| - 1] as int - '0' as int)
  }

  /** The numeral stands for its number, and has no leading zero. */
  lemma {:induction false} DecimalMeans(n: nat)
    ensures Number(Decimal(n)) == n
    ensures Decimal(n) != "" && (n > 0 ==> Decimal(n)[0] != '0')
  {
    if n >= 10 {
      DecimalMeans(n / 10);
      assert Decimal(n)[..|Decimal(n)| - 1] == Decimal(n / 10);
    } else {
      assert [Digit(n)][..0] == "";
    }
  }

  lemma StatusNamesDiffer(s: Status, t: Status)
    requires Writable(s) && Writable(t)
    ensures ColonFree(StatusName(s))
    ensures StatusName(s) == StatusName(t) <==> s == t
  {
    assert StatusName(ApprovalRequired)[0] == 'a' && StatusName(Completed)[0] == 'c';
  }

  /** For colon-free run ids, such as UUIDs, the entity key identifies the run,
      its status and its step count. */
  lemma EntityKeyInjective(a: string, s: Status, m: nat, b: string, t: Status, n: nat)
    requires ColonFree(a) && ColonFree(b) && Writable(s) && Writable(t)
    ensures EntityKey(a, s, m) == EntityKey(b, t, n) <==> a == b && s == t && m == n
  {
    DecimalInjective(m, n);
    DecimalShape(m);
    DecimalShape(n);
    StatusNamesDiffer(s, t);
    StatusNamesDiffer(t, s);
    if EntityKey(a, s, m) == EntityKey(b, t, n) {
      LastColon(a + ":" + StatusName(s), Decimal(m), b + ":" + StatusName(t), Decimal(n));
      FirstColon(a, StatusName(s), b, StatusName(t));
    }
  }
}
