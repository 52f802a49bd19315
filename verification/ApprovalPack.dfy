/** The action readiness pack a human decides on, and the citations as the
    API prints them back. */
module ApprovalPack {
  import opened Prelude
  import opened RiskRegistry
  import opened Nodes
  import opened RunGraph
  import opened GraphRuns

  datatype Evidence = Evidence(source: string, citation: string)

  datatype PolicyCitation = PolicyCitation(policyId: string, clauseId: string)

  datatype Pack = Pack(
    runId: string, action: string, role: string, tier: Tier, reversible: bool,
    evidence: seq<Evidence>, policyCitations: seq<PolicyCitation>)

  // ---------------------------------------------------------- one citation

  predicate SeparatorAt(s: string, i: nat) {
    i + 2 <= |s| && s[i..i + 2] == SEPARATOR
  }

  predicate HasSeparator(s: string) {
    exists i: nat :: i < |s| && SeparatorAt(s, i)
  }

  /** str.partition: what stands before and after the first separator. */
  function Partition(s: string): (string, string) {
    if s == "" then ("", "")
    else if SeparatorAt(s, 0) then ("", s[2..])
    else
      var rest := Partition(s[1..]);
      ([s[0]] + rest.0, rest.1)
  }

  function SplitCitation(citation: string): PolicyCitation {
    var parts := Partition(citation);
    PolicyCitation(if parts.0 != "" then parts.0 else citation, if parts.1 != "" then parts.1 else "unspecified")
  }

  function Reprint(c: PolicyCitation): string {
    PrintCitation(c.policyId, c.clauseId)
  }

  lemma SeparatorInTail(s: string, i: nat)
    requires s != ""
    ensures SeparatorAt(s[1..], i) <==> SeparatorAt(s, i + 1)
  {
    if i + 3 <= |s| {
      assert s[1..][i..i + 2] == s[i + 1..i + 3];
    }
  }

  lemma {:induction false} PartitionAtFirst(s: string, k: nat)
    requires SeparatorAt(s, k)
    requires forall i: nat :: i < k ==> !SeparatorAt(s, i)
    ensures Partition(s) == (s[..k], s[k + 2..])
    decreases k
  {
    if k > 0 {
      assert !SeparatorAt(s, 0);
      SeparatorInTail(s, k - 1);
      forall i: nat | i < k - 1 ensures !SeparatorAt(s[1..], i) {
        SeparatorInTail(s, i);
      }
      PartitionAtFirst(s[1..], k - 1);
      assert s[1..][..k - 1] == s[1..k];
      assert s[..k] == [s[0]] + s[1..k];
    }
  }

  /** A separator in a printed citation that starts inside the policy id lies
      in the policy id: it cannot straddle its end. */
  lemma SeparatorsOfPrinted(p: string, c: string, i: nat)
    requires i < |p|
    ensures SeparatorAt(PrintCitation(p, c), i) <==> SeparatorAt(p, i)
  {
    var s := PrintCitation(p, c);
    assert SEPARATOR[0] == ' ' && SEPARATOR[1] != ' ';
    if i + 2 <= |p| {
      assert s[i..i + 2] == p[i..i + 2];
    } else {
      assert s[i..i + 2][1] == s[|p|] == ' ';
    }
  }

  ghost function FirstSeparator(p: string): (k: nat)
    requires HasSeparator(p)
    ensures SeparatorAt(p, k) && forall i: nat :: i < k ==> !SeparatorAt(p, i)
  {
    var k: nat :| k < |p| && SeparatorAt(p, k);
    SearchBack(p, k)
  }

  ghost function SearchBack(p: string, k: nat): (r: nat)
    requires SeparatorAt(p, k)
    ensures SeparatorAt(p, r) && r <= k && forall i: nat :: i < r ==> !SeparatorAt(p, i)
    decreases k
  {
    if exists i: nat :: i < k && SeparatorAt(p, i) then
      var i: nat :| i < k && SeparatorAt(p, i);
      SearchBack(p, i)
    else k
  }

  /** How a printed citation falls apart again. */
  lemma PartitionOfPrinted(p: string, c: string)
    ensures var parts := Partition(PrintCitation(p, c));
            if HasSeparator(p) then
              var k := FirstSeparator(p); parts == (p[..k], p[k + 2..] + SEPARATOR + c)
            else parts == (p, c)
  {
    var s := PrintCitation(p, c);
    forall i: nat | i < |p| ensures SeparatorAt(s, i) <==> SeparatorAt(p, i) {
      SeparatorsOfPrinted(p, c, i);
    }
    if HasSeparator(p) {
      var k := FirstSeparator(p);
      PartitionAtFirst(s, k);
      assert s[..k] == p[..k] && s[k + 2..] == p[k + 2..] + SEPARATOR + c;
    } else {
      assert s[|p|..|p| + 2] == SEPARATOR;
      PartitionAtFirst(s, |p|);
      assert s[..|p|] == p && s[|p| + 2..] == c;
    }
  }

  lemma PartitionRejoins(p: string, c: string)
    ensures var parts := Partition(PrintCitation(p, c)); parts.0 + SEPARATOR + parts.1 == PrintCitation(p, c)
  {
    PartitionOfPrinted(p, c);
    if HasSeparator(p) {
      var k := FirstSeparator(p);
      assert p == p[..k] + p[k..k + 2] + p[k + 2..];
    }
  }

  /** The policy id is non-empty and does not begin with the separator, and
      something follows the first separator of the printed citation. */
  ghost predicate PrintsBack(p: string, c: string) {
    p != "" && !SeparatorAt(p, 0) && (c != "" || HasSeparator(p))
  }

  /** Exactly then does splitting a printed citation for the readiness pack,
      and printing the parts again, give it back. */
  lemma CitationRoundTrip(p: string, c: string)
    ensures Reprint(SplitCitation(PrintCitation(p, c))) == PrintCitation(p, c) <==> PrintsBack(p, c)
  {
    var s := PrintCitation(p, c);
    PartitionOfPrinted(p, c);
    PartitionRejoins(p, c);
    var parts := Partition(s);
    if HasSeparator(p) && SeparatorAt(p, 0) {
      assert FirstSeparator(p) == 0;
    }
    if parts.0 == "" {
      assert |Reprint(SplitCitation(s))| > |s|;
    } else if parts.1 == "" {
      assert |Reprint(SplitCitation(s))| > |s|;
    }
  }

  /** The pair itself is recovered exactly when both parts are non-empty and
      the policy id contains no separator. */
  lemma SplitRecoversPair(p: string, c: string)
    ensures SplitCitation(PrintCitation(p, c)) == PolicyCitation(p, c) <==> p != "" && c != "" && !HasSeparator(p)
  {
    PartitionOfPrinted(p, c);
    if HasSeparator(p) {
      var k := FirstSeparator(p);
      if k > 0 {
        assert |p[..k]| < |p|;
      } else {
        assert |PrintCitation(p, c)| > |p|;
      }
    } else if p == "" {
      assert |PrintCitation(p, c)| > |p|;
    }
  }

  /** What stands in for a missing part: the whole citation for the policy,
      "unspecified" for the clause. */
  lemma SplitDefaults(p: string, c: string)
    ensures p == "" ==> SplitCitation(PrintCitation(p, c)).policyId == PrintCitation(p, c)
    ensures c == "" && !HasSeparator(p) ==> SplitCitation(PrintCitation(p, c)).clauseId == "unspecified"
  {
    PartitionOfPrinted(p, c);
  }

  /** The round trip does fail: a policy id that begins with the separator. */
  lemma RoundTripCanFail()
    ensures Reprint(SplitCitation(PrintCitation(" §A", "1"))) != PrintCitation(" §A", "1")
  {
    assert " §A"[0..2] == SEPARATOR;
    CitationRoundTrip(" §A", "1");
  }

  // ---------------------------------------------------------------- the readiness pack

  function CitationEvidence(citations: seq<string>): seq<Evidence> {
    seq(|citations|, i requires 0 <= i < |citations| => Evidence("policy.search", citations[i]))
  }

  /** One item per step with a tool name. */
  function StepEvidence(trace: seq<TraceEntry>): seq<Evidence> {
    if trace == [] then []
    else
      var n := |trace| - 1;
      StepEvidence(trace[..n]) +
      if trace[n].toolName == "" then [] else [Evidence(trace[n].toolName, "run_step:" + trace[n].toolName)]
  }

  /** The tier of the latest step of that tool; financial when there is none. */
  function TierForAction(action: string, trace: seq<TraceEntry>): Tier {
    if trace == [] then Financial
    else
      var n := |trace| - 1;
      if trace[n].toolName == action then trace[n].tier else TierForAction(action, trace[..n])
  }

  /** It is the tier of some entry of that tool with none of that tool behind
      it, and financial if the tool has no entry. */
  lemma {:induction false} TierForActionMeaning(action: string, trace: seq<TraceEntry>)
    ensures if exists i :: 0 <= i < |trace| && trace[i].toolName == action
            then exists i :: 0 <= i < |trace| && trace[i].toolName == action && trace[i].tier == TierForAction(action, trace)
                             && forall k :: i < k < |trace| ==> trace[k].toolName != action
            else TierForAction(action, trace) == Financial
    decreases |trace|
  {
    if trace != [] {
      var n := |trace| - 1;
      if trace[n].toolName == action {
        assert trace[n].tier == TierForAction(action, trace);
      } else {
        TierForActionMeaning(action, trace[..n]);
        if exists i :: 0 <= i < |trace| && trace[i].toolName == action {
          var i :| 0 <= i < |trace| && trace[i].toolName == action;
          assert trace[..n][i].toolName == action;
          var k :| 0 <= k < n && trace[..n][k].toolName == action && trace[..n][k].tier == TierForAction(action, trace[..n])
                   && forall m :: k < m < n ==> trace[..n][m].toolName != action;
          assert trace[k].toolName == action;
          forall m | k < m < |trace| ensures trace[m].toolName != action {
            assert m < n ==> trace[m] == trace[..n][m];
          }
        } else {
          assert forall i :: 0 <= i < n ==> trace[..n][i] == trace[i];
        }
      }
    }
  }

  function SplitAll(citations: seq<string>): seq<PolicyCitation> {
    seq(|citations|, i requires 0 <= i < |citations| => SplitCitation(citations[i]))
  }

  function BuildPack(runId: string, action: string, role: string, s: RunState): Pack {
    var tier := TierForAction(action, s.trace);
    Pack(runId, action, role, tier, tier != Destructive,
         CitationEvidence(s.citations) + StepEvidence(s.trace), SplitAll(s.citations))
  }

  /** The citations printed again from the pairs, or the checkpoint's. */
  function Reprinted(pack: Pack, checkpointCitations: seq<string>): seq<string> {
    if pack.policyCitations == [] then checkpointCitations
    else seq(|pack.policyCitations|, i requires 0 <= i < |pack.policyCitations| => Reprint(pack.policyCitations[i]))
  }

  function Labels(evidence: seq<Evidence>): seq<string> {
    if evidence == [] then []
    else
      var n := |evidence| - 1;
      Labels(evidence[..n]) + if evidence[n].citation != "" then [evidence[n].citation] else []
  }

  /** The evidence the API lists for an approval: the labels of the readiness
      pack's items, and only without any the reprinted citations. */
  function ApiEvidence(pack: Pack, checkpointCitations: seq<string>): seq<string> {
    var labels := Labels(pack.evidence);
    if labels != [] then labels else Reprinted(pack, checkpointCitations)
  }

  /** What the web card lists: the readiness pack's citations, printed again from their
      parts; without a pack or without citations, the API's evidence. */
  function CardLists(pack: Option<Pack>, evidence: seq<string>): seq<string> {
    if pack.Some? && pack.value.policyCitations != [] then Reprinted(pack.value, []) else evidence
  }

  method RiskTierForAction(action: string, trace: seq<TraceEntry>) returns (tier: Tier)
    ensures tier == TierForAction(action, trace)
  {
    var i := |trace|;
    assert trace[..i] == trace;
    while i > 0
      invariant 0 <= i <= |trace|
      invariant TierForAction(action, trace) == TierForAction(action, trace[..i])
    {
      i := i - 1;
      assert trace[..i + 1][..i] == trace[..i];
      if trace[i].toolName == action {
        return trace[i].tier;
      }
    }
    return Financial;
  }

  method CollectEvidence(citations: seq<string>, trace: seq<TraceEntry>) returns (evidence: seq<Evidence>)
    ensures evidence == CitationEvidence(citations) + StepEvidence(trace)
  {
    evidence := [];
    for i := 0 to |citations|
      invariant evidence == CitationEvidence(citations)[..i]
    {
      evidence := evidence + [Evidence("policy.search", citations[i])];
    }
    for i := 0 to |trace|
      invariant evidence == CitationEvidence(citations) + StepEvidence(trace[..i])
    {
      assert trace[..i + 1][..i] == trace[..i];
      if trace[i].toolName == "" {
        continue;
      }
      evidence := evidence + [Evidence(trace[i].toolName, "run_step:" + trace[i].toolName)];
    }
    assert trace[..|trace|] == trace;
  }

  predicate HasName(e: TraceEntry) {
    e.toolName != ""
  }

  /** The entries of named tools, in order. */
  function NamedSteps(trace: seq<TraceEntry>): seq<TraceEntry> {
    Filter(trace, HasName)
  }

  lemma {:induction false} StepEvidenceShows(trace: seq<TraceEntry>)
    ensures |StepEvidence(trace)| == |NamedSteps(trace)|
    ensures forall i :: 0 <= i < |NamedSteps(trace)| ==>
              StepEvidence(trace)[i] == Evidence(NamedSteps(trace)[i].toolName, "run_step:" + NamedSteps(trace)[i].toolName)
    decreases |trace|
  {
    if trace != [] {
      var n := |trace| - 1;
      StepEvidenceShows(trace[..n]);
      assert trace == trace[..n] + [trace[n]];
      FilterSnoc(trace[..n], trace[n], HasName);
    }
  }

  /** Only entries of tools without a name go missing. */
  lemma {:induction false} NamedStepsAll(trace: seq<TraceEntry>)
    ensures |NamedSteps(trace)| <= |trace|
    ensures NamedSteps(trace) == trace <==> forall e :: e in trace ==> HasName(e)
    ensures |NamedSteps(trace)| == |trace| ==> NamedSteps(trace) == trace
    decreases |trace|
  {
    if trace != [] {
      NamedStepsAll(trace[1..]);
      assert trace == [trace[0]] + trace[1..];
      assert forall e :: e in trace <==> e == trace[0] || e in trace[1..];
    }
  }

  /** The readiness pack of a waiting run: the registry's own tier of the
      pending tool, never the default, and one item per citation and per
      recorded step of a named tool. */
  lemma PackOfWaitingRun(reg: Registry, s: RunState, runId: string, role: string)
    requires WaitsAtProposal(reg, s)
    ensures var pack := BuildPack(runId, s.pendingTool.value, role, s);
            && pack.action == s.pendingTool.value
            && pack.tier == reg[pack.action].tier && GatedTier(pack.tier)
            && |pack.evidence| == |s.citations| + |NamedSteps(s.trace)|
            && (forall i :: 0 <= i < |s.citations| ==> pack.evidence[i] == Evidence("policy.search", s.citations[i]))
            && (forall i :: 0 <= i < |NamedSteps(s.trace)| ==>
                  pack.evidence[|s.citations| + i] ==
                    Evidence(NamedSteps(s.trace)[i].toolName, "run_step:" + NamedSteps(s.trace)[i].toolName))
  {
    StepEvidenceShows(s.trace);
  }

  // ---------------------------------------- what the API and the card list

  lemma {:induction false} LabelsAll(evidence: seq<Evidence>)
    requires forall i :: 0 <= i < |evidence| ==> evidence[i].citation != ""
    ensures |Labels(evidence)| == |evidence|
    ensures forall i :: 0 <= i < |evidence| ==> Labels(evidence)[i] == evidence[i].citation
    decreases |evidence|
  {
    if evidence != [] {
      LabelsAll(evidence[..|evidence| - 1]);
    }
  }

  function StepLabels(trace: seq<TraceEntry>): seq<string> {
    seq(|NamedSteps(trace)|, i requires 0 <= i < |NamedSteps(trace)| => "run_step:" + NamedSteps(trace)[i].toolName)
  }

  lemma PackLabels(runId: string, action: string, role: string, s: RunState)
    requires forall i :: 0 <= i < |s.citations| ==> s.citations[i] != ""
    ensures Labels(BuildPack(runId, action, role, s).evidence) == s.citations + StepLabels(s.trace)
  {
    var evidence := BuildPack(runId, action, role, s).evidence;
    StepEvidenceShows(s.trace);
    LabelsAll(evidence);
  }

  lemma {:induction false} CitationsNotEmpty(cfg: Config, q: Request, d: Dispatcher, decisions: seq<Decision>)
    requires Play(cfg, q, d, decisions).Some?
    ensures forall c :: c in Play(cfg, q, d, decisions).value.citations ==> c != ""
  {
    var f := Play(cfg, q, d, decisions).value;
    forall c | c in f.citations ensures c != "" {
      RunCitesMatches(cfg, q, d, decisions, c);
      var n, k :| ReturnedAt(f.trace, d, n, k, c);
    }
  }

  /** Whatever its policy ids look like, the API's evidence lists a run's
      citations first and unchanged, and then its steps. */
  lemma {:induction false} ApiListsCitations(cfg: Config, q: Request, d: Dispatcher, decisions: seq<Decision>,
                                            runId: string, action: string, role: string, checkpointCitations: seq<string>)
    requires Play(cfg, q, d, decisions).Some?
    ensures var f := Play(cfg, q, d, decisions).value;
            var listed := ApiEvidence(BuildPack(runId, action, role, f), checkpointCitations);
            && f.citations <= listed
            && (f.citations != [] || NamedSteps(f.trace) != [] ==> listed == f.citations + StepLabels(f.trace))
  {
    CitationsNotEmpty(cfg, q, d, decisions);
    var f := Play(cfg, q, d, decisions).value;
    assert forall i :: 0 <= i < |f.citations| ==> f.citations[i] in f.citations;
    PackLabels(runId, action, role, f);
  }

  /** Match i of the policy search of step n is printed back unchanged. */
  ghost predicate MatchPrintsBack(d: Dispatcher, n: nat, i: nat) {
    var output := d("policy.search", NoArgs, n).output;
    && output.DictOutput? && i < |output.matches| && output.matches[i].MatchDict?
    && PrintsBack(OrEmpty(output.matches[i].policyId), OrEmpty(output.matches[i].clauseId))
  }

  /** So is every match that an executed policy search of the run got back. */
  ghost predicate AllPrintBack(trace: seq<TraceEntry>, d: Dispatcher) {
    forall n: nat, i: nat, c: string :: ReturnedAt(trace, d, n, i, c) ==> MatchPrintsBack(d, n, i)
  }

  lemma ReturnedPrintsBack(trace: seq<TraceEntry>, d: Dispatcher, n: nat, i: nat, c: string)
    requires ReturnedAt(trace, d, n, i, c)
    ensures Reprint(SplitCitation(c)) == c <==> MatchPrintsBack(d, n, i)
  {
    var m := d("policy.search", NoArgs, n).output.matches[i];
    CitationRoundTrip(OrEmpty(m.policyId), OrEmpty(m.clauseId));
  }

  lemma CardListsReprinted(runId: string, action: string, role: string, s: RunState, evidence: seq<string>)
    requires s.citations != []
    ensures CardLists(Some(BuildPack(runId, action, role, s)), evidence) == s.citations <==>
              forall c :: c in s.citations ==> Reprint(SplitCitation(c)) == c
  {
    var listed := CardLists(Some(BuildPack(runId, action, role, s)), evidence);
    assert |listed| == |s.citations| && forall i :: 0 <= i < |listed| ==> listed[i] == Reprint(SplitCitation(s.citations[i]));
  }

  /** The card lists the citations of a run that has any as they are, exactly
      when every match behind them is printed back unchanged. */
  lemma {:induction false} CardListsCitationsIff(cfg: Config, q: Request, d: Dispatcher, decisions: seq<Decision>,
                                                runId: string, action: string, role: string, evidence: seq<string>)
    requires Play(cfg, q, d, decisions).Some? && Play(cfg, q, d, decisions).value.citations != []
    ensures var f := Play(cfg, q, d, decisions).value;
            CardLists(Some(BuildPack(runId, action, role, f)), evidence) == f.citations <==> AllPrintBack(f.trace, d)
  {
    var f := Play(cfg, q, d, decisions).value;
    CardListsReprinted(runId, action, role, f, evidence);
    forall c | c in f.citations && AllPrintBack(f.trace, d) ensures Reprint(SplitCitation(c)) == c {
      RunCitesMatches(cfg, q, d, decisions, c);
      var n, i :| ReturnedAt(f.trace, d, n, i, c);
      ReturnedPrintsBack(f.trace, d, n, i, c);
    }
    forall n: nat, i: nat, c: string | ReturnedAt(f.trace, d, n, i, c)
      ensures c in f.citations && (Reprint(SplitCitation(c)) == c <==> MatchPrintsBack(d, n, i))
    {
      RunCitesMatches(cfg, q, d, decisions, c);
      ReturnedPrintsBack(f.trace, d, n, i, c);
    }
  }
}
