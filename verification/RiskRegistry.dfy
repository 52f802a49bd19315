/** The risk registry: a lookup that denies unknown tools. */
module RiskRegistry {
  import opened Prelude

  datatype Tier = ReadOnly | Financial | Destructive

  datatype ToolPolicy = ToolPolicy(tier: Tier, approverRole: Option<string>)

  type Registry = map<string, ToolPolicy>

  /** None stands for the KeyError of an unknown tool. */
  function RequireTool(reg: Registry, tool: string): Option<ToolPolicy> {
    if tool in reg then Some(reg[tool]) else None
  }

  predicate GatedTier(tier: Tier) {
    tier == Financial || tier == Destructive
  }

  /** The tool is known and may only run after a human decision. */
  predicate Gated(reg: Registry, tool: string) {
    tool in reg && GatedTier(reg[tool].tier)
  }
}
