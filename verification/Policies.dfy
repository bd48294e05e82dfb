/** The parsed policy (internal/policy/types.go). */
module Policies {
  import opened Prelude

  /** An unset mode is neither "shadow" nor "block"; the pipeline treats it as blocking. */
  datatype Mode = Unset | Shadow | Block

  /** maxCost is in thousandths of a dollar. */
  datatype Budget = Budget(maxCalls: int, maxCost: int)

  datatype PriorN = PriorN(tool: string, count: int)

  datatype Sequencing = Sequencing(onlyAfter: seq<string>, neverAfter: seq<string>, prior: Option<PriorN>)

  datatype Taint = Taint(applies: bool, clears: bool)

  /** A floating-point number; rounding is not modelled. */
  datatype Float = NaN | NegativeInfinity | Finite(r: real) | PositiveInfinity

  /** a < b, which is false when either is not a number. */
  predicate LessThan(a: Float, b: Float) {
    match (a, b)
    case (NaN, _) => false
    case (_, NaN) => false
    case (NegativeInfinity, _) => b != NegativeInfinity
    case (_, PositiveInfinity) => a != PositiveInfinity
    case (Finite(x), Finite(y)) => x < y
    case (_, _) => false
  }

  /** a == b, which is false when either is not a number. */
  predicate EqualTo(a: Float, b: Float) {
    !a.NaN? && a == b
  }

  datatype Threshold = Number(n: Float) | Text(s: string)

  /** The operators of escalate_when; any other operator string is an Unsupported one. */
  datatype Operator =
    | Greater | Less | AtLeast | AtMost | Equal | NotEqual
    | Contains | Matches
    | Unsupported(name: string)

  datatype EscalateRule = EscalateRule(path: string, operator: Operator, threshold: Threshold)

  /** The operators of never_when. */
  datatype Test = IsExternal | ContainsPattern | Equals | NotEquals | UnsupportedTest(name: string)

  datatype ContentPredicate = ContentPredicate(argument: string, test: Test, value: string)

  /** never_when_match: absent and "any" mean Any. */
  datatype MatchMode = Any | All | UnsupportedMode(name: string)

  datatype RateLimit = RateLimit(maxCalls: int, windowSeconds: int)

  datatype ToolPolicy = ToolPolicy(
    mode: Mode,
    sequencing: Sequencing,
    taint: Taint,
    escalateWhen: Option<EscalateRule>,
    neverWhen: seq<ContentPredicate>,
    neverWhenMatch: MatchMode,
    rateLimit: Option<RateLimit>)

  datatype Policy = Policy(
    fingerprint: string,
    mode: Mode,
    requireEnv: string,
    budget: Budget,
    mayUse: seq<string>,
    tools: map<string, ToolPolicy>)

  /** The enforcement mode of a tool: the tool's own when set, the policy's otherwise. */
  function EffectiveMode(pol: Policy, tool: string): Mode {
    if tool in pol.tools && pol.tools[tool].mode != Unset then pol.tools[tool].mode else pol.mode
  }

  /** Violations of this tool's rules are blocked, not merely observed. */
  predicate Blocks(pol: Policy, tool: string) {
    EffectiveMode(pol, tool) != Shadow
  }

  /** The tools whose permitted calls set the session's taint flag. */
  function TaintSources(pol: Policy): set<string> {
    set t | t in pol.tools && pol.tools[t].taint.applies
  }

  function OnlyAfter(pol: Policy, tool: string): seq<string> {
    if tool in pol.tools then pol.tools[tool].sequencing.onlyAfter else []
  }

  function NeverAfter(pol: Policy, tool: string): seq<string> {
    if tool in pol.tools then pol.tools[tool].sequencing.neverAfter else []
  }
}
