/** Values shared by every component: outcomes, identifiers, risk, taint and budgets. */
module Protocol {

  datatype Option<+T> = None | Some(value: T)

  /** An operation's outcome, usable with `:-`. */
  datatype Result<+T, +E> = Ok(value: T) | Err(error: E) {
    predicate IsFailure() { Err? }

    function PropagateFailure<U>(): (r: Result<U, E>)
      requires Err?
    {
      Err(error)
    }

    function Extract(): T
      requires Ok?
    {
      value
    }
  }

  function MaxNat(a: nat, b: nat): nat { if a < b then b else a }

  function Sum(xs: seq<nat>): nat
  {
    if xs == [] then 0 else Sum(xs[..|xs| - 1]) + xs[|xs| - 1]
  }

  lemma SumSnoc(xs: seq<nat>, x: nat)
    ensures Sum(xs + [x]) == Sum(xs) + x
  {
    assert (xs + [x])[..|xs|] == xs;
  }

  datatype RunId = RunId(text: string)
  type ToolId = string
  type BlobRef = string

  // Where a block of a model's context comes from, and the name it is cited by: its turn, its kind
  // and the beginning of its content's hash.
  datatype BlockSource = UserIntent | ClarificationAnswer | ToolOutput
  datatype CiteId = CiteId(turn: nat, source: BlockSource, short: string)

  // The runtime names an effect, an approval or a question after the sequence number of
  // the last event it had written ("<run>-e7", "<run>-a9", "<run>-q4"). Within one run the
  // text is that number, so the number stands for it here.
  datatype EffectId = EffectId(at: nat)
  datatype ApprovalId = ApprovalId(at: nat)
  datatype QuestionId = QuestionId(at: nat)
  datatype ArtifactId = ArtifactId(at: nat)

  datatype Actor = Kernel | Runtime | Gateway | Executor | Human(name: string) | Trigger(reference: string)

  datatype TaintLevel = Clean | Tainted {
    function Join(other: TaintLevel): TaintLevel
    {
      if this == Tainted || other == Tainted then Tainted else Clean
    }
  }

  datatype RiskLevel = L1 | L2 | L3 {
    function Rank(): nat
    {
      match this
      case L1 => 1
      case L2 => 2
      case L3 => 3
    }

    function Max(other: RiskLevel): RiskLevel
    {
      if Rank() < other.Rank() then other else this
    }
  }

  datatype EffectClass = Read | Write | External | Compute {
    predicate SuppressedInDryRun() { Write? || External? }
  }

  datatype ExecutionMode = Live | DryRun

  datatype ResourceOp = OpRead | OpCreate | OpUpdate | OpDelete
  datatype ResourceRef = ResourceRef(kind: string, id: string)
  datatype EgressRef = EgressRef(host: string, port: Option<nat>)

  datatype CapabilityToken = CapabilityToken(subject: string, scopes: seq<string>) {
    predicate Allows(tool: ToolId) { exists s :: s in scopes && (s == "*" || s == tool) }
  }

  // An absent limit means "no limit", never zero.
  datatype BudgetSpec = BudgetSpec(
    maxTokens: Option<nat>, maxAmountMicros: Option<nat>, maxWallSeconds: Option<nat>)

  datatype BudgetUsage = BudgetUsage(tokens: nat, amountMicros: nat, wallMs: nat)

  const UNLIMITED := BudgetSpec(None, None, None)
  const UNUSED := BudgetUsage(0, 0, 0)

  datatype PlanIntent = ToolCall | Clarify | Finish
  datatype PlannedCall = PlannedCall(tool: ToolId, paramsRef: BlobRef)
  datatype PlannedClarification = PlannedClarification(promptRef: BlobRef, options: seq<string>)

  datatype Plan = Plan(
    turn: nat, intent: PlanIntent, taintInherited: TaintLevel,
    call: Option<PlannedCall>, clarification: Option<PlannedClarification>)
}
