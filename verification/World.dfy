/** The simulated world, the experiment configuration and the draft events a tick emits. */
module World {
  import opened Wrappers

  type AgentId = nat

  datatype SecurityState = Healthy | Suspicious | Compromised | Quarantined | Recovered

  datatype Agent = Agent(
    softwareType: nat,
    state: SecurityState,
    neighbors: set<AgentId>,
    compromisedBy: Option<AgentId>,
    tickCompromised: Option<nat>,
    isReal: bool)

  /** Ids of the typed security graph. Each kind has its own id prefix in the program. */
  datatype NodeId =
    | AgentNode(agent: AgentId)
    | ToolNode(index: nat)
    | CredentialNode(index: nat)
    | ResourceNode(index: nat)
    | SentinelNode(index: nat)
    | ControlNode(kind: ControlKind)

  datatype ControlKind = TrustManager | ThreatMemory | AttestationService | QuarantineAuthority

  datatype World = World(
    tick: nat,
    nodes: map<AgentId, Agent>,
    edges: set<(AgentId, AgentId)>,
    compromisedGraph: set<NodeId>)

  datatype ScenarioName =
    | Propagation
    | AdaptiveAttacker
    | SentinelCompromise
    | Attestation
    | ByzantineCollusion
    | PromptInjection
    | UnknownScenario(name: string)

  /** One key per draw site of `rng(seed, tick, id, purpose)`. */
  datatype DrawKey =
    | InfectDraw(source: AgentId, target: AgentId)
    | AdaptiveDraw(source: AgentId, target: AgentId)
    | DetectDraw(agent: AgentId)
    | FalseQuarantineDraw(agent: AgentId)
    | SentinelDraw(sentinel: nat)
    | CollusionDraw(credential: nat, source: AgentId, accomplice: AgentId)
    | AttestationDraw(agent: AgentId)

  datatype PickKey = InitialCompromise | CredentialHolder(credential: nat)

  /** The seed is absorbed into `draw`, `pick` and `toolAccess`: arbitrary functions, so
      every theorem holds for every seed and every generator. */
  datatype Config = Config(
    draw: (nat, DrawKey) -> real,
    pick: PickKey -> nat,
    toolAccess: nat -> set<AgentId>,
    softwareTypeCount: nat,
    pSame: real,
    pCross: real,
    maxTicks: nat,
    detectorSensitivity: real,
    defenseEnabled: bool,
    randomInitial: bool,
    realAgentCount: nat,
    toolCount: nat,
    credentialCount: nat,
    resourceCount: nat,
    sentinelCount: nat,
    activeScenarios: seq<ScenarioName>,
    adaptiveDetectionThreshold: real,
    falseQuarantineRate: real,
    sentinelCompromiseRate: real,
    attestationReplayRate: real,
    byzantineCollusionRate: real)

  datatype DraftKind =
    | ExperimentStarted
    | ExperimentStopped
    | AgentCreated(agent: AgentId, softwareType: nat)
    | CompromiseAttempted(source: AgentId, target: AgentId, probability: real)
    | CompromiseSucceeded(attacker: Option<AgentId>, target: AgentId, alreadyCompromised: bool)
    | CompromiseFailed(source: AgentId, target: AgentId, gatewayError: bool)
    | AnomalyDetected(agent: AgentId)
    | AgentQuarantined(agent: AgentId, legitimate: bool)
    | PolicyViolation(subject: NodeId, colluders: Option<(AgentId, AgentId)>)
    | ThreatSignaturePublished(sentinel: nat)
    | AttestationIssued(agent: AgentId, nonce: nat)
    | AttestationVerified(agent: AgentId, nonce: nat, replayed: bool)
    | ModelRequested(source: AgentId, target: AgentId)
    | ModelResponded(target: AgentId)
    | ToolExecuted(target: AgentId)

  datatype Draft = Draft(tick: nat, kind: DraftKind)

  datatype StepResult = StepResult(world: World, drafts: seq<Draft>)

  /** Communication edges and neighbour sets describe the same symmetric relation. */
  ghost predicate WellFormed(w: World) {
    && (forall a, b | a in w.nodes && b in w.nodes[a].neighbors :: b in w.nodes && a in w.nodes[b].neighbors)
    && (forall e | e in w.edges :: e.0 in w.nodes && e.1 in w.nodes[e.0].neighbors)
    && (forall a, b | a in w.nodes && b in w.nodes[a].neighbors :: (a, b) in w.edges || (b, a) in w.edges)
  }

  function CompromisedAgents(w: World): (s: set<AgentId>)
    ensures forall a :: a in s <==> a in w.nodes && w.nodes[a].state == Compromised
  {
    set a | a in w.nodes && w.nodes[a].state == Compromised
  }

  function HealthyAgents(w: World): (s: set<AgentId>)
    ensures forall a :: a in s <==> a in w.nodes && w.nodes[a].state == Healthy
  {
    set a | a in w.nodes && w.nodes[a].state == Healthy
  }

  /** Agents a compromise has ever landed on: quarantine keeps the record. */
  function EverCompromised(w: World): (s: set<AgentId>)
    ensures forall a :: a in s <==> a in w.nodes && w.nodes[a].tickCompromised.Some?
  {
    set a | a in w.nodes && w.nodes[a].tickCompromised.Some?
  }

  function QuarantinedAgents(w: World): (s: set<AgentId>)
    ensures forall a :: a in s <==> a in w.nodes && w.nodes[a].state == Quarantined
  {
    set a | a in w.nodes && w.nodes[a].state == Quarantined
  }

  function HealthyNeighbors(w: World, a: AgentId): (s: set<AgentId>)
    requires a in w.nodes
    ensures forall t :: t in s <==> t in w.nodes[a].neighbors && t in w.nodes && w.nodes[t].state == Healthy
  {
    set t | t in w.nodes[a].neighbors && t in w.nodes && w.nodes[t].state == Healthy
  }

  function Probability(w: World, cfg: Config, source: AgentId, target: AgentId): real
    requires source in w.nodes && target in w.nodes
  {
    if w.nodes[source].softwareType == w.nodes[target].softwareType then cfg.pSame else cfg.pCross
  }
}
