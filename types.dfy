/** The records and closed unions declared in src/types/index.ts. */
module Types {
  import opened Wrappers

  /** The provider names the assistant knows. */
  datatype ProviderName = Cloudflare | Aws | Gcp | MultiCloud

  /** The string form of a provider name. */
  function ProviderTag(p: ProviderName): string {
    match p
    case Cloudflare => "cloudflare"
    case Aws => "aws"
    case Gcp => "gcp"
    case MultiCloud => "multi-cloud"
  }

  /** Reads a provider name; `None` for any string outside the closed set. */
  function ParseProvider(s: string): (r: Option<ProviderName>)
    ensures r.Some? ==> ProviderTag(r.value) == s
    ensures r.None? ==> forall p: ProviderName :: ProviderTag(p) != s
  {
    if s == "cloudflare" then Some(Cloudflare)
    else if s == "aws" then Some(Aws)
    else if s == "gcp" then Some(Gcp)
    else if s == "multi-cloud" then Some(MultiCloud)
    else None
  }

  lemma ProviderTagRoundTrip(p: ProviderName)
    ensures ParseProvider(ProviderTag(p)) == Some(p)
  {
  }

  /** The resource kinds the assistant knows. */
  datatype ResourceKind =
    | CfWorker | CfVectorize | CfKv
    | AwsLambda | AwsSqs | AwsDynamodb
    | GcpCloudRun | GcpPubsub | GcpFirestore
    | DockerService

  /** The string form of a resource kind. */
  function KindTag(k: ResourceKind): string {
    match k
    case CfWorker => "cf_worker"
    case CfVectorize => "cf_vectorize"
    case CfKv => "cf_kv"
    case AwsLambda => "aws_lambda"
    case AwsSqs => "aws_sqs"
    case AwsDynamodb => "aws_dynamodb"
    case GcpCloudRun => "gcp_cloud_run"
    case GcpPubsub => "gcp_pubsub"
    case GcpFirestore => "gcp_firestore"
    case DockerService => "docker_service"
  }

  /** Reads a resource kind; `None` for any string outside the closed set. */
  function ParseKind(s: string): (r: Option<ResourceKind>)
    ensures r.Some? ==> KindTag(r.value) == s
    ensures r.None? ==> forall k: ResourceKind :: KindTag(k) != s
  {
    if s == "cf_worker" then Some(CfWorker)
    else if s == "cf_vectorize" then Some(CfVectorize)
    else if s == "cf_kv" then Some(CfKv)
    else if s == "aws_lambda" then Some(AwsLambda)
    else if s == "aws_sqs" then Some(AwsSqs)
    else if s == "aws_dynamodb" then Some(AwsDynamodb)
    else if s == "gcp_cloud_run" then Some(GcpCloudRun)
    else if s == "gcp_pubsub" then Some(GcpPubsub)
    else if s == "gcp_firestore" then Some(GcpFirestore)
    else if s == "docker_service" then Some(DockerService)
    else None
  }

  lemma KindTagRoundTrip(k: ResourceKind)
    ensures ParseKind(KindTag(k)) == Some(k)
  {
  }

  datatype LatencySensitivity = Low | Medium | High
  datatype DataResidency = US | EU | Global
  datatype Sensitivity = Cost | Performance | Scalability
  datatype Complexity = Simple | Moderate | Complex
  datatype Style = Monolithic | Microservices | Serverless

  /** A fully populated workload description: all nine fields are always there.
      The two counts are JavaScript numbers, which nothing here computes with. */
  datatype WorkloadRequirements = WorkloadRequirements(
    title: string,
    description: string,
    monthlyRequests: real,
    dataPerRequestKB: real,
    latencySensitivity: LatencySensitivity,
    dataResidency: DataResidency,
    sensitivity: Sensitivity,
    complexity: Complexity,
    style: Style)

  /** An arbitrary JSON value, standing for the `unknown` values of a component's configuration. */
  datatype Json =
    | JNull
    | JBool(b: bool)
    | JNumber(n: real)
    | JString(s: string)
    | JArray(items: seq<Json>)
    | JObject(fields: map<string, Json>)

  /** One resource of an architecture. `kind` and `provider` are declared as
      closed unions but arrive as any string from the generator, so they are
      kept as strings; `IsTyped` says when they are members of those unions. */
  datatype ArchitectureComponent = ArchitectureComponent(
    id: string,
    kind: string,
    provider: string,
    name: string,
    config: map<string, Json>)

  predicate IsTyped(c: ArchitectureComponent) {
    ParseKind(c.kind).Some? && ParseProvider(c.provider).Some?
  }

  /** One candidate architecture: an ordered list of components. */
  datatype ArchitectureOption = ArchitectureOption(
    id: string,
    name: string,
    summary: string,
    components: seq<ArchitectureComponent>)

  /** The four steps of the workflow. */
  datatype ProjectPhase = CollectingRequirements | GeneratingArchitectures | AwaitingChoice | ReadyForIac

  /** The string form of a phase. */
  function PhaseTag(p: ProjectPhase): string {
    match p
    case CollectingRequirements => "collecting-requirements"
    case GeneratingArchitectures => "generating-architectures"
    case AwaitingChoice => "awaiting-choice"
    case ReadyForIac => "ready-for-iac"
  }

  /** Reads a phase; `None` for any other string. */
  function ParsePhase(s: string): (r: Option<ProjectPhase>)
    ensures r.Some? ==> PhaseTag(r.value) == s
    ensures r.None? ==> forall p: ProjectPhase :: PhaseTag(p) != s
  {
    if s == "collecting-requirements" then Some(CollectingRequirements)
    else if s == "generating-architectures" then Some(GeneratingArchitectures)
    else if s == "awaiting-choice" then Some(AwaitingChoice)
    else if s == "ready-for-iac" then Some(ReadyForIac)
    else None
  }

  lemma PhaseTagRoundTrip(p: ProjectPhase)
    ensures ParsePhase(PhaseTag(p)) == Some(p)
  {
  }

  /** The per-session project record. `requirements` and `selectedArchitectureId`
      may be absent; `architectures` is always an ordered, possibly empty, list. */
  datatype ProjectState = ProjectState(
    requirements: Option<WorkloadRequirements>,
    architectures: seq<ArchitectureOption>,
    selectedArchitectureId: Option<string>,
    phase: ProjectPhase)
}
