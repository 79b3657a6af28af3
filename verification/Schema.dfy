/** The immutable records that workers exchange through the shared environment. */
module Schema {

  datatype Option<+T> = None | Some(value: T)

  datatype Result<+T, +E> = Success(value: T) | Failure(error: E)

  type Id = string

  predicate IsProbability(x: real) {
    0.0 <= x <= 1.0
  }

  /** A truth value as a number. */
  function Indicator(b: bool): real {
    if b then 1.0 else 0.0
  }

  /** In the order of the four names, which is the order that ties between directions are broken by. */
  datatype Direction = DOWN | FLAT | NO_SIGNAL | UP {
    function Rank(): nat {
      match this
      case DOWN => 0
      case FLAT => 1
      case NO_SIGNAL => 2
      case UP => 3
    }
  }

  datatype ArtifactType =
    | PREDICTION | EVIDENCE | COUNTER_EVIDENCE | MARKET_OBSERVATION | TECHNOLOGY_SIGNAL | COMPANY_SIGNAL
    | ANOMALY | STRATEGY | CRITIQUE | VALIDATION | OUTCOME | COMMERCIAL_PRODUCT

  datatype ArtifactStatus =
    | ACTIVE | VALIDATED | REJECTED | FAILED | INVALIDATED | EVALUATED | COMMERCIALIZED | ARCHIVED

  datatype PredictionFields = PredictionFields(
    expectedDirection: Direction,
    expectedMagnitude: real,
    evaluationAt: int)

  /**
   * The cost and token count are read from free metadata, zero when absent and `None` when they cannot be read as numbers;
   * `body` stands for the text and JSON fields that no modelled operation inspects.
   */
  datatype Artifact = Artifact(
    id: Id,
    createdAt: int,
    workerId: Id,
    kind: ArtifactType,
    subject: string,
    sourceRefs: seq<string>,
    confidence: real,
    parentArtifacts: seq<Id>,
    derivedFrom: seq<Id>,
    status: ArtifactStatus,
    prediction: Option<PredictionFields>,
    inferenceCost: Option<real>,
    inferenceTokens: Option<int>,
    body: string)
  {
    /** Parent references followed by derivation references. */
    function Lineage(): seq<Id> {
      parentArtifacts + derivedFrom
    }

    function PredictedDirection(): Option<Direction> {
      if kind == PREDICTION && prediction.Some? then Some(prediction.value.expectedDirection) else None
    }
  }
}
