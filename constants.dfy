// Stage tables and thresholds (lib/constants.ts).

module Constants {
  import opened DealTypes

  /** STAGE_PROBABILITIES, with the engine's `?? 0` fallback for a stage the
      table does not list. */
  function Probability(s: Stage): (p: real)
    ensures 0.0 <= p <= 1.0
  {
    match s
    case Lead => 0.1
    case Qualification => 0.2
    case Discovery => 0.4
    case ProposalSent => 0.6
    case Negotiation => 0.8
    case ClosedWon => 1.0
    case ClosedLost => 0.0
    case Unknown(_) => 0.0
  }

  /** PIPELINE_STAGES: the funnel in order. */
  const PipelineStages: seq<Stage> :=
    [Lead, Qualification, Discovery, ProposalSent, Negotiation, ClosedWon, ClosedLost]

  /** OPEN_STAGES: the stages of a deal still in progress. */
  const OpenStages: seq<Stage> :=
    [Lead, Qualification, Discovery, ProposalSent, Negotiation]

  /** The defaults of the environment-supplied thresholds and horizons. */
  const ColdDealDays: int := 14
  const UnhandledLeadHours: int := 48
  const ForecastShort: int := 30
  const ForecastMid: int := 60
  const ForecastLong: int := 90

  /** Length of a day and of an hour in milliseconds (the date arithmetic of
      addDays, subDays and subHours, without calendar effects). */
  const DayMillis: int := 86_400_000
  const HourMillis: int := 3_600_000

  lemma TerminalProbabilities()
    ensures Probability(ClosedWon) == 1.0 && Probability(ClosedLost) == 0.0
    ensures forall n :: Probability(Unknown(n)) == 0.0
  {
  }

  /** Probability rises strictly along the open stages. */
  lemma ProbabilityIncreasesAlongFunnel()
    ensures forall i, j :: 0 <= i < j < |OpenStages| ==>
      Probability(OpenStages[i]) < Probability(OpenStages[j])
  {
  }

  /** The seven stages are listed once each, the known stages are exactly
      those listed, and OPEN_STAGES is the first five of them. */
  lemma StageListsShape()
    ensures |PipelineStages| == 7
    ensures forall i, j :: 0 <= i < j < |PipelineStages| ==> PipelineStages[i] != PipelineStages[j]
    ensures forall s: Stage :: s in PipelineStages <==> !s.Unknown?
    ensures OpenStages == PipelineStages[..5]
    ensures ClosedWon !in OpenStages && ClosedLost !in OpenStages
  {
  }

  lemma ThresholdDefaults()
    ensures ColdDealDays == 14 && UnhandledLeadHours == 48
    ensures 0 < ForecastShort < ForecastMid < ForecastLong
  {
  }
}
