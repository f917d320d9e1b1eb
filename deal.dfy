// The Deal record and the pipeline-stage type (types/deal.ts).

module DealTypes {

  /** A pipeline stage. The seven named stages are those of the `PipelineStage`
      union; `Unknown` carries any other text that the CSV row held, since the
      parser casts the raw string without validating it. */
  datatype Stage =
    | Lead
    | Qualification
    | Discovery
    | ProposalSent
    | Negotiation
    | ClosedWon
    | ClosedLost
    | Unknown(name: string)

  /** The text by which a stage is written in a CSV file and in the source. */
  function StageName(s: Stage): string {
    match s
    case Lead => "Lead"
    case Qualification => "Qualification"
    case Discovery => "Discovery"
    case ProposalSent => "Proposal Sent"
    case Negotiation => "Negotiation"
    case ClosedWon => "Closed Won"
    case ClosedLost => "Closed Lost"
    case Unknown(n) => n
  }

  predicate IsKnownName(t: string) {
    t == "Lead" || t == "Qualification" || t == "Discovery" || t == "Proposal Sent"
    || t == "Negotiation" || t == "Closed Won" || t == "Closed Lost"
  }

  /** A stage value is canonical when an `Unknown` arm never spells a known stage:
      then stage equality is exactly the source's string equality. */
  predicate IsCanonical(s: Stage) {
    s.Unknown? ==> !IsKnownName(s.name)
  }

  /** The stages a deal can hold: an `Unknown` stage never spells one of the
      seven names, so a deal's stage compares as its text does. */
  type CanonicalStage = s: Stage | IsCanonical(s) witness Lead

  /** The `as PipelineStage` cast: a known name becomes its stage, anything else
      is kept verbatim. */
  function ParseStage(t: string): (s: Stage)
    ensures IsCanonical(s)
    ensures s.Unknown? <==> !IsKnownName(t)
  {
    if t == "Lead" then Lead
    else if t == "Qualification" then Qualification
    else if t == "Discovery" then Discovery
    else if t == "Proposal Sent" then ProposalSent
    else if t == "Negotiation" then Negotiation
    else if t == "Closed Won" then ClosedWon
    else if t == "Closed Lost" then ClosedLost
    else Unknown(t)
  }

  /** The cast loses nothing: the stage spells the text it was parsed from. */
  lemma ParseStageLossless(t: string)
    ensures StageName(ParseStage(t)) == t
  {
  }

  /** For canonical stages, comparing stages is comparing their names. */
  lemma {:induction false} StageNameInjective(s1: Stage, s2: Stage)
    requires IsCanonical(s1) && IsCanonical(s2)
    ensures StageName(s1) == StageName(s2) <==> s1 == s2
  {
  }

  lemma ParseStageOfName(s: Stage)
    requires IsCanonical(s)
    ensures ParseStage(StageName(s)) == s
  {
  }

  /** Timestamps are milliseconds since the epoch. */
  type Millis = int

  /** One sales lead or opportunity (types/deal.ts, interface Deal). */
  datatype Deal = Deal(
    id: string,
    createdDate: Millis,
    firstName: string,
    lastName: string,
    email: string,
    company: string,
    industry: string,
    companySize: string,
    country: string,
    leadSource: string,
    status: string,
    owner: string,
    dealValue: real,
    pipelineStage: CanonicalStage,
    lastContactDate: Millis,
    nextFollowupDate: Millis,
    tags: seq<string>
  )
}
