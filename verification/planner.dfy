/** The plan schema the tool selector consumes. The planner itself is a
    language-model call; only the shape of its output is modelled. */
module Planner {
  import opened Wrappers

  /** `Literal["gsc", "dataforseo", "both", "none"]` */
  datatype Server = Gsc | DataForSeo | Both | NoServer

  /** One atomic step of a plan. */
  datatype PlanStep = PlanStep(
    id: int,
    goal: string,
    server: Server,
    categories: seq<string>,
    requiredInputs: seq<string>,
    notes: Option<string>)

  /** The full plan for one user query. */
  datatype QueryPlan = QueryPlan(originalQuery: string, summary: string, steps: seq<PlanStep>)
}
