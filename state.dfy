/** The state shared by a workflow's nodes, its schema, and the caller-side
    merge of a node's partial update into it. */
module State {
  import opened Values

  /** A state or an update: a Python dict from field names to values. */
  type Mapping = map<string, Value>

  const TicketIdKey: string := "ticket_id"
  const TicketDataKey: string := "ticket_data"
  const AnalysisKey: string := "analysis"
  const TicketSummaryKey: string := "ticket_summary"
  const ErrorKey: string := "error"

  /** The ticket-workflow state schema: `ticket_id` is a required string;
      `ticket_data` and `analysis` are optional dicts; `ticket_summary` and
      `error` are optional strings. Other keys may be present, as with any
      dict passed where the schema is expected. */
  predicate IsTicketState(state: Mapping) {
    && TicketIdKey in state && state[TicketIdKey].Str?
    && (TicketDataKey in state ==> state[TicketDataKey].Dict?)
    && (AnalysisKey in state ==> state[AnalysisKey].Dict?)
    && (TicketSummaryKey in state ==> state[TicketSummaryKey].Str?)
    && (ErrorKey in state ==> state[ErrorKey].Str?)
  }

  /** `state.update(updates)`: a shallow merge in which every key of the
      update overrides, and every other key of the state is kept. */
  function Merge(state: Mapping, update: Mapping): (r: Mapping)
    ensures r.Keys == state.Keys + update.Keys
    ensures forall k :: k in update ==> r[k] == update[k]
    ensures forall k :: k in state && k !in update ==> r[k] == state[k]
  {
    state + update
  }

  /** An update that does not touch `ticket_id`, whose `ticket_data`,
      `analysis`, `ticket_summary` and `error` entries have the schema's
      types, keeps a well-formed state well-formed and its `ticket_id`
      unchanged. */
  lemma MergeKeepsSchema(state: Mapping, update: Mapping)
    requires IsTicketState(state)
    requires TicketIdKey !in update
    requires TicketDataKey in update ==> update[TicketDataKey].Dict?
    requires AnalysisKey in update ==> update[AnalysisKey].Dict?
    requires TicketSummaryKey in update ==> update[TicketSummaryKey].Str?
    requires ErrorKey in update ==> update[ErrorKey].Str?
    ensures IsTicketState(Merge(state, update))
    ensures Merge(state, update)[TicketIdKey] == state[TicketIdKey]
  {
  }
}
