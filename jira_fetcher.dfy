/** The deterministic ticket-lookup node: a mock ticket source (a fixed
    two-entry table with a templated fallback) and the node that reads
    `ticket_id` from the state and returns a one-key update. */
module JiraFetcher {
  import opened Values
  import opened State

  /** A fetched ticket: the seven string fields of its dict. */
  datatype Ticket = Ticket(
    key: string,
    summary: string,
    description: string,
    status: string,
    priority: string,
    assignee: string,
    created: string)

  /** The names of a ticket dict's fields. */
  const TicketFieldNames: set<string> :=
    {"key", "summary", "description", "status", "priority", "assignee", "created"}

  /** The dict a ticket is stored as under `ticket_data`. */
  function TicketToDict(t: Ticket): (d: Mapping)
    ensures d.Keys == TicketFieldNames
    ensures forall k :: k in d ==> d[k].Str?
  {
    map[
      "key" := Str(t.key),
      "summary" := Str(t.summary),
      "description" := Str(t.description),
      "status" := Str(t.status),
      "priority" := Str(t.priority),
      "assignee" := Str(t.assignee),
      "created" := Str(t.created)]
  }

  /** Reads a ticket back from a dict: `None` unless all seven fields are
      present and hold strings. */
  function TicketFromDict(d: Mapping): Option<Ticket> {
    if forall k :: k in TicketFieldNames ==> k in d && d[k].Str? then
      Some(Ticket(d["key"].s, d["summary"].s, d["description"].s, d["status"].s,
                  d["priority"].s, d["assignee"].s, d["created"].s))
    else
      None
  }

  /** A ticket survives being stored as a dict and read back. */
  lemma TicketDictRoundTrip(t: Ticket)
    ensures TicketFromDict(TicketToDict(t)) == Some(t)
  {
  }

  /** A dict that reads back as a ticket holds exactly that ticket's fields
      (and possibly others). */
  lemma TicketFromDictSound(d: Mapping, t: Ticket)
    requires TicketFromDict(d) == Some(t)
    ensures forall k :: k in TicketToDict(t) ==> k in d && d[k] == TicketToDict(t)[k]
  {
  }

  /** The fixed table of known tickets. */
  const MockTickets: map<string, Ticket> := map[
    "PROJ-123" := Ticket(
      "PROJ-123",
      "Add user authentication to login page",
      "Users need to be able to log in with username and password. Should validate credentials against database.",
      "In Progress",
      "High",
      "john.doe",
      "2025-01-15T10:30:00Z"),
    "PROJ-456" := Ticket(
      "PROJ-456",
      "Fix broken search functionality",
      "Search returns no results even when data exists. Appears to be a query bug.",
      "Open",
      "Critical",
      "jane.smith",
      "2025-01-20T14:15:00Z")]

  /** The generic record returned for an identifier the table lacks. */
  function FallbackTicket(ticketId: string): Ticket {
    Ticket(
      ticketId,
      "Mock ticket " + ticketId,
      "This is a mock ticket for testing purposes.",
      "Open",
      "Medium",
      "unassigned",
      "2025-01-01T00:00:00Z")
  }

  /** The mock ticket source: the table entry for a known identifier, the
      fallback record otherwise. It is total and the record's key is always
      the identifier asked for. */
  function MockFetchFromJira(ticketId: string): (t: Ticket)
    ensures t.key == ticketId
    ensures ticketId in MockTickets ==> t == MockTickets[ticketId]
  {
    if ticketId in MockTickets then MockTickets[ticketId] else FallbackTicket(ticketId)
  }

  lemma MockFetchProj123()
    ensures MockFetchFromJira("PROJ-123") == Ticket(
      "PROJ-123",
      "Add user authentication to login page",
      "Users need to be able to log in with username and password. Should validate credentials against database.",
      "In Progress",
      "High",
      "john.doe",
      "2025-01-15T10:30:00Z")
  {
  }

  lemma MockFetchProj456()
    ensures MockFetchFromJira("PROJ-456") == Ticket(
      "PROJ-456",
      "Fix broken search functionality",
      "Search returns no results even when data exists. Appears to be a query bug.",
      "Open",
      "Critical",
      "jane.smith",
      "2025-01-20T14:15:00Z")
  {
  }

  /** Every identifier other than the two known ones gets the templated
      record, with fixed placeholders for all fields but key and summary. */
  lemma MockFetchFallback(ticketId: string)
    requires ticketId != "PROJ-123" && ticketId != "PROJ-456"
    ensures MockFetchFromJira(ticketId).key == ticketId
    ensures MockFetchFromJira(ticketId).summary == "Mock ticket " + ticketId
    ensures MockFetchFromJira(ticketId).description == "This is a mock ticket for testing purposes."
    ensures MockFetchFromJira(ticketId).status == "Open"
    ensures MockFetchFromJira(ticketId).priority == "Medium"
    ensures MockFetchFromJira(ticketId).assignee == "unassigned"
    ensures MockFetchFromJira(ticketId).created == "2025-01-01T00:00:00Z"
  {
  }

  /** A fallback record's summary contains both "Mock ticket" and the
      identifier itself. */
  lemma FallbackSummaryMentions(ticketId: string)
    requires ticketId !in MockTickets
    ensures Contains(MockFetchFromJira(ticketId).summary, "Mock ticket")
    ensures Contains(MockFetchFromJira(ticketId).summary, ticketId)
  {
    ContainsSuffix("Mock ticket ", ticketId);
  }

  /** What a ticket source does when asked for an identifier: return a
      record, or raise an exception whose text is `message`. */
  datatype Lookup = Returned(record: Mapping) | Raised(message: string)

  /** The mock source seen as a ticket source: it always returns. */
  function MockLookup(ticketId: string): (l: Lookup)
    ensures l.Returned? && TicketFromDict(l.record) == Some(MockFetchFromJira(ticketId))
  {
    TicketDictRoundTrip(MockFetchFromJira(ticketId));
    Returned(TicketToDict(MockFetchFromJira(ticketId)))
  }

  /** The text of the `error` update for an identifier whose lookup raised. */
  function FailureMessage(ticketId: string, message: string): string {
    "Failed to fetch ticket " + ticketId + ": " + message
  }

  /** The node: reads the required `ticket_id`, asks the ticket source, and
      returns an update with exactly one key — `ticket_data` holding the
      record, or `error` holding the failure message. */
  function FetchJiraTicket(state: Mapping, lookup: string -> Lookup): (u: Mapping)
    requires TicketIdKey in state && state[TicketIdKey].Str?
    ensures u.Keys == {TicketDataKey} || u.Keys == {ErrorKey}
    ensures TicketDataKey in u <==> lookup(state[TicketIdKey].s).Returned?
    ensures TicketDataKey in u ==> u[TicketDataKey] == Dict(lookup(state[TicketIdKey].s).record)
    ensures ErrorKey in u ==>
      u[ErrorKey] == Str(FailureMessage(state[TicketIdKey].s, lookup(state[TicketIdKey].s).message))
  {
    var ticketId := state[TicketIdKey].s;
    match lookup(ticketId)
    case Returned(record) => map[TicketDataKey := Dict(record)]
    case Raised(message) => map[ErrorKey := Str(FailureMessage(ticketId, message))]
  }

  /** The update depends on nothing in the state but `ticket_id`. */
  lemma FetchReadsOnlyTicketId(s1: Mapping, s2: Mapping, lookup: string -> Lookup)
    requires TicketIdKey in s1 && s1[TicketIdKey].Str?
    requires TicketIdKey in s2 && s2[TicketIdKey] == s1[TicketIdKey]
    ensures FetchJiraTicket(s1, lookup) == FetchJiraTicket(s2, lookup)
  {
  }

  /** With the mock source the node never reports an error: its update is
      `ticket_data` alone, holding the mock record for the state's id. */
  lemma MockFetchNeverFails(state: Mapping)
    requires TicketIdKey in state && state[TicketIdKey].Str?
    ensures FetchJiraTicket(state, MockLookup).Keys == {TicketDataKey}
    ensures FetchJiraTicket(state, MockLookup)[TicketDataKey].Dict?
    ensures TicketFromDict(FetchJiraTicket(state, MockLookup)[TicketDataKey].entries)
      == Some(MockFetchFromJira(state[TicketIdKey].s))
    ensures FetchJiraTicket(state, MockLookup)[TicketDataKey].entries["key"] == state[TicketIdKey]
  {
  }

  /** The caller's step: run the node and merge its update into the state. */
  function RunFetcher(state: Mapping, lookup: string -> Lookup): (r: Mapping)
    requires TicketIdKey in state && state[TicketIdKey].Str?
    ensures state.Keys <= r.Keys
  {
    Merge(state, FetchJiraTicket(state, lookup))
  }

  /** After the merge `ticket_id` and every field the node did not write
      (a stale `error` beside a fresh `ticket_data` included) are as before,
      and exactly one of `ticket_data` and `error` may be new. */
  lemma RunFetcherPreservesState(state: Mapping, lookup: string -> Lookup)
    requires TicketIdKey in state && state[TicketIdKey].Str?
    ensures RunFetcher(state, lookup)[TicketIdKey] == state[TicketIdKey]
    ensures forall k :: k in state && k !in FetchJiraTicket(state, lookup) ==>
      RunFetcher(state, lookup)[k] == state[k]
    ensures RunFetcher(state, lookup).Keys == state.Keys + {TicketDataKey}
         || RunFetcher(state, lookup).Keys == state.Keys + {ErrorKey}
  {
  }

  /** A state that meets the schema still meets it after the merge, with
      whatever ticket source. */
  lemma RunFetcherKeepsSchema(state: Mapping, lookup: string -> Lookup)
    requires IsTicketState(state)
    ensures IsTicketState(RunFetcher(state, lookup))
  {
  }

  /** `{"ticket_id": "PROJ-123", "some_other_field": ...}` keeps its other
      field through the node and the merge, and gains PROJ-123's record. */
  lemma ExampleKnownTicketPreservesOtherField()
    ensures var state := map[TicketIdKey := Str("PROJ-123"),
                             "some_other_field" := Str("should be preserved")];
      var after := RunFetcher(state, MockLookup);
      && after.Keys == {TicketIdKey, "some_other_field", TicketDataKey}
      && after["some_other_field"] == Str("should be preserved")
      && after[TicketIdKey] == Str("PROJ-123")
      && TicketFromDict(after[TicketDataKey].entries) == Some(MockTickets["PROJ-123"])
  {
  }

  /** `{"ticket_id": "UNKNOWN-999"}` gets a record keyed UNKNOWN-999 whose
      summary contains "Mock ticket". */
  lemma ExampleUnknownTicket()
    ensures var u := FetchJiraTicket(map[TicketIdKey := Str("UNKNOWN-999")], MockLookup);
      && u.Keys == {TicketDataKey}
      && u[TicketDataKey].entries["key"] == Str("UNKNOWN-999")
      && Contains(u[TicketDataKey].entries["summary"].s, "Mock ticket")
  {
  }
}
