# Jira ticket-lookup node, modelled in Dafny

This project models the one working node of a small LangGraph teaching scaffold:
the deterministic Jira fetcher. It also models the "a node returns a partial
update, and the caller merges it into the state" contract that the node relies on.

- `values.dfy` (module `Values`) holds the Python values a node sees. A `Value` is a `str` or a `dict` keyed by strings.
  `Contains` is Python's substring test `sub in s`.
- `state.dfy` (module `State`) holds the ticket-workflow state schema `JiraTicketState`.
  `ticket_id` is a required string. `ticket_data` and `analysis` are optional dicts.
  `ticket_summary` and `error` are optional strings. Any extra key is allowed.
  The module also holds the caller-side shallow merge `state.update(updates)` as `Merge`.
- `jira_fetcher.dfy` (module `JiraFetcher`) holds the node itself:
  - the `Ticket` record (seven string fields) and its dict form;
  - the mock ticket source `mock_fetch_from_jira`: a fixed two-entry table, with a templated fallback record for every other id;
  - the node `fetch_jira_ticket`, which returns a one-key update.

The node's ticket source is a parameter (`string -> Lookup`) that either returns
a record or raises with a message. That makes the `except` branch reachable.
The mock source is proved never to raise, so with it the update is always `ticket_data`.

The state is a Python dict, `map<string, Value>`, not a record with optional fields.
This lets the model keep keys outside the schema, such as `some_other_field` in the
unit tests, and state "every other key is untouched" directly.

## Model

| member | source | states |
|---|---|---|
| `Values.ContainsSuffix` | tests/unit/test_jira_fetcher.py:48 | Python's `sub in s` holds whenever `s` ends with `sub` |
| `Values.ContainsAt` | tests/unit/test_jira_fetcher.py:48 | the recursive substring test agrees with "`sub` is a prefix of `s[i..]` for some position `i`", in both directions |
| `State.Merge` | examples/basic_jira_fetcher.py:31-33 | `state.update(updates)`: the keys are the union; update values win; all other state values are kept |
| `State.MergeKeepsSchema` | components/state_schemas/base_schemas.py:28-66 | an update that leaves `ticket_id` alone and respects the optional fields' types keeps the state schema-conformant and `ticket_id` unchanged |
| `JiraFetcher.TicketToDict` | components/nodes/deterministic_nodes/jira_fetcher.py:55-63 | a ticket dict has exactly the seven field names, all holding strings |
| `JiraFetcher.TicketDictRoundTrip` | components/nodes/deterministic_nodes/jira_fetcher.py:55-63 | storing a ticket as a dict and reading it back gives the same ticket |
| `JiraFetcher.TicketFromDictSound` | components/nodes/deterministic_nodes/jira_fetcher.py:55-63 | a dict that reads back as a ticket holds exactly that ticket's seven fields |
| `JiraFetcher.MockFetchFromJira` | components/nodes/deterministic_nodes/jira_fetcher.py:33-63 | the lookup is total; the record's key is always the requested id; a known id yields its table entry |
| `JiraFetcher.MockFetchProj123` | components/nodes/deterministic_nodes/jira_fetcher.py:34-42 | `PROJ-123` yields exactly its table entry (summary, description, "In Progress", "High", "john.doe", "2025-01-15T10:30:00Z") |
| `JiraFetcher.MockFetchProj456` | components/nodes/deterministic_nodes/jira_fetcher.py:43-51 | `PROJ-456` yields exactly its table entry ("Fix broken search functionality", "Open", "Critical", "jane.smith", ...) |
| `JiraFetcher.MockFetchFallback` | components/nodes/deterministic_nodes/jira_fetcher.py:55-63 | any other id yields key = id and summary "Mock ticket " + id; the other five fields are fixed placeholders |
| `JiraFetcher.FallbackSummaryMentions` | tests/unit/test_jira_fetcher.py:39-48 | a fallback summary contains both "Mock ticket" and the id itself |
| `JiraFetcher.MockLookup` | components/nodes/deterministic_nodes/jira_fetcher.py:86-87 | the mock source never raises, and its returned dict reads back as the mock record |
| `JiraFetcher.FetchJiraTicket` | components/nodes/deterministic_nodes/jira_fetcher.py:83-94 | the update has exactly one key. It is `ticket_data` (holding the record) iff the lookup returns. Otherwise it is `error`, holding "Failed to fetch ticket <id>: <msg>" |
| `JiraFetcher.FetchReadsOnlyTicketId` | components/nodes/deterministic_nodes/jira_fetcher.py:83-87 | two states with the same `ticket_id` get the same update |
| `JiraFetcher.MockFetchNeverFails` | tests/unit/test_jira_fetcher.py:51-58 | with the mock source the update is `ticket_data` alone; it reads back as the mock record, and its `key` is the state's `ticket_id` |
| `JiraFetcher.RunFetcher` | examples/basic_jira_fetcher.py:28-33 | running the node and merging its update never removes a state key |
| `JiraFetcher.RunFetcherPreservesState` | tests/unit/test_jira_fetcher.py:61-79 | after the merge, `ticket_id` and every key the update does not name are unchanged, so a stale `error` survives beside a fresh `ticket_data`; the key set grows by at most one of `ticket_data` and `error` |
| `JiraFetcher.RunFetcherKeepsSchema` | components/state_schemas/base_schemas.py:44-47 | a schema-conformant state stays schema-conformant after the node's update is merged, whatever the ticket source |
| `JiraFetcher.ExampleKnownTicketPreservesOtherField` | tests/unit/test_jira_fetcher.py:61-79 | `{"ticket_id": "PROJ-123", "some_other_field": ...}` keeps both fields and gains PROJ-123's record, and nothing else |
| `JiraFetcher.ExampleUnknownTicket` | tests/unit/test_jira_fetcher.py:39-48 | `UNKNOWN-999` yields only `ticket_data`, keyed `UNKNOWN-999`, with a summary containing "Mock ticket" |

## Left out

- components/nodes/model_nodes/ticket_analyzer.py is not part of this model. Its purpose is a call to an external language model. The file is also unfinished and does not parse (mis-indented block, `return {analysis:}`). Its missing-`ticket_data` guard is therefore not modelled either.
- examples/simple_graph.py is not part of this model. It wires the node into the third-party LangGraph runtime, whose own merge, reducers and execution order lie outside the repository. Only the explicit caller-side merge is modelled.
- Printing in examples/basic_jira_fetcher.py is left out (console output only).
- The real Jira API client is left out. It appears only in a doc comment and would be network I/O. It is represented by the `lookup` parameter.
- `ticket_id` is modelled as a string, as the state schema declares. In Python a value of another type reaches the lookup unchecked. An unhashable one would make `.get` raise, and that error would land in the `error` branch. The model does not cover such values.
- `state.update(updates)` mutates the caller's dict in place. `Merge` returns the merged dict as a new value, so aliasing of the state dict is not modelled.
- A missing `ticket_id` raises `KeyError` outside the `try`. It is therefore a precondition of `FetchJiraTicket` and not an `error` update.
- Python dicts' insertion order is not modelled. Dafny maps are unordered, and no property here depends on key order.
