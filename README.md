# otx2crits in Dafny

A model of `otx2crits`, the script that copies AlienVault OTX "pulses" into a
CRITs repository. Each new pulse becomes a CRITs event with a tracking ticket
and its indicators, and each created indicator is related to the event. The
ticket carries the pulse id, and on later runs it is used to skip pulses that
were already imported.

The model covers the decision core of the script:

- **Indicator type mapping** (`indicator_types.dfy`). The fixed table from feed
  type names to CRITs types. A lookup gives `Mapped(t)`, `NoEquivalent` (the
  table's `None`) or `Unsupported` (a name missing from the table).
- **Settings** (`settings.dfy`). What the constructor does with the configuration
  values: the dev flag selects the dev URL and key, one trailing `/` is stripped,
  and a non-zero age in days becomes a `modified_since` filter.
- **Feed pagination** (`feed.dfy`). `PulseGenerator` builds the first query
  string by appending arguments. It then follows the server's `next` link while
  the link is truthy and each answer has status 200, and it yields the
  `results` of every page in order. The server is the finite list of its
  answers, one per GET, already parsed. A GET past the end of that list is
  answered as unavailable.
- **The import run** (`importer.dfy`). `Execute` and `ImportPulse` implement the
  per-pulse state machine: duplicate check, event creation (the pulse is
  abandoned when the result has no `id`), ticket (processing goes on after a
  failure), the indicator loop that builds `relationship_map`, then one
  relationship per kept id. CRITs is an oracle (`Crits`) that answers each call.
  The run is observed through the sequence of calls it issues (`seq<Call>`) and a
  per-pulse `Outcome`. The source only reports these results in printed
  messages, so `Outcome` is the model's structured record of them.
- **Properties** (`import_properties.dfy`). What the trace and the outcomes
  promise. `text.dfy` and `collections.dfy` hold the helpers: `Join` (Python's
  `str.join`) with `Split` as its inverse, and `Select`, an order-preserving
  filter with its characterisation lemma.

Three behaviours of the code are kept as written, though a reader might expect otherwise:

- The event reference is always the placeholder `No reference documented`. The
  code tests a local variable it has just set to `''`, not the pulse's
  references (otx2crits.py:79-84).
- An indicator creation succeeds when the result is non-empty and its
  `return_code` is 0. No HTTP status is involved (otx2crits.py:313-319).
- A non-200 answer to the first feed request does not abort the run. The
  generator just yields nothing (otx2crits.py:258-263).

## Model

| member | source | states |
|---|---|---|
| IndicatorTypes.MapType | otx2crits.py:126-136 | the lookup in the indicator loop: a name missing from the table is `Unsupported`, a `None` entry is `NoEquivalent`, any other entry is `Mapped` to its CRITs type; its meaning is proved by `MappedExactly`, `NoEquivalentExactly` and `UnsupportedExactly` |
| IndicatorTypes.SynonymsShareType | otx2crits.py:195-217 | URI/URL, hostname/domain, email/Email, filepath/Filepath/FilePath and mutex/Mutex each map to one CRITs type |
| IndicatorTypes.MappedExactly | otx2crits.py:195-217 | a feed name maps to a CRITs type exactly when it is one of that type's names in the table read backwards (`FeedNames`) |
| IndicatorTypes.SameTypeExactlyForSynonyms | otx2crits.py:195-217 | two different feed names map to the same CRITs type if and only if they are synonyms |
| IndicatorTypes.NoEquivalentExactly | otx2crits.py:211-216 | a feed type has no CRITs equivalent exactly when it is PEhash, CVE or Yara |
| IndicatorTypes.UnsupportedExactly | otx2crits.py:129-134 | a feed type is unsupported exactly when it is missing from the table's 21 names |
| Settings.StripTrailingSlash | otx2crits.py:39-40 | the URL loses its last character exactly when that character is '/', and otherwise stays the same |
| Settings.StripTrailingSlashOnce | otx2crits.py:39-40 | only one trailing slash is removed: `u/` gives `u` and `u//` gives `u/` |
| Settings.NewConfig | otx2crits.py:29-52 | the dev flag selects the dev URL and the dev key together, an empty chosen URL fails, the filter is set exactly for a non-zero age, and the OTX key and URL, the CRITs username and the source are copied unchanged |
| Text.SplitJoin | otx2crits.py:96 | a comma-joined non-empty list of comma-free tags splits back into the same tags |
| Feed.SendOtxGet | otx2crits.py:221-232 | a response yields its page exactly when its status is 200, and nothing otherwise; `PulseGenerator` and `ChainEndsAt` prove that a non-200 answer ends the run's requests |
| Feed.FirstRequest | otx2crits.py:246-258 | the first URL is `{otx_url}/pulses/subscribed?`, then `modified_since=...&` when a filter is set, then `limit=10&page=1` |
| Feed.PulseGenerator | otx2crits.py:235-273 | the generator yields exactly `Yielded(feed)` and requests the first URL followed by every truthy `next` link of a 200 page |
| Feed.ChainEndsAt | otx2crits.py:221-273 | after a non-200 answer, or a page without a truthy `next`, nothing more is requested and later answers change nothing |
| Feed.YieldedInPageOrder | otx2crits.py:263-273 | along a chain of 200 pages with `next` links, the run yields each page's results in page order, and a page without `results` contributes nothing |
| Feed.ThreePages | otx2crits.py:263-273 | pages of 10, 10 and 4 pulses, with `next` on the first two and null on the last, yield those 24 pulses in order |
| Importer.IsPulseInCrits | otx2crits.py:287-296 | a pulse is already in CRITs when the count of events carrying its ticket is above 0; `DuplicatePulseSkipped` proves such a pulse gets only the count query |
| Importer.AddCritsIndicator | otx2crits.py:309-319 | a creation succeeds, with the returned id, exactly when CRITs returned a result whose return code is 0; `KeptIdsFollowReplies` proves `relationship_map` holds exactly those ids |
| Importer.TicketAdded | otx2crits.py:322-353 | the ticket request succeeds exactly on status 200; `ImportedOutcome` proves the outcome records it and `StatusesDoNotChangeCalls` that a failure stops nothing |
| Importer.RelationshipBuilt | otx2crits.py:356-387 | the relationship request succeeds exactly on status 200; `ImportedOutcome` proves the outcome lists exactly the ids whose request failed |
| Importer.Execute | otx2crits.py:60-154 | the run requests the feed's URLs and issues, pulse after pulse, exactly the calls and outcomes of the per-pulse state machine |
| Importer.ImportPulse | otx2crits.py:65-154 | one pulse's calls and outcome are those of `PulseCalls` and `PulseOutcome` |
| Importer.CreateIndicators | otx2crits.py:126-146 | the indicator loop issues `IndicatorCalls` and leaves `KeptIds` in `relationship_map` |
| Importer.BuildRelationships | otx2crits.py:149-154 | the relationship loop requests every kept id in order and records those whose status is not 200 |
| Importer.RelationshipCalls | otx2crits.py:356-375 | there is one relationship request per kept id, in the same order, each from the same event |
| ImportProperties.IndicatorCallsFollowRecords | otx2crits.py:127-140 | exactly the records whose type maps to a CRITs type cause one `add_indicator` call each, in record order, with the mapped type, the record's value and the ticket credentials |
| ImportProperties.IndicatorCallCount | otx2crits.py:127-136 | N records with M unsupported or without an equivalent give exactly N - M indicator calls, and the skipped records are exactly the records whose type does not map to a CRITs type |
| ImportProperties.KeptIdsFollowReplies | otx2crits.py:137-146 | `relationship_map` holds exactly the ids of creations whose result was present with return code 0, in record order |
| ImportProperties.DuplicatePulseSkipped | otx2crits.py:70-72 | a count above 0 if and only if the pulse gets only the count query, and if and only if its outcome is Skipped |
| ImportProperties.OneEventPerNewPulse | otx2crits.py:93-102 | a new pulse gets exactly one event creation, right after the count query |
| ImportProperties.EventWithoutIdAbandonsPulse | otx2crits.py:103-107 | an event result without an `id` if and only if no ticket, indicator or relationship call follows, and if and only if the outcome is Abandoned |
| ImportProperties.CallsAfterTicket | otx2crits.py:110-146 | after event creation comes the ticket carrying the pulse id on the event's URL, then exactly the indicator creations of `IndicatorCalls`, then one relationship per kept id |
| ImportProperties.RelationshipsAfterIndicators | otx2crits.py:149-154 | every relationship call comes after every indicator call, and all of them are on the pulse's event with type "Related To", confidence "high" and reason "Related during automatic OTX import" |
| ImportProperties.ImportedOutcome | otx2crits.py:118-154 | the outcome records whether the ticket request returned 200 and the kept ids, and lists exactly the ids whose relationship request did not return 200 |
| ImportProperties.StatusesDoNotChangeCalls | otx2crits.py:118-154 | ticket and relationship statuses change neither the calls issued nor the ids kept, so a failure of either stops nothing |
| ImportProperties.EventFields | otx2crits.py:79-101 | the description is never empty (the pulse's own, or the placeholder exactly when it is empty), the reference is always the placeholder, and the bucket list splits back into the tags when there is at least one tag and no tag contains a comma |
| ImportProperties.RunCallsAppend | otx2crits.py:60-72 | the calls of a run over two stretches of pulses are those of the first stretch, then those of the second |
| ImportProperties.EveryPulseProcessed | otx2crits.py:60-107 | each pulse's full call sequence appears in the run between those of the pulses before and after it, whatever happened to them |
| ImportProperties.RerunCreatesNothing | otx2crits.py:287-296 | when every pulse's ticket is already in CRITs, the run issues only the count queries |
| ImportProperties.SecondRunCreatesNothing | otx2crits.py:60-72 | when a first run recorded the ticket of every pulse and the second run's counts find those tickets, the second run over the same pulses issues only the count queries |
| ImportProperties.UnrecordedPulseImportedAgain | otx2crits.py:103-123 | for a pulse whose event came back without an id, or whose ticket failed, in the first run: when the next run's count query answers as before, the next run requests its event creation again and does not skip the pulse |
| ImportProperties.SinglePulseScenario | otx2crits.py:60-154 | pulse p1 with an IPv4 and a Yara record gives a count query, one event with the placeholder description, ticket p1, one IPv4 indicator and one relationship |

## Left out

- Configuration discovery and parsing (`parse_config`, `load_config`, environment variable, home directory) and the CLI (`main`, argparse). The constructor starts from the values read, as a `ConfigFile`.
- HTTP transport: headers, proxies, TLS verification flags, the `pycrits` client's internals and the vocabulary module's type strings. Each remote call is an abstract answer: a status, an optional id, a return code or a count.
- JSON parsing. Pages and pulses arrive already parsed. A body that is not valid JSON, or a 200 answer with an empty body, is not modelled.
- Clock and time formatting. The `modified_since` cut-off is an already formatted string given to `NewConfig`. The ticket's `date` and the relationship's `rel_date` are not part of the recorded calls.
- Python exceptions: a pulse missing a field, or an indicator result missing `return_code` or `id`, raises `KeyError` in the source. So does a result with a non-zero `return_code` and no `message` (otx2crits.py:318), which ends the source's run where the model goes on, since `IndicatorReply` has no message. A page with `"results": null` raises `TypeError` (otx2crits.py:266), where the model yields nothing from that page. The model's datatypes always carry the fields they need.
- `get_pulse_data`: an unused single-pulse fetch.
- Printed progress messages and `.encode("utf-8")`. The structured `Outcome` stands in for the messages that report ticket and relationship failures.
- Generator laziness. `Execute` collects every pulse before importing any, so the model does not capture how feed requests interleave with CRITs calls. Each sequence is kept in order on its own.
- CRITs state between calls. The oracle answers a call as a fixed function of that call, so an event created earlier in the same run does not change a later count query. Two runs are related only through two oracles, not by deriving the second from the first.
- RerunCreatesNothing: assumes every count of the run is positive. The link to what a first run recorded is a precondition of `SecondRunCreatesNothing` (the second run's counts find the recorded tickets), not derived, because the oracle does not model CRITs storage.
- A feed whose `next` links never end. The feed is a finite list of answers, so every run terminates.
