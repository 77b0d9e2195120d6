/** The import run (`execute`): for every pulse the feed yields, check for a
    previous import, create the event, attach the tracking ticket, create
    the indicators and relate them to the event. The CRITs service is an
    oracle that answers each call; the run is observed through the calls it
    issues and a per-pulse outcome. */
module Importer {
  import opened Collections
  import opened Text
  import opened IndicatorTypes
  import opened Settings
  import opened Feed

  type Id = string

  const EventType := "Intel Sharing"
  const NoDescription := "No description given."
  const NoReference := "No reference documented"
  const ImportMethod := "otx2crits"
  const RightType := "Indicator"
  const RelationshipType := "Related To"
  const RelationshipConfidence := "high"
  const RelationshipReason := "Related during automatic OTX import"

  /** The `params` sent with the event. */
  datatype EventParams = EventParams(bucketList: string, description: string, reference: string, importMethod: string)

  /** The `params` sent with the ticket, the indicators and the
      relationships: the CRITs API key and user name. */
  datatype Credentials = Credentials(apiKey: string, username: string)

  /** A call to CRITs, with the arguments that distinguish it. */
  datatype Call =
    | EventCount(ticketNumber: string)
    | AddEvent(eventType: string, title: string, description: string, source: string, eventParams: EventParams)
    | AddTicket(url: string, eventId: Id, ticketNumber: string, credentials: Credentials)
    | AddIndicator(critsType: CritsType, value: string, source: string, credentials: Credentials)
    | ForgeRelationship(url: string, eventId: Id, rightType: string, rightId: Id, relType: string,
                        confidence: string, reason: string, credentials: Credentials)

  /** A non-empty result of `add_indicator`. */
  datatype IndicatorReply = IndicatorReply(returnCode: int, id: Id)

  /** How CRITs answers each kind of call: the event count, the id of a
      created event (None when the result has no `id`), the status of the
      ticket and relationship requests, and the indicator result (None when
      it is empty). */
  datatype Crits = Crits(
    eventCount: Call -> int,
    addEvent: Call -> Option<Id>,
    ticketStatus: Call -> int,
    addIndicator: Call -> Option<IndicatorReply>,
    relationshipStatus: Call -> int)

  /** How the processing of one pulse ended. */
  datatype Outcome =
    | Skipped
    | Abandoned
    | Imported(ticketAdded: bool, indicatorIds: seq<Id>, failedRelationships: seq<Id>)

  // The success rules of the individual requests.

  /** `is_pulse_in_crits`: some event already carries the pulse's ticket. */
  predicate IsPulseInCrits(count: int)
  {
    count > 0
  }

  /** `add_crits_indicator`: the new indicator's id, when CRITs returned a
      result with return code 0. */
  function AddCritsIndicator(reply: Option<IndicatorReply>): Option<Id>
  {
    if reply.Some? && reply.value.returnCode == 0 then Some(reply.value.id) else None
  }

  /** `add_ticket_to_crits_event` succeeds on status 200. */
  predicate TicketAdded(status: int)
  {
    status == 200
  }

  /** `build_crits_relationship` succeeds on status 200. */
  predicate RelationshipBuilt(status: int)
  {
    status == 200
  }

  // The calls one pulse gives rise to.

  function Auth(cfg: Config): Credentials
  {
    Credentials(cfg.critsApiKey, cfg.critsUsername)
  }

  /** The REST endpoint of an event, used for tickets and relationships. */
  function EventUrl(cfg: Config, eventId: Id): string
  {
    cfg.critsUrl + "/api/v1/events/" + eventId + "/"
  }

  /** The description sent for a pulse: CRITs requires one. */
  function EventDescription(p: Pulse): string
  {
    if p.description == "" then NoDescription else p.description
  }

  /** The reference sent for a pulse. The source initialises its `reference`
      variable to the empty string and then tests that variable rather than
      the pulse's references, so the placeholder is always chosen and the
      branch that would take the first reference is never reached. */
  function EventReference(p: Pulse): string
  {
    NoReference
  }

  function EventCall(cfg: Config, p: Pulse): Call
  {
    AddEvent(EventType, p.name, EventDescription(p), cfg.critsSource,
             EventParams(Join(p.tags, ','), EventDescription(p), EventReference(p), ImportMethod))
  }

  function TicketCall(cfg: Config, eventId: Id, pulseId: string): Call
  {
    AddTicket(EventUrl(cfg, eventId), eventId, pulseId, Auth(cfg))
  }

  /** The indicator creation a record asks for; none when its type is
      unsupported or has no CRITs equivalent. */
  function IndicatorCall(cfg: Config, r: IndicatorRecord): Option<Call>
  {
    match MapType(r.indicatorType)
    case Mapped(t) => Some(AddIndicator(t, r.value, cfg.critsSource, Auth(cfg)))
    case NoEquivalent => None
    case Unsupported => None
  }

  function RelationshipCall(cfg: Config, eventId: Id, indicatorId: Id): Call
  {
    ForgeRelationship(EventUrl(cfg, eventId), eventId, RightType, indicatorId, RelationshipType,
                      RelationshipConfidence, RelationshipReason, Auth(cfg))
  }

  /** Per record: the indicator creation it asks for. */
  function IndicatorChoice(cfg: Config): IndicatorRecord -> Option<Call>
  {
    (r: IndicatorRecord) => IndicatorCall(cfg, r)
  }

  /** The indicator creations of a pulse, in record order. */
  function IndicatorCalls(cfg: Config, records: seq<IndicatorRecord>): seq<Call>
  {
    Select(records, IndicatorChoice(cfg))
  }

  /** The id a record's indicator creation yields, if it yields one. */
  function KeptId(cfg: Config, crits: Crits, r: IndicatorRecord): Option<Id>
  {
    match IndicatorCall(cfg, r)
    case None => None
    case Some(c) => AddCritsIndicator(crits.addIndicator(c))
  }

  function KeptChoice(cfg: Config, crits: Crits): IndicatorRecord -> Option<Id>
  {
    (r: IndicatorRecord) => KeptId(cfg, crits, r)
  }

  /** `relationship_map` after the indicator loop. */
  function KeptIds(cfg: Config, crits: Crits, records: seq<IndicatorRecord>): seq<Id>
  {
    Select(records, KeptChoice(cfg, crits))
  }

  function SkipChoice(cfg: Config): IndicatorRecord -> Option<IndicatorRecord>
  {
    (r: IndicatorRecord) => if IndicatorCall(cfg, r).None? then Some(r) else None
  }

  /** The records that cause no indicator creation. */
  function SkippedRecords(cfg: Config, records: seq<IndicatorRecord>): seq<IndicatorRecord>
  {
    Select(records, SkipChoice(cfg))
  }

  /** One relationship per id, in order, all from the same event. */
  function RelationshipCalls(cfg: Config, eventId: Id, ids: seq<Id>): (calls: seq<Call>)
    ensures |calls| == |ids|
    ensures forall k :: 0 <= k < |ids| ==> calls[k] == RelationshipCall(cfg, eventId, ids[k])
    decreases |ids|
  {
    if ids == [] then []
    else RelationshipCalls(cfg, eventId, ids[..|ids| - 1]) + [RelationshipCall(cfg, eventId, ids[|ids| - 1])]
  }

  function FailureChoice(cfg: Config, crits: Crits, eventId: Id): Id -> Option<Id>
  {
    (id: Id) =>
      if RelationshipBuilt(crits.relationshipStatus(RelationshipCall(cfg, eventId, id))) then None else Some(id)
  }

  /** The ids whose relationship request did not succeed. */
  function FailedRelationships(cfg: Config, crits: Crits, eventId: Id, ids: seq<Id>): seq<Id>
  {
    Select(ids, FailureChoice(cfg, crits, eventId))
  }

  /** Every call issued for one pulse, in order. */
  function PulseCalls(cfg: Config, crits: Crits, p: Pulse): seq<Call>
  {
    var countCall := EventCount(p.id);
    if IsPulseInCrits(crits.eventCount(countCall)) then [countCall]
    else
      var eventCall := EventCall(cfg, p);
      match crits.addEvent(eventCall)
      case None => [countCall, eventCall]
      case Some(eventId) =>
        [countCall, eventCall, TicketCall(cfg, eventId, p.id)]
        + IndicatorCalls(cfg, p.indicators)
        + RelationshipCalls(cfg, eventId, KeptIds(cfg, crits, p.indicators))
  }

  /** How the processing of one pulse ends. */
  function PulseOutcome(cfg: Config, crits: Crits, p: Pulse): Outcome
  {
    if IsPulseInCrits(crits.eventCount(EventCount(p.id))) then Skipped
    else
      match crits.addEvent(EventCall(cfg, p))
      case None => Abandoned
      case Some(eventId) =>
        var ids := KeptIds(cfg, crits, p.indicators);
        Imported(TicketAdded(crits.ticketStatus(TicketCall(cfg, eventId, p.id))), ids,
                 FailedRelationships(cfg, crits, eventId, ids))
  }

  /** Every call of a run over `pulses`, pulse after pulse. */
  function RunCalls(cfg: Config, crits: Crits, pulses: seq<Pulse>): seq<Call>
    decreases |pulses|
  {
    if pulses == [] then []
    else RunCalls(cfg, crits, pulses[..|pulses| - 1]) + PulseCalls(cfg, crits, pulses[|pulses| - 1])
  }

  /** One outcome per pulse, in order. */
  function RunOutcomes(cfg: Config, crits: Crits, pulses: seq<Pulse>): (outcomes: seq<Outcome>)
    ensures |outcomes| == |pulses|
    ensures forall k :: 0 <= k < |pulses| ==> outcomes[k] == PulseOutcome(cfg, crits, pulses[k])
    decreases |pulses|
  {
    if pulses == [] then []
    else RunOutcomes(cfg, crits, pulses[..|pulses| - 1]) + [PulseOutcome(cfg, crits, pulses[|pulses| - 1])]
  }

  /** `execute`: pulls every pulse from the feed and processes them in
      order, returning the feed requests, the CRITs calls and the outcome of
      each pulse. */
  method Execute(cfg: Config, feed: seq<Response>, crits: Crits)
    returns (requested: seq<string>, calls: seq<Call>, outcomes: seq<Outcome>)
    ensures requested == RequestedUrls(cfg.otxUrl, cfg.modifiedSince, feed)
    ensures calls == RunCalls(cfg, crits, Yielded(feed))
    ensures outcomes == RunOutcomes(cfg, crits, Yielded(feed))
  {
    var pulses;
    pulses, requested := PulseGenerator(cfg.otxUrl, cfg.modifiedSince, feed);
    calls, outcomes := [], [];
    for i := 0 to |pulses|
      invariant calls == RunCalls(cfg, crits, pulses[..i])
      invariant outcomes == RunOutcomes(cfg, crits, pulses[..i])
    {
      var pulse := pulses[i];
      assert pulses[..i + 1][..i] == pulses[..i];
      var pulseCalls, outcome := ImportPulse(cfg, crits, pulse);
      calls := calls + pulseCalls;
      outcomes := outcomes + [outcome];
    }
    assert pulses[..|pulses|] == pulses;
  }

  /** The body of the loop in `execute` for one pulse. */
  method ImportPulse(cfg: Config, crits: Crits, pulse: Pulse) returns (calls: seq<Call>, outcome: Outcome)
    ensures calls == PulseCalls(cfg, crits, pulse)
    ensures outcome == PulseOutcome(cfg, crits, pulse)
  {
    var relationshipMap: seq<Id> := [];

    var countCall := EventCount(pulse.id);
    calls := [countCall];
    if IsPulseInCrits(crits.eventCount(countCall)) {
      return calls, Skipped;
    }

    var description := pulse.description;
    if description == "" {
      description := NoDescription;
    }
    var params := EventParams(Join(pulse.tags, ','), description, EventReference(pulse), ImportMethod);
    var eventCall := AddEvent(EventType, pulse.name, description, cfg.critsSource, params);
    calls := calls + [eventCall];
    var event := crits.addEvent(eventCall);
    if event.None? {
      return calls, Abandoned;
    }
    var eventId := event.value;

    // The ticket goes first; a failure is remembered and processing goes on.
    var ticketCall := AddTicket(EventUrl(cfg, eventId), eventId, pulse.id, Auth(cfg));
    calls := calls + [ticketCall];
    var ticketAdded := TicketAdded(crits.ticketStatus(ticketCall));

    var indicatorCalls, relationshipCalls, failed;
    indicatorCalls, relationshipMap := CreateIndicators(cfg, crits, pulse.indicators);
    relationshipCalls, failed := BuildRelationships(cfg, crits, eventId, relationshipMap);
    calls := calls + indicatorCalls + relationshipCalls;
    outcome := Imported(ticketAdded, relationshipMap, failed);
  }

  /** The indicator loop of `execute`: one creation per record whose type
      maps to a CRITs type, keeping the ids of the successful ones. */
  method CreateIndicators(cfg: Config, crits: Crits, records: seq<IndicatorRecord>)
    returns (calls: seq<Call>, relationshipMap: seq<Id>)
    ensures calls == IndicatorCalls(cfg, records)
    ensures relationshipMap == KeptIds(cfg, crits, records)
  {
    calls, relationshipMap := [], [];
    for j := 0 to |records|
      invariant calls == IndicatorCalls(cfg, records[..j])
      invariant relationshipMap == KeptIds(cfg, crits, records[..j])
    {
      var record := records[j];
      assert records[..j + 1] == records[..j] + [record];
      SelectSnoc(records[..j], record, IndicatorChoice(cfg));
      SelectSnoc(records[..j], record, KeptChoice(cfg, crits));
      var mapped := MapType(record.indicatorType);
      if mapped.Unsupported? {
        continue;
      }
      if mapped.NoEquivalent? {
        continue;
      }
      var indicatorCall := AddIndicator(mapped.critsType, record.value, cfg.critsSource, Auth(cfg));
      calls := calls + [indicatorCall];
      var result := AddCritsIndicator(crits.addIndicator(indicatorCall));
      if result.Some? {
        relationshipMap := relationshipMap + [result.value];
      }
    }
    assert records[..|records|] == records;
  }

  /** The relationship loop of `execute`: one request per kept id, in order;
      a failed request is remembered and the loop goes on. */
  method BuildRelationships(cfg: Config, crits: Crits, eventId: Id, relationshipMap: seq<Id>)
    returns (calls: seq<Call>, failed: seq<Id>)
    ensures calls == RelationshipCalls(cfg, eventId, relationshipMap)
    ensures failed == FailedRelationships(cfg, crits, eventId, relationshipMap)
  {
    calls, failed := [], [];
    for k := 0 to |relationshipMap|
      invariant calls == RelationshipCalls(cfg, eventId, relationshipMap[..k])
      invariant failed == FailedRelationships(cfg, crits, eventId, relationshipMap[..k])
    {
      assert relationshipMap[..k + 1] == relationshipMap[..k] + [relationshipMap[k]];
      SelectSnoc(relationshipMap[..k], relationshipMap[k], FailureChoice(cfg, crits, eventId));
      var relationshipCall := RelationshipCall(cfg, eventId, relationshipMap[k]);
      calls := calls + [relationshipCall];
      if !RelationshipBuilt(crits.relationshipStatus(relationshipCall)) {
        failed := failed + [relationshipMap[k]];
      }
    }
    assert relationshipMap[..|relationshipMap|] == relationshipMap;
  }
}
