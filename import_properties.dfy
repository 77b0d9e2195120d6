/** What a run promises about the calls it issues to CRITs and the outcome
    it records for each pulse. */
module ImportProperties {
  import opened Collections
  import opened Text
  import opened IndicatorTypes
  import opened Settings
  import opened Feed
  import opened Importer

  // Indicator records.

  /** The positions of the records that cause an indicator creation. */
  function IndicatorPositions(cfg: Config, records: seq<IndicatorRecord>): seq<nat>
  {
    SelectedIndices(records, IndicatorChoice(cfg))
  }

  /** The positions of the records whose indicator was created. */
  function KeptPositions(cfg: Config, crits: Crits, records: seq<IndicatorRecord>): seq<nat>
  {
    SelectedIndices(records, KeptChoice(cfg, crits))
  }

  /** Exactly the records whose type maps to a CRITs type cause an indicator
      creation, one each and in record order, with the mapped type, the
      record's value, the configured source and the ticket credentials (not
      the event's params). Unsupported types and types without equivalent
      cause none. */
  lemma IndicatorCallsFollowRecords(cfg: Config, records: seq<IndicatorRecord>)
    ensures
      var calls, pos := IndicatorCalls(cfg, records), IndicatorPositions(cfg, records);
      && |pos| == |calls|
      && (forall j :: 0 <= j < |pos| ==>
            && pos[j] < |records|
            && MapType(records[pos[j]].indicatorType).Mapped?
            && calls[j] == AddIndicator(MapType(records[pos[j]].indicatorType).critsType,
                                        records[pos[j]].value, cfg.critsSource, Auth(cfg)))
      && (forall j, j' :: 0 <= j < j' < |pos| ==> pos[j] < pos[j'])
      && (forall k :: 0 <= k < |records| ==> (k in pos <==> MapType(records[k].indicatorType).Mapped?))
  {
    var f := IndicatorChoice(cfg);
    SelectSpec(records, f);
    var calls, pos := IndicatorCalls(cfg, records), IndicatorPositions(cfg, records);
    forall k | 0 <= k < |records| && k in pos
      ensures MapType(records[k].indicatorType).Mapped?
    {
      var j :| 0 <= j < |pos| && pos[j] == k;
      assert f(records[pos[j]]).Some?;
    }
  }

  /** With N records of which M are unsupported or have no equivalent,
      exactly N - M indicator creations are issued. */
  lemma IndicatorCallCount(cfg: Config, records: seq<IndicatorRecord>)
    ensures |IndicatorCalls(cfg, records)| == |records| - |SkippedRecords(cfg, records)|
    ensures forall r :: r in SkippedRecords(cfg, records) <==> r in records && !MapType(r.indicatorType).Mapped?
  {
    var skip := SkipChoice(cfg);
    SelectComplement(records, IndicatorChoice(cfg), skip);
    forall r
      ensures r in SkippedRecords(cfg, records) <==> r in records && !MapType(r.indicatorType).Mapped?
    {
      SelectMembership(records, skip, r);
    }
  }

  /** `relationship_map` holds exactly the ids of the indicators whose
      creation returned a result with return code 0, in record order: a
      record is kept when its type maps to a CRITs type and CRITs answered
      that creation with return code 0, and its entry is the returned id. */
  lemma KeptIdsFollowReplies(cfg: Config, crits: Crits, records: seq<IndicatorRecord>)
    ensures
      var ids, pos := KeptIds(cfg, crits, records), KeptPositions(cfg, crits, records);
      && |pos| == |ids|
      && (forall j :: 0 <= j < |pos| ==>
            && pos[j] < |records|
            && IndicatorCall(cfg, records[pos[j]]).Some?
            && crits.addIndicator(IndicatorCall(cfg, records[pos[j]]).value)
               == Some(IndicatorReply(0, ids[j])))
      && (forall j, j' :: 0 <= j < j' < |pos| ==> pos[j] < pos[j'])
      && (forall k :: 0 <= k < |records| ==>
            (k in pos <==>
               && MapType(records[k].indicatorType).Mapped?
               && var reply := crits.addIndicator(IndicatorCall(cfg, records[k]).value);
                  reply.Some? && reply.value.returnCode == 0))
  {
    var f := KeptChoice(cfg, crits);
    SelectSpec(records, f);
    var ids, pos := KeptIds(cfg, crits, records), KeptPositions(cfg, crits, records);
    forall j | 0 <= j < |pos|
      ensures IndicatorCall(cfg, records[pos[j]]).Some?
      ensures crits.addIndicator(IndicatorCall(cfg, records[pos[j]]).value) == Some(IndicatorReply(0, ids[j]))
    {
      assert f(records[pos[j]]) == Some(ids[j]);
    }
    forall k | 0 <= k < |records| && k in pos
      ensures f(records[k]).Some?
    {
      var j :| 0 <= j < |pos| && pos[j] == k;
      assert f(records[pos[j]]).Some?;
    }
  }

  // The per-pulse state machine.

  /** A pulse whose ticket is already in CRITs gets the count query and
      nothing else; otherwise more follows. */
  lemma DuplicatePulseSkipped(cfg: Config, crits: Crits, p: Pulse)
    ensures crits.eventCount(EventCount(p.id)) > 0 <==> PulseCalls(cfg, crits, p) == [EventCount(p.id)]
    ensures crits.eventCount(EventCount(p.id)) > 0 <==> PulseOutcome(cfg, crits, p) == Skipped
  {
  }

  /** A new pulse gets exactly one event creation, right after the count
      query, with the pulse's title and the configured source. */
  lemma OneEventPerNewPulse(cfg: Config, crits: Crits, p: Pulse)
    requires crits.eventCount(EventCount(p.id)) <= 0
    ensures
      var calls := PulseCalls(cfg, crits, p);
      && |calls| >= 2
      && calls[0] == EventCount(p.id)
      && calls[1] == EventCall(cfg, p)
      && (forall k :: 0 <= k < |calls| && k != 1 ==> !calls[k].AddEvent?)
  {
    var calls := PulseCalls(cfg, crits, p);
    match crits.addEvent(EventCall(cfg, p))
    case None =>
    case Some(eventId) =>
      CallsAfterTicket(cfg, crits, p, eventId);
  }

  /** When the created event has no id the pulse is abandoned: no ticket,
      indicator or relationship call follows. */
  lemma EventWithoutIdAbandonsPulse(cfg: Config, crits: Crits, p: Pulse)
    requires crits.eventCount(EventCount(p.id)) <= 0
    ensures crits.addEvent(EventCall(cfg, p)).None? <==> PulseCalls(cfg, crits, p) == [EventCount(p.id), EventCall(cfg, p)]
    ensures crits.addEvent(EventCall(cfg, p)).None? <==> PulseOutcome(cfg, crits, p) == Abandoned
  {
  }

  /** What follows an event creation that returned an id: the ticket
      carrying the pulse id on that event, then only indicator creations,
      then only relationships. The indicator stretch is exactly
      `IndicatorCalls`, which `IndicatorCallsFollowRecords` describes. */
  lemma CallsAfterTicket(cfg: Config, crits: Crits, p: Pulse, eventId: Id)
    requires crits.eventCount(EventCount(p.id)) <= 0
    requires crits.addEvent(EventCall(cfg, p)) == Some(eventId)
    ensures
      var calls := PulseCalls(cfg, crits, p);
      var n := |IndicatorCalls(cfg, p.indicators)|;
      var ids := KeptIds(cfg, crits, p.indicators);
      && |calls| == 3 + n + |ids|
      && calls[2] == AddTicket(EventUrl(cfg, eventId), eventId, p.id, Auth(cfg))
      && (forall k :: 3 <= k < 3 + n ==> calls[k].AddIndicator?)
      && calls[3..3 + n] == IndicatorCalls(cfg, p.indicators)
      && (forall k :: 0 <= k < |ids| ==> calls[3 + n + k] == RelationshipCall(cfg, eventId, ids[k]))
  {
    var calls := PulseCalls(cfg, crits, p);
    var indicatorCalls := IndicatorCalls(cfg, p.indicators);
    var n := |indicatorCalls|;
    IndicatorCallsFollowRecords(cfg, p.indicators);
    forall k | 3 <= k < 3 + n
      ensures calls[k].AddIndicator?
    {
      assert calls[k] == indicatorCalls[k - 3];
    }
  }

  /** Relationships are built only after every indicator creation of the
      pulse, all on the pulse's event, with the fixed type, confidence and
      reason. */
  lemma RelationshipsAfterIndicators(cfg: Config, crits: Crits, p: Pulse, eventId: Id)
    requires crits.eventCount(EventCount(p.id)) <= 0
    requires crits.addEvent(EventCall(cfg, p)) == Some(eventId)
    ensures
      var calls := PulseCalls(cfg, crits, p);
      && (forall i, j :: 0 <= i < |calls| && 0 <= j < |calls| && calls[i].AddIndicator? && calls[j].ForgeRelationship? ==> i < j)
      && (forall j :: 0 <= j < |calls| && calls[j].ForgeRelationship? ==>
            && calls[j].eventId == eventId
            && calls[j].rightType == "Indicator"
            && calls[j].relType == "Related To"
            && calls[j].confidence == "high"
            && calls[j].reason == "Related during automatic OTX import")
  {
    var calls := PulseCalls(cfg, crits, p);
    var n := |IndicatorCalls(cfg, p.indicators)|;
    var ids := KeptIds(cfg, crits, p.indicators);
    CallsAfterTicket(cfg, crits, p, eventId);
  }

  /** What the outcome of an imported pulse records: whether the ticket
      request returned 200, the kept ids, and exactly those of them whose
      relationship request did not return 200. */
  lemma ImportedOutcome(cfg: Config, crits: Crits, p: Pulse, eventId: Id)
    requires crits.eventCount(EventCount(p.id)) <= 0
    requires crits.addEvent(EventCall(cfg, p)) == Some(eventId)
    ensures
      var outcome := PulseOutcome(cfg, crits, p);
      var calls := PulseCalls(cfg, crits, p);
      && outcome.Imported?
      && (outcome.ticketAdded <==> crits.ticketStatus(calls[2]) == 200)
      && outcome.indicatorIds == KeptIds(cfg, crits, p.indicators)
      && (forall id :: id in outcome.failedRelationships <==>
            id in outcome.indicatorIds && crits.relationshipStatus(RelationshipCall(cfg, eventId, id)) != 200)
  {
    var ids := KeptIds(cfg, crits, p.indicators);
    var f := FailureChoice(cfg, crits, eventId);
    forall id
      ensures id in FailedRelationships(cfg, crits, eventId, ids) <==>
              id in ids && crits.relationshipStatus(RelationshipCall(cfg, eventId, id)) != 200
    {
      SelectMembership(ids, f, id);
    }
  }

  /** Neither a failed ticket nor a failed relationship stops anything: the
      calls issued, and the ids kept, do not depend on the ticket or
      relationship statuses CRITs returns. */
  lemma StatusesDoNotChangeCalls(cfg: Config, crits: Crits, other: Crits, p: Pulse)
    requires forall c :: crits.eventCount(c) == other.eventCount(c)
    requires forall c :: crits.addEvent(c) == other.addEvent(c)
    requires forall c :: crits.addIndicator(c) == other.addIndicator(c)
    ensures PulseCalls(cfg, crits, p) == PulseCalls(cfg, other, p)
    ensures KeptIds(cfg, crits, p.indicators) == KeptIds(cfg, other, p.indicators)
  {
    forall r ensures KeptChoice(cfg, crits)(r) == KeptChoice(cfg, other)(r) {
    }
    SelectExtensional(p.indicators, KeptChoice(cfg, crits), KeptChoice(cfg, other));
  }

  // Event fields.

  /** The event always has a description (the pulse's own when it has one,
      the placeholder otherwise), the reference is always the placeholder
      whatever references the pulse lists, and the bucket list splits back
      into the pulse's tags when no tag contains a comma. */
  lemma EventFields(cfg: Config, p: Pulse)
    ensures
      var e := EventCall(cfg, p);
      && e.eventType == "Intel Sharing" && e.title == p.name && e.source == cfg.critsSource
      && e.description != "" && e.eventParams.description == e.description
      && (p.description != "" ==> e.description == p.description)
      && (p.description == "" ==> e.description == "No description given.")
      && e.eventParams.reference == "No reference documented"
      && e.eventParams.importMethod == "otx2crits"
      && (|p.tags| >= 1 && (forall i :: 0 <= i < |p.tags| ==> ',' !in p.tags[i]) ==>
            Split(e.eventParams.bucketList, ',') == p.tags)
  {
    if |p.tags| >= 1 && (forall i :: 0 <= i < |p.tags| ==> ',' !in p.tags[i]) {
      SplitJoin(p.tags, ',');
    }
  }

  // The whole run.

  /** A run over two stretches of pulses issues the calls of the first,
      then those of the second: what happens to one pulse never keeps a
      later pulse from being processed in full. */
  lemma {:induction false} RunCallsAppend(cfg: Config, crits: Crits, a: seq<Pulse>, b: seq<Pulse>)
    ensures RunCalls(cfg, crits, a + b) == RunCalls(cfg, crits, a) + RunCalls(cfg, crits, b)
    decreases |b|
  {
    if b == [] {
      assert a + b == a;
    } else {
      var n := |b| - 1;
      assert (a + b)[..|a + b| - 1] == a + b[..n];
      RunCallsAppend(cfg, crits, a, b[..n]);
    }
  }

  /** Each pulse's calls appear in the run's calls between those of the
      pulses before it and those of the pulses after it. */
  lemma EveryPulseProcessed(cfg: Config, crits: Crits, pulses: seq<Pulse>, k: nat)
    requires k < |pulses|
    ensures RunCalls(cfg, crits, pulses)
      == RunCalls(cfg, crits, pulses[..k]) + PulseCalls(cfg, crits, pulses[k]) + RunCalls(cfg, crits, pulses[k + 1..])
  {
    assert pulses == pulses[..k] + ([pulses[k]] + pulses[k + 1..]);
    RunCallsAppend(cfg, crits, pulses[..k], [pulses[k]] + pulses[k + 1..]);
    RunCallsAppend(cfg, crits, [pulses[k]], pulses[k + 1..]);
    assert RunCalls(cfg, crits, [pulses[k]]) == PulseCalls(cfg, crits, pulses[k]);
  }

  /** When CRITs already holds the ticket of every pulse (as after a run
      whose tickets were all recorded), a run issues only the count queries
      and creates no event. */
  lemma {:induction false} RerunCreatesNothing(cfg: Config, crits: Crits, pulses: seq<Pulse>)
    requires forall k :: 0 <= k < |pulses| ==> crits.eventCount(EventCount(pulses[k].id)) > 0
    ensures |RunCalls(cfg, crits, pulses)| == |pulses|
    ensures forall k :: 0 <= k < |pulses| ==> RunCalls(cfg, crits, pulses)[k] == EventCount(pulses[k].id)
    decreases |pulses|
  {
    if pulses != [] {
      var n := |pulses| - 1;
      RerunCreatesNothing(cfg, crits, pulses[..n]);
    }
  }

  /** The first run left the pulse's ticket in CRITs: the pulse was already
      there, or it was imported and its ticket was attached. */
  predicate TicketRecorded(outcome: Outcome)
  {
    outcome.Skipped? || (outcome.Imported? && outcome.ticketAdded)
  }

  /** A second run over the same pulses creates nothing, provided the first
      run recorded the ticket of every pulse and the second run's count
      queries find every ticket the first run recorded. */
  lemma SecondRunCreatesNothing(cfg: Config, first: Crits, second: Crits, pulses: seq<Pulse>)
    requires forall k :: 0 <= k < |pulses| ==> TicketRecorded(RunOutcomes(cfg, first, pulses)[k])
    requires forall k :: 0 <= k < |pulses| && TicketRecorded(RunOutcomes(cfg, first, pulses)[k]) ==>
               second.eventCount(EventCount(pulses[k].id)) > 0
    ensures |RunCalls(cfg, second, pulses)| == |pulses|
    ensures forall k :: 0 <= k < |pulses| ==> RunCalls(cfg, second, pulses)[k] == EventCount(pulses[k].id)
  {
    RerunCreatesNothing(cfg, second, pulses);
  }

  /** A pulse whose ticket the first run did not record (its event came
      back without an id, or the ticket request failed) leaves the count
      query unchanged, so the next run creates its event again. */
  lemma UnrecordedPulseImportedAgain(cfg: Config, first: Crits, second: Crits, p: Pulse)
    requires !TicketRecorded(PulseOutcome(cfg, first, p))
    requires second.eventCount(EventCount(p.id)) == first.eventCount(EventCount(p.id))
    ensures |PulseCalls(cfg, second, p)| >= 2
    ensures PulseCalls(cfg, second, p)[..2] == [EventCount(p.id), EventCall(cfg, p)]
    ensures !PulseOutcome(cfg, second, p).Skipped?
  {
  }

  /** A new pulse "p1" titled "Test", with an empty description, the tag
      "malware", an IPv4 record and a Yara record: one event with the
      placeholder description and bucket list "malware", the ticket "p1",
      one IPv4 indicator (the Yara record is skipped) and one relationship
      from the event to it. */
  lemma SinglePulseScenario(cfg: Config, crits: Crits, eventId: Id, indicatorId: Id)
    requires
      var p := Pulse("p1", "Test", "", "", [], ["malware"],
                     [IndicatorRecord("IPv4", "1.2.3.4"), IndicatorRecord("Yara", "rule1")]);
      && crits.eventCount(EventCount("p1")) == 0
      && crits.addEvent(EventCall(cfg, p)) == Some(eventId)
      && crits.addIndicator(AddIndicator(Ipv4Address, "1.2.3.4", cfg.critsSource, Auth(cfg)))
         == Some(IndicatorReply(0, indicatorId))
    ensures
      var p := Pulse("p1", "Test", "", "", [], ["malware"],
                     [IndicatorRecord("IPv4", "1.2.3.4"), IndicatorRecord("Yara", "rule1")]);
      PulseCalls(cfg, crits, p) == [
        EventCount("p1"),
        AddEvent("Intel Sharing", "Test", "No description given.", cfg.critsSource,
                 EventParams("malware", "No description given.", "No reference documented", "otx2crits")),
        AddTicket(EventUrl(cfg, eventId), eventId, "p1", Auth(cfg)),
        AddIndicator(Ipv4Address, "1.2.3.4", cfg.critsSource, Auth(cfg)),
        RelationshipCall(cfg, eventId, indicatorId)]
  {
    var ipv4, yara := IndicatorRecord("IPv4", "1.2.3.4"), IndicatorRecord("Yara", "rule1");
    var p := Pulse("p1", "Test", "", "", [], ["malware"], [ipv4, yara]);
    assert IndicatorCalls(cfg, p.indicators) == [AddIndicator(Ipv4Address, "1.2.3.4", cfg.critsSource, Auth(cfg))] by {
      assert MapType("Yara") == NoEquivalent && MapType("IPv4") == Mapped(Ipv4Address);
      SelectSnoc([], ipv4, IndicatorChoice(cfg));
      SelectSnoc([ipv4], yara, IndicatorChoice(cfg));
      assert [] + [ipv4] == [ipv4] && [ipv4] + [yara] == p.indicators;
    }
    assert KeptIds(cfg, crits, p.indicators) == [indicatorId] by {
      assert MapType("Yara") == NoEquivalent && MapType("IPv4") == Mapped(Ipv4Address);
      SelectSnoc([], ipv4, KeptChoice(cfg, crits));
      SelectSnoc([ipv4], yara, KeptChoice(cfg, crits));
      assert [] + [ipv4] == [ipv4] && [ipv4] + [yara] == p.indicators;
    }
    assert Join(["malware"], ',') == "malware";
  }
}
