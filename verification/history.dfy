/** The dispatch step of `GetIssueEvents`: each envelope of the history
    payload becomes the variant its tag names, keeping only that variant's
    fields; one unknown tag rejects the whole payload. */
module History {
  import opened Wrappers
  import opened Events
  import opened Errors
  import opened Boards

  /** One iteration of the dispatch switch. */
  function DecodeEnvelope(p: Envelope): Result<Event, Error>
  {
    if p.tag == EstimateIssueTag then
      Success(EstimateIssue(p.userID, p.createdAt, p.fromEstimate, p.toEstimate))
    else if p.tag == TransferIssueTag then
      Success(TransferIssue(p.userID, p.createdAt, p.fromPipeline, p.toPipeline))
    else
      Failure(UnknownEventType(p.tag))
  }

  /** What one envelope decodes to: the variant its tag names, reporting that
      tag, with the user, the time and the variant's own optional pair copied
      unchanged (absent stays absent); any other tag is an unknown event type
      carrying that tag. */
  lemma DecodeEnvelopeSpec(p: Envelope)
    ensures DecodeEnvelope(p).Success? <==> IsHistoryTag(p.tag)
    ensures DecodeEnvelope(p).Failure? ==> DecodeEnvelope(p).error == UnknownEventType(p.tag)
    ensures DecodeEnvelope(p).Success? ==>
      var e := DecodeEnvelope(p).value;
      && IsHistory(e) && EventType(e) == p.tag
      && e.userID == p.userID && e.createdAt == p.createdAt
      && (e.EstimateIssue? ==> e.fromEstimate == p.fromEstimate && e.toEstimate == p.toEstimate)
      && (e.TransferIssue? ==> e.fromPipeline == p.fromPipeline && e.toPipeline == p.toPipeline)
  {
  }

  /** The envelope a history event is written as: its own fields, its tag,
      and the other variant's fields absent. */
  function ToEnvelope(e: Event): (p: Envelope)
    requires IsHistory(e)
    ensures p.tag == EventType(e)
  {
    match e
    case EstimateIssue(u, at, from, to) => Envelope(u, EstimateIssueTag, at, from, to, None, None)
    case TransferIssue(u, at, from, to) => Envelope(u, TransferIssueTag, at, None, None, from, to)
  }

  /** The envelope with the fields that do not belong to its tag cleared. */
  function Relevant(p: Envelope): Envelope
  {
    if p.tag == EstimateIssueTag then p.(fromPipeline := None, toPipeline := None)
    else if p.tag == TransferIssueTag then p.(fromEstimate := None, toEstimate := None)
    else p
  }

  /** Decoding inverts `ToEnvelope`: no field of a history event is lost. */
  lemma DecodeEnvelopeInvertsToEnvelope(e: Event)
    requires IsHistory(e)
    ensures DecodeEnvelope(ToEnvelope(e)) == Success(e)
  {
  }

  /** Decoding is selective: what it keeps is exactly the relevant part of the
      envelope, and the other variant's fields have no influence at all. */
  lemma DecodeEnvelopeSelective(p: Envelope)
    ensures DecodeEnvelope(p) == DecodeEnvelope(Relevant(p))
    ensures DecodeEnvelope(p).Success? ==> ToEnvelope(DecodeEnvelope(p).value) == Relevant(p)
  {
  }

  /** `k` is the first envelope whose tag is not a history tag. */
  ghost predicate FirstUnknown(ps: seq<Envelope>, k: int) {
    && 0 <= k < |ps|
    && !IsHistoryTag(ps[k].tag)
    && forall j :: 0 <= j < k ==> IsHistoryTag(ps[j].tag)
  }

  /** The whole dispatch: decode the first envelope, then the rest, stopping
      at the first failure. */
  function DecodeEvents(ps: seq<Envelope>): Result<seq<Event>, Error>
  {
    if |ps| == 0 then Success([])
    else Then(Single(DecodeEnvelope(ps[0])), DecodeEvents(ps[1..]))
  }

  /** Either every envelope decodes, in order and one to one, or the first
      unknown tag is reported and no events at all. */
  lemma {:induction false} DecodeEventsSpec(ps: seq<Envelope>)
    ensures DecodeEvents(ps).Success? <==> forall i :: 0 <= i < |ps| ==> IsHistoryTag(ps[i].tag)
    ensures DecodeEvents(ps).Success? ==> |DecodeEvents(ps).value| == |ps|
    ensures DecodeEvents(ps).Success? ==>
      forall i :: 0 <= i < |ps| ==> DecodeEnvelope(ps[i]) == Success(DecodeEvents(ps).value[i])
    ensures forall k :: FirstUnknown(ps, k) ==> DecodeEvents(ps) == Failure(UnknownEventType(ps[k].tag))
    decreases |ps|
  {
    if |ps| > 0 {
      DecodeEventsSpec(ps[1..]);
      DecodeEnvelopeSpec(ps[0]);
      assert forall i :: 0 < i < |ps| ==> ps[1..][i - 1] == ps[i];
      if DecodeEnvelope(ps[0]).Success? {
        assert forall k :: FirstUnknown(ps, k) ==> FirstUnknown(ps[1..], k - 1);
      } else {
        assert FirstUnknown(ps, 0);
      }
    }
  }

  /** The source's loop: walk the payload in order, build each event, and
      return on the first unknown tag. */
  method DispatchEvents(payload: seq<Envelope>) returns (r: Result<seq<Event>, Error>)
    ensures r == DecodeEvents(payload)
  {
    var events: seq<Event> := [];
    for i := 0 to |payload|
      invariant DecodeEvents(payload[..i]) == Success(events)
    {
      var p := payload[i];
      var event: Event;
      if p.tag == EstimateIssueTag {
        event := EstimateIssue(p.userID, p.createdAt, p.fromEstimate, p.toEstimate);
      } else if p.tag == TransferIssueTag {
        event := TransferIssue(p.userID, p.createdAt, p.fromPipeline, p.toPipeline);
      } else {
        assert payload == payload[..i] + payload[i..];
        DecodeEventsAppend(payload[..i], payload[i..]);
        return Failure(UnknownEventType(p.tag));
      }
      assert payload[..i + 1] == payload[..i] + [p];
      DecodeEventsAppend(payload[..i], [p]);
      DecodeEventsUnfold([p]);
      assert [p][1..] == [];
      assert [event] + [] == [event];
      events := events + [event];
    }
    assert payload[..|payload|] == payload;
    return Success(events);
  }

  /** Decoding a concatenation: the first part's failure wins; otherwise the
      second part's failure; otherwise the two results are concatenated. */
  lemma {:induction false} DecodeEventsAppend(a: seq<Envelope>, b: seq<Envelope>)
    ensures DecodeEvents(a + b) == Then(DecodeEvents(a), DecodeEvents(b))
    decreases |a|
  {
    if |a| == 0 {
      assert a + b == b;
      ThenLeftUnit(DecodeEvents(b));
    } else {
      DecodeEventsAppend(a[1..], b);
      DecodeEventsAppendStep(a, b);
    }
  }

  lemma ThenLeftUnit(y: Result<seq<Event>, Error>)
    ensures Then(Success([]), y) == y
  {
    if y.Success? {
      assert [] + y.value == y.value;
    }
  }

  /** The inductive step of `DecodeEventsAppend`: peel the first envelope. */
  lemma DecodeEventsAppendStep(a: seq<Envelope>, b: seq<Envelope>)
    requires 0 < |a|
    requires DecodeEvents(a[1..] + b) == Then(DecodeEvents(a[1..]), DecodeEvents(b))
    ensures DecodeEvents(a + b) == Then(DecodeEvents(a), DecodeEvents(b))
  {
    DecodeEventsAppendHead(a, b);
    DecodeEventsUnfold(a);
    ThenAssociative(DecodeEnvelope(a[0]), DecodeEvents(a[1..]), DecodeEvents(b));
  }

  /** The first envelope of a concatenation is the first envelope of its
      non-empty left part. */
  lemma DecodeEventsAppendHead(a: seq<Envelope>, b: seq<Envelope>)
    requires 0 < |a|
    ensures DecodeEvents(a + b) == Then(Single(DecodeEnvelope(a[0])), DecodeEvents(a[1..] + b))
  {
    assert (a + b)[1..] == a[1..] + b;
    assert (a + b)[0] == a[0];
    DecodeEventsUnfold(a + b);
  }

  /** All-or-nothing sequencing of two decode results, left failure first. */
  function Then(x: Result<seq<Event>, Error>, y: Result<seq<Event>, Error>): Result<seq<Event>, Error>
  {
    if x.Failure? then x
    else if y.Failure? then y
    else Success(x.value + y.value)
  }

  function Single(x: Result<Event, Error>): Result<seq<Event>, Error>
  {
    if x.Failure? then Failure(x.error) else Success([x.value])
  }

  /** Decoding a non-empty payload: its first envelope, then the rest. */
  lemma DecodeEventsUnfold(ps: seq<Envelope>)
    requires 0 < |ps|
    ensures DecodeEvents(ps) == Then(Single(DecodeEnvelope(ps[0])), DecodeEvents(ps[1..]))
  {
  }

  lemma ThenAssociative(h: Result<Event, Error>, x: Result<seq<Event>, Error>, y: Result<seq<Event>, Error>)
    ensures Then(Single(h), Then(x, y)) == Then(Then(Single(h), x), y)
  {
    if h.Success? && x.Success? && y.Success? {
      assert [h.value] + (x.value + y.value) == ([h.value] + x.value) + y.value;
    }
  }

  /** Every decoded event reports its envelope's tag, and so does the
      source's tag map, since it is only wrong for the webhook variant. */
  lemma DecodedEventsKeepTags(ps: seq<Envelope>)
    ensures DecodeEvents(ps).Success? ==>
      && |DecodeEvents(ps).value| == |ps|
      && forall i :: 0 <= i < |ps| ==>
        EventType(DecodeEvents(ps).value[i]) == ps[i].tag
        && EventTypeAsWritten(DecodeEvents(ps).value[i]) == ps[i].tag
  {
    DecodeEventsSpec(ps);
    if DecodeEvents(ps).Success? {
      forall i | 0 <= i < |ps|
        ensures EventType(DecodeEvents(ps).value[i]) == ps[i].tag
      {
        assert DecodeEnvelope(ps[i]) == Success(DecodeEvents(ps).value[i]);
        DecodeEnvelopeSpec(ps[i]);
      }
    }
  }

  function ToEnvelopes(es: seq<Event>): (ps: seq<Envelope>)
    requires forall i :: 0 <= i < |es| ==> IsHistory(es[i])
    ensures |ps| == |es|
    ensures forall i :: 0 <= i < |es| ==> ps[i] == ToEnvelope(es[i])
  {
    seq(|es|, i requires 0 <= i < |es| => ToEnvelope(es[i]))
  }

  /** A sequence of history events survives being written as envelopes and
      decoded again. */
  lemma DecodeEventsRoundTrip(es: seq<Event>)
    requires forall i :: 0 <= i < |es| ==> IsHistory(es[i])
    ensures DecodeEvents(ToEnvelopes(es)) == Success(es)
  {
    var ps := ToEnvelopes(es);
    forall i | 0 <= i < |ps|
      ensures IsHistoryTag(ps[i].tag)
    {
      DecodeEnvelopeInvertsToEnvelope(es[i]);
    }
    DecodeEventsSpec(ps);
    var r := DecodeEvents(ps);
    forall i | 0 <= i < |es|
      ensures r.value[i] == es[i]
    {
      DecodeEnvelopeInvertsToEnvelope(es[i]);
    }
    assert r.value == es;
  }

  /** The successful history of the source's test: three estimate changes and
      two moves, absent estimates and pipelines staying absent. */
  lemma HistoryScenario(t1: Instant, t2: Instant, t3: Instant, t4: Instant, t5: Instant)
    ensures var backlog := Pipeline("", "Backlog", []);
      var inProgress := Pipeline("", "In progress", []);
      DecodeEvents([
        Envelope(16717, "estimateIssue", t1, Some(Estimate(8)), None, None, None),
        Envelope(16717, "estimateIssue", t2, Some(Estimate(4)), Some(Estimate(8)), None, None),
        Envelope(16717, "estimateIssue", t3, None, Some(Estimate(4)), None, None),
        Envelope(16717, "transferIssue", t4, None, None, Some(backlog), Some(inProgress)),
        Envelope(16717, "transferIssue", t5, None, None, None, Some(backlog))])
      == Success([
        EstimateIssue(16717, t1, Some(Estimate(8)), None),
        EstimateIssue(16717, t2, Some(Estimate(4)), Some(Estimate(8))),
        EstimateIssue(16717, t3, None, Some(Estimate(4))),
        TransferIssue(16717, t4, Some(backlog), Some(inProgress)),
        TransferIssue(16717, t5, None, Some(backlog))])
  {
    var backlog := Pipeline("", "Backlog", []);
    var inProgress := Pipeline("", "In progress", []);
    var es := [
        EstimateIssue(16717, t1, Some(Estimate(8)), None),
        EstimateIssue(16717, t2, Some(Estimate(4)), Some(Estimate(8))),
        EstimateIssue(16717, t3, None, Some(Estimate(4))),
        TransferIssue(16717, t4, Some(backlog), Some(inProgress)),
        TransferIssue(16717, t5, None, Some(backlog))];
    DecodeEventsRoundTrip(es);
    assert ToEnvelopes(es) == [
        Envelope(16717, "estimateIssue", t1, Some(Estimate(8)), None, None, None),
        Envelope(16717, "estimateIssue", t2, Some(Estimate(4)), Some(Estimate(8)), None, None),
        Envelope(16717, "estimateIssue", t3, None, Some(Estimate(4)), None, None),
        Envelope(16717, "transferIssue", t4, None, None, Some(backlog), Some(inProgress)),
        Envelope(16717, "transferIssue", t5, None, None, None, Some(backlog))];
  }
}
