/** `ParseWebhookEvent`: one form-encoded notification becomes one
    `IssueTransferWebhook` event. The form arrives already split into its
    key/value pairs, in order of appearance (or as the parse error). */
module Webhooks {
  import opened Wrappers
  import opened Events
  import opened Errors

  /** The decoded pairs of a form body, in the order they appear. */
  type Form = seq<(string, string)>

  /** `i` is the first position of `key` in the form. */
  ghost predicate FirstWith(q: Form, key: string, i: int) {
    && 0 <= i < |q|
    && q[i].0 == key
    && forall j :: 0 <= j < i ==> q[j].0 != key
  }

  /** `url.Values.Get`: the first value given for the key, or the empty string
      when the key does not occur. */
  function Get(q: Form, key: string): string
  {
    if |q| == 0 then ""
    else if q[0].0 == key then q[0].1
    else Get(q[1..], key)
  }

  /** What `Get` reads: the value at the first occurrence of the key, and the
      empty string when there is none. */
  lemma {:induction false} GetReadsFirst(q: Form, key: string)
    ensures (forall i :: 0 <= i < |q| ==> q[i].0 != key) ==> Get(q, key) == ""
    ensures forall i :: FirstWith(q, key, i) ==> Get(q, key) == q[i].1
    decreases |q|
  {
    if |q| > 0 && q[0].0 != key {
      GetReadsFirst(q[1..], key);
      assert forall i :: FirstWith(q, key, i) ==> FirstWith(q[1..], key, i - 1);
    }
  }

  /** A repeated key does not override: appending another value for a key
      already present leaves `Get` unchanged, and for an absent key the
      appended value is the one read. */
  lemma GetFirstValueWins(q: Form, key: string, v: string)
    ensures (exists i :: 0 <= i < |q| && q[i].0 == key) ==> Get(q + [(key, v)], key) == Get(q, key)
    ensures (forall i :: 0 <= i < |q| ==> q[i].0 != key) ==> Get(q + [(key, v)], key) == v
  {
    var q' := q + [(key, v)];
    GetReadsFirst(q, key);
    GetReadsFirst(q', key);
    if i :| 0 <= i < |q| && q[i].0 == key {
      var k := FirstIndex(q, key, i);
      assert FirstWith(q', key, k);
    } else {
      assert FirstWith(q', key, |q|);
    }
  }

  /** The first position of a key known to occur at or before `bound`. */
  lemma {:induction false} FirstIndex(q: Form, key: string, bound: int) returns (k: int)
    requires 0 <= bound < |q| && q[bound].0 == key
    ensures FirstWith(q, key, k) && k <= bound
    decreases bound
  {
    if j :| 0 <= j < bound && q[j].0 == key {
      k := FirstIndex(q, key, j);
    } else {
      k := bound;
    }
  }

  /** The form keys of the eight event fields, in declaration order. */
  const FieldKeys: seq<string> := [
    "github_url", "organization", "repo", "user_name",
    "issue_number", "issue_title", "to_pipeline_name", "from_pipeline_name"]

  /** The field keys are pairwise distinct and none of them is `type`. */
  lemma FieldKeysDistinct()
    ensures forall i, k :: 0 <= i < k < |FieldKeys| ==> FieldKeys[i] != FieldKeys[k]
    ensures forall i :: 0 <= i < |FieldKeys| ==> FieldKeys[i] != "type"
  {
  }

  /** The eight fields of a webhook event, in the order of `FieldKeys`. */
  function Fields(e: Event): (fs: seq<string>)
    requires e.IssueTransferWebhook?
    ensures |fs| == |FieldKeys|
  {
    [e.gitHubURL, e.organization, e.repo, e.userName,
     e.issueNumber, e.issueTitle, e.toPipelineName, e.fromPipelineName]
  }

  lemma FieldsInjective(a: Event, b: Event)
    requires a.IssueTransferWebhook? && b.IssueTransferWebhook?
    ensures Fields(a) == Fields(b) <==> a == b
  {
    if Fields(a) == Fields(b) {
      assert Fields(a)[0] == Fields(b)[0] && Fields(a)[1] == Fields(b)[1];
      assert Fields(a)[2] == Fields(b)[2] && Fields(a)[3] == Fields(b)[3];
      assert Fields(a)[4] == Fields(b)[4] && Fields(a)[5] == Fields(b)[5];
      assert Fields(a)[6] == Fields(b)[6] && Fields(a)[7] == Fields(b)[7];
    }
  }

  /** Dispatch on the form's `type`. A parse failure is reported, wrapped,
      before any dispatch; the issue-transfer tag yields the event with every
      field read from its key; any other value, the empty one included, is an
      unknown event type carrying that value. */
  function ParseWebhookEvent(parsed: Result<Form, string>): (r: Result<Event, Error>)
    ensures parsed.Failure? ==> r == Failure(DataNotParsed(parsed.error))
    ensures parsed.Success? ==> (r.Success? <==> Get(parsed.value, "type") == IssueTransferTag)
    ensures parsed.Success? && r.Failure? ==> r.error == UnknownEventType(Get(parsed.value, "type"))
    ensures r.Success? ==> r.value.IssueTransferWebhook?
    ensures r.Success? ==> forall j :: 0 <= j < |FieldKeys| ==> Fields(r.value)[j] == Get(parsed.value, FieldKeys[j])
  {
    match parsed
    case Failure(cause) => Failure(DataNotParsed(cause))
    case Success(q) =>
      var t := Get(q, "type");
      if t == IssueTransferTag then
        var e := IssueTransferWebhook(
          Get(q, "github_url"), Get(q, "organization"), Get(q, "repo"), Get(q, "user_name"),
          Get(q, "issue_number"), Get(q, "issue_title"), Get(q, "to_pipeline_name"), Get(q, "from_pipeline_name"));
        Success(e)
      else
        Failure(UnknownEventType(t))
  }

  /** The form a webhook event is posted as: its tag first, then one pair per field. */
  function EncodeForm(e: Event): (q: Form)
    requires e.IssueTransferWebhook?
    ensures |q| == |FieldKeys| + 1
  {
    [("type", IssueTransferTag)] + seq(|FieldKeys|, j requires 0 <= j < |FieldKeys| => (FieldKeys[j], Fields(e)[j]))
  }

  /** Parsing inverts `EncodeForm`: every field survives the form unchanged,
      `IssueNumber` included, which stays text. */
  lemma WebhookRoundTrip(e: Event)
    requires e.IssueTransferWebhook?
    ensures ParseWebhookEvent(Success(EncodeForm(e))) == Success(e)
  {
    var q := EncodeForm(e);
    assert FirstWith(q, "type", 0);
    GetReadsFirst(q, "type");
    var r := ParseWebhookEvent(Success(q));
    FieldKeysDistinct();
    forall j | 0 <= j < |FieldKeys|
      ensures Fields(r.value)[j] == Fields(e)[j]
    {
      assert q[j + 1] == (FieldKeys[j], Fields(e)[j]);
      assert forall k :: 0 <= k < j + 1 ==> q[k].0 != FieldKeys[j];
      assert FirstWith(q, FieldKeys[j], j + 1);
      GetReadsFirst(q, FieldKeys[j]);
    }
    assert Fields(r.value) == Fields(e);
    FieldsInjective(r.value, e);
  }

  /** A key missing from the form gives an empty field, not an error. */
  lemma MissingFieldIsEmpty(q: Form, j: int)
    requires 0 <= j < |FieldKeys|
    requires forall i :: 0 <= i < |q| ==> q[i].0 != FieldKeys[j]
    ensures ParseWebhookEvent(Success(q)).Success? ==> Fields(ParseWebhookEvent(Success(q)).value)[j] == ""
  {
    GetReadsFirst(q, FieldKeys[j]);
  }

  /** A form without a `type` key is rejected with the empty tag. */
  lemma MissingTypeRejected(q: Form)
    requires forall i :: 0 <= i < |q| ==> q[i].0 != "type"
    ensures ParseWebhookEvent(Success(q)) == Failure(UnknownEventType(""))
  {
    GetReadsFirst(q, "type");
  }

  /** With the corrected tag map, a parsed webhook event reports the
      discriminator it was dispatched on. */
  lemma WebhookTagMatchesDiscriminator(q: Form)
    ensures ParseWebhookEvent(Success(q)).Success? ==>
      EventType(ParseWebhookEvent(Success(q)).value) == Get(q, "type")
  {
  }

  /** With the tag map as written, every parsed webhook event reports the
      estimate tag instead of its discriminator; the smallest form shows it. */
  lemma WebhookTagAsWrittenMismatch(q: Form)
    ensures ParseWebhookEvent(Success(q)).Success? ==>
      EventTypeAsWritten(ParseWebhookEvent(Success(q)).value) == EstimateIssueTag != Get(q, "type")
    ensures var small := [("type", IssueTransferTag)];
      && ParseWebhookEvent(Success(small)).Success?
      && EventTypeAsWritten(ParseWebhookEvent(Success(small)).value) != Get(small, "type")
  {
    var small := [("type", IssueTransferTag)];
    assert FirstWith(small, "type", 0);
    GetReadsFirst(small, "type");
  }

  /** The issue-transfer notification of the source's test, with its body
      already form-decoded. */
  lemma IssueTransferScenario()
    ensures var q := [
        ("type", "issue_transfer"),
        ("github_url", "https://github.com/manifoldco/engineering/issues/5675"),
        ("organization", "manifoldco"), ("repo", "engineering"), ("user_name", "luizbranco"),
        ("issue_number", "5675"), ("issue_title", "Test event listener"),
        ("to_pipeline_name", "In Progress"), ("from_pipeline_name", "Backlog")];
      ParseWebhookEvent(Success(q)) == Success(IssueTransferWebhook(
        "https://github.com/manifoldco/engineering/issues/5675", "manifoldco", "engineering", "luizbranco",
        "5675", "Test event listener", "In Progress", "Backlog"))
  {
    var e := IssueTransferWebhook(
      "https://github.com/manifoldco/engineering/issues/5675", "manifoldco", "engineering", "luizbranco",
      "5675", "Test event listener", "In Progress", "Backlog");
    WebhookRoundTrip(e);
    assert EncodeForm(e) == [
        ("type", "issue_transfer"),
        ("github_url", "https://github.com/manifoldco/engineering/issues/5675"),
        ("organization", "manifoldco"), ("repo", "engineering"), ("user_name", "luizbranco"),
        ("issue_number", "5675"), ("issue_title", "Test event listener"),
        ("to_pipeline_name", "In Progress"), ("from_pipeline_name", "Backlog")];
  }

  /** Any other type, as in the source's test, is rejected with that tag. */
  lemma OtherTypeScenario()
    ensures ParseWebhookEvent(Success([("type", "estimate_set")])) == Failure(UnknownEventType("estimate_set"))
  {
    assert FirstWith([("type", "estimate_set")], "type", 0);
    GetReadsFirst([("type", "estimate_set")], "type");
  }
}
