/** The health check (infra/infra/lambda/health_handler.py): the fixed demo
    zone's item must exist and carry the four fields the read side needs;
    the answer is PASS with the score and confidence, or FAIL with a reason
    and, for absent fields, the list of them in a fixed order. */
module HealthApi {
  import opened Wrappers
  import opened ScoreRecords

  /** The zone whose record is checked. */
  const CheckedZone: string := DemoZone3

  /** The fields a healthy record carries, in the order they are reported. */
  const RequiredFields: seq<string> := ["future_value_score", "confidence", "momentum", "updated_at"]

  /** `xs` is `ys` with some elements left out, the rest in their order. */
  predicate IsSubsequence(xs: seq<string>, ys: seq<string>) {
    if xs == [] then true
    else if ys == [] then false
    else if xs[0] == ys[0] then IsSubsequence(xs[1..], ys[1..])
    else IsSubsequence(xs, ys[1..])
  }

  /** `[k for k in required if k not in item]`: exactly the required keys the
      item lacks, in the order of `required`. */
  function MissingFields(required: seq<string>, item: Item): (m: seq<string>)
    ensures forall k :: k in m <==> k in required && k !in item
    ensures IsSubsequence(m, required)
    ensures |m| <= |required|
  {
    if required == [] then []
    else
      var rest := MissingFields(required[1..], item);
      if required[0] !in item then [required[0]] + rest else rest
  }

  datatype HealthFailure = TableNotSet | MissingItem(irisId: string) | MissingFieldList(missing: seq<string>)

  datatype HealthResponse =
    | Fail(reason: HealthFailure)
    | Raised
    | Pass(checkedIrisId: string, futureValueScore: Attr, confidence: Attr)
  {
    /** The HTTP status; `None` when the handler raises instead of answering. */
    function StatusCode(): Option<int> {
      match this
      case Fail(_) => Some(500)
      case Raised => None
      case Pass(_, _, _) => Some(200)
    }
  }

  /** `json.dumps` of the PASS body succeeds: the score and the confidence
      go through `_to_float`. */
  predicate Answerable(item: Item) {
    DumpableAsFloat(Get(item, "future_value_score")) && DumpableAsFloat(Get(item, "confidence"))
  }

  /** The check as a decision tree over the table. */
  function HealthCheck(table: Option<ScoreTable>): (r: HealthResponse)
    ensures table.None? ==> r == Fail(TableNotSet)
    ensures table.Some? && FoundItem(table.value, CheckedZone).None? ==> r == Fail(MissingItem(CheckedZone))
    ensures r.Pass? <==>
              table.Some? && FoundItem(table.value, CheckedZone).Some? &&
              (forall k :: k in RequiredFields ==> k in table.value[CheckedZone]) &&
              Answerable(table.value[CheckedZone])
    ensures r == Raised <==>
              table.Some? && FoundItem(table.value, CheckedZone).Some? &&
              (forall k :: k in RequiredFields ==> k in table.value[CheckedZone]) &&
              !Answerable(table.value[CheckedZone])
    ensures r.Pass? ==>
              r.checkedIrisId == CheckedZone &&
              r.futureValueScore == table.value[CheckedZone]["future_value_score"] &&
              r.confidence == table.value[CheckedZone]["confidence"]
    ensures table.Some? && FoundItem(table.value, CheckedZone).Some? &&
            MissingFields(RequiredFields, table.value[CheckedZone]) != [] ==>
              r == Fail(MissingFieldList(MissingFields(RequiredFields, table.value[CheckedZone])))
    ensures r.Fail? && r.reason.MissingFieldList? ==>
              r.reason.missing != [] &&
              r.reason.missing == MissingFields(RequiredFields, table.value[CheckedZone])
  {
    if table.None? then Fail(TableNotSet)
    else match FoundItem(table.value, CheckedZone)
      case None => Fail(MissingItem(CheckedZone))
      case Some(item) =>
        var missing := MissingFields(RequiredFields, item);
        if missing != [] then
          assert missing[0] in missing;
          Fail(MissingFieldList(missing))
        else
          assert "future_value_score" in RequiredFields && "confidence" in RequiredFields;
          if !Answerable(item) then Raised
          else Pass(CheckedZone, item["future_value_score"], item["confidence"])
  }

  /** A record holding every required field except `confidence` fails with
      exactly `["confidence"]`. */
  lemma OnlyConfidenceMissing(table: ScoreTable)
    requires CheckedZone in table
    requires var item := table[CheckedZone];
             "future_value_score" in item && "momentum" in item && "updated_at" in item &&
             "confidence" !in item
    ensures HealthCheck(Some(table)) == Fail(MissingFieldList(["confidence"]))
  {
    var item := table[CheckedZone];
    assert item != map[] by { assert "momentum" in item; }
    var r := RequiredFields;
    assert r[1..][1..][1..][1..] == [];
    assert MissingFields(r[1..][1..][1..], item) == [];
    assert MissingFields(r[1..][1..], item) == [];
    assert MissingFields(r[1..], item) == ["confidence"];
    assert MissingFields(r, item) == ["confidence"];
  }
}
