/** The explanation lookup (infra/infra/lambda/explain_handler.py): the
    zone comes from `iris_id` when it is given and non-empty, otherwise from
    a `lat`/`lng` pair when both are non-empty; the item's score fields and
    its `|`-separated top signals are returned with the resolved zone id.
    The explanation's template sentences and the fixed limitation, ethics,
    next-step and roadmap lists are left out.

    `parseFloat` and `table` are as in ScoreApi. */
module ExplainApi {
  import opened Wrappers
  import opened Text
  import opened ScoreRecords
  import ScoreApi

  /** The handler's own copy of the demo coordinate mapping. */
  function DemoIrisFromLatLng(lat: real, lng: real): (z: string)
    ensures IsDemoZone(z)
    ensures z == DemoZone1 <==> lat >= 48.86
    ensures z == DemoZone2 <==> lat < 48.86 && lng >= 2.36
  {
    if lat >= 48.86 then DemoZone1
    else if lng >= 2.36 then DemoZone2
    else DemoZone3
  }

  /** The copy agrees with the score lookup's mapping everywhere, as its
      comment asks. */
  lemma MappingMatchesScoreApi(lat: real, lng: real)
    ensures DemoIrisFromLatLng(lat, lng) == ScoreApi.DemoIrisFromLatLng(lat, lng)
  {
  }

  /** A query parameter that is present and non-empty (Python truthiness). */
  predicate Given(query: map<string, string>, key: string) {
    key in query && query[key] != ""
  }

  /** What a successful lookup returns. */
  datatype ExplainView = ExplainView(irisId: string, fields: ScoreFields, topSignals: seq<string>)

  datatype ExplainResponse =
    | Unconfigured
    | NotNumbers
    | MissingTarget
    | NotFound(irisId: string)
    | Raised
    | Found(view: ExplainView)
  {
    /** The HTTP status; `None` when the handler raises instead of answering. */
    function StatusCode(): Option<int> {
      match this
      case Unconfigured => Some(500)
      case NotNumbers => Some(400)
      case MissingTarget => Some(400)
      case NotFound(_) => Some(404)
      case Raised => None
      case Found(_) => Some(200)
    }
  }

  /** Which zone the query asks about: `None` for malformed numbers, `Some("")`
      when it names none. */
  function Target(query: map<string, string>, parseFloat: string -> Option<real>): (t: Option<string>)
    ensures Given(query, "iris_id") ==> t == Some(query["iris_id"])
    ensures t.None? <==> !Given(query, "iris_id") && Given(query, "lat") && Given(query, "lng") &&
                         (parseFloat(query["lat"]).None? || parseFloat(query["lng"]).None?)
    ensures t == Some("") <==> !Given(query, "iris_id") && !(Given(query, "lat") && Given(query, "lng"))
    ensures t.Some? && t.value != "" && !Given(query, "iris_id") ==>
              t.value == DemoIrisFromLatLng(parseFloat(query["lat"]).value, parseFloat(query["lng"]).value)
  {
    var irisId := if "iris_id" in query then query["iris_id"] else "";
    if irisId != "" then Some(irisId)
    else if Given(query, "lat") && Given(query, "lng") then
      var lat := parseFloat(query["lat"]);
      var lng := parseFloat(query["lng"]);
      if lat.None? || lng.None? then None
      else Some(DemoIrisFromLatLng(lat.value, lng.value))
    else Some("")
  }

  /** The handler as a decision tree over its inputs. */
  function ExplainHandler(table: Option<ScoreTable>, query: map<string, string>,
                          parseFloat: string -> Option<real>): (r: ExplainResponse)
    ensures table.None? <==> r == Unconfigured
    ensures r == NotNumbers <==> table.Some? && Target(query, parseFloat).None?
    ensures r == MissingTarget <==> table.Some? && Target(query, parseFloat) == Some("")
    ensures r.NotFound? <==>
              table.Some? && Target(query, parseFloat).Some? && Target(query, parseFloat).value != "" &&
              FoundItem(table.value, Target(query, parseFloat).value).None?
    ensures r.NotFound? ==> r.irisId == Target(query, parseFloat).value
    ensures r == Raised <==>
              table.Some? && Target(query, parseFloat).Some? && Target(query, parseFloat).value != "" &&
              FoundItem(table.value, Target(query, parseFloat).value).Some? &&
              (TopSignalsText(table.value[Target(query, parseFloat).value]).None? ||
               !FieldsDumpable(FieldsOf(table.value[Target(query, parseFloat).value])))
    ensures r.Found? <==>
              table.Some? && Target(query, parseFloat).Some? && Target(query, parseFloat).value != "" &&
              FoundItem(table.value, Target(query, parseFloat).value).Some? &&
              TopSignalsText(table.value[Target(query, parseFloat).value]).Some? &&
              FieldsDumpable(FieldsOf(table.value[Target(query, parseFloat).value]))
    ensures r.Found? ==>
              var zone := Target(query, parseFloat).value;
              table.Some? && zone != "" && FoundItem(table.value, zone).Some? &&
              r.view.irisId == zone &&
              r.view.fields == FieldsOf(table.value[zone]) &&
              TopSignalsText(table.value[zone]).Some? &&
              r.view.topSignals == TopSignals(TopSignalsText(table.value[zone]).value, '|')
    ensures r.Found? ==> forall s :: s in r.view.topSignals ==> CleanPiece(s) && '|' !in s
  {
    if table.None? then Unconfigured
    else match Target(query, parseFloat)
      case None => NotNumbers
      case Some(irisId) =>
        if irisId == "" then MissingTarget
        else match FoundItem(table.value, irisId)
          case None => NotFound(irisId)
          case Some(item) =>
            match TopSignalsText(item)
            case None => Raised
            case Some(raw) =>
              if !FieldsDumpable(FieldsOf(item)) then Raised
              else
                TopSignalsAreClean(raw, '|');
                Found(ExplainView(irisId, FieldsOf(item), TopSignals(raw, '|')))
  }

  /** A non-empty `iris_id` wins: the coordinates, and whether they parse,
      change nothing. */
  lemma IrisIdTakesPrecedence(table: Option<ScoreTable>, query: map<string, string>,
                              parseFloat: string -> Option<real>, lat: string, lng: string,
                              otherParse: string -> Option<real>)
    requires Given(query, "iris_id")
    ensures ExplainHandler(table, query["lat" := lat]["lng" := lng], otherParse)
            == ExplainHandler(table, query, parseFloat)
  {
    var q' := query["lat" := lat]["lng" := lng];
    assert Given(q', "iris_id") && q'["iris_id"] == query["iris_id"];
  }

  /** A number stored in `city`, `momentum` or `updated_at` reaches
      `json.dumps(out)` unconverted, so the explanation is not answered. */
  lemma PassedThroughNumberRaises(table: ScoreTable, query: map<string, string>,
                                  parseFloat: string -> Option<real>, key: string)
    requires Target(query, parseFloat).Some? && Target(query, parseFloat).value != ""
    requires FoundItem(table, Target(query, parseFloat).value).Some?
    requires key == "city" || key == "momentum" || key == "updated_at"
    requires key in table[Target(query, parseFloat).value] && table[Target(query, parseFloat).value][key].Num?
    ensures ExplainHandler(Some(table), query, parseFloat) == Raised
  {
  }
}
