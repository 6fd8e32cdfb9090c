/** The score lookup (infra/infra/lambda/score_handler.py): check the table
    is configured, read `lat` and `lng` from the query string, map them to a
    demo zone, look the zone up and return its score fields and its
    `;`-separated top signals.

    `parseFloat` stands for Python's `float()` on a query value: the number,
    or `None` where `float()` raises `ValueError`. `table` is `None` when no
    table name is configured. */
module ScoreApi {
  import opened Wrappers
  import opened Text
  import opened ScoreRecords

  /** The demo coordinate mapping: latitude first, then longitude. */
  function DemoIrisFromLatLng(lat: real, lng: real): (z: string)
    ensures IsDemoZone(z)
    ensures z == DemoZone1 <==> lat >= 48.86
    ensures z == DemoZone2 <==> lat < 48.86 && lng >= 2.36
    ensures z == DemoZone3 <==> lat < 48.86 && lng < 2.36
  {
    if lat >= 48.86 then DemoZone1
    else if lng >= 2.36 then DemoZone2
    else DemoZone3
  }

  /** What a successful lookup returns. `irisId` is the item's own
      `iris_id` attribute, not the zone that was looked up. */
  datatype ScoreView = ScoreView(irisId: Option<Attr>, fields: ScoreFields, topSignals: seq<string>)

  datatype ScoreResponse =
    | Unconfigured
    | MissingParams
    | NotNumbers
    | NotFound(irisId: string)
    | Raised
    | Found(view: ScoreView)
  {
    /** The HTTP status; `None` when the handler raises instead of answering. */
    function StatusCode(): Option<int> {
      match this
      case Unconfigured => Some(500)
      case MissingParams => Some(400)
      case NotNumbers => Some(400)
      case NotFound(_) => Some(404)
      case Raised => None
      case Found(_) => Some(200)
    }
  }

  /** Both coordinates are present and parse as numbers. */
  predicate Parsed(query: map<string, string>, parseFloat: string -> Option<real>) {
    "lat" in query && "lng" in query && parseFloat(query["lat"]).Some? && parseFloat(query["lng"]).Some?
  }

  /** The zone the parsed coordinates map to. */
  function Zone(query: map<string, string>, parseFloat: string -> Option<real>): string
    requires Parsed(query, parseFloat)
  {
    DemoIrisFromLatLng(parseFloat(query["lat"]).value, parseFloat(query["lng"]).value)
  }

  /** `json.dumps(out)` succeeds on the item's fields: its own `iris_id`,
      `city`, `momentum` and `updated_at` are passed on unchanged. */
  predicate Answerable(item: Item) {
    Dumpable(Get(item, "iris_id")) && FieldsDumpable(FieldsOf(item))
  }

  /** The handler as a decision tree over its inputs. */
  function ScoreHandler(table: Option<ScoreTable>, query: map<string, string>,
                        parseFloat: string -> Option<real>): (r: ScoreResponse)
    ensures table.None? <==> r == Unconfigured
    ensures r == MissingParams <==> table.Some? && ("lat" !in query || "lng" !in query)
    ensures r == NotNumbers <==>
              table.Some? && "lat" in query && "lng" in query &&
              (parseFloat(query["lat"]).None? || parseFloat(query["lng"]).None?)
    ensures r.NotFound? <==>
              table.Some? && Parsed(query, parseFloat) &&
              FoundItem(table.value, Zone(query, parseFloat)).None?
    ensures r == Raised <==>
              table.Some? && Parsed(query, parseFloat) &&
              FoundItem(table.value, Zone(query, parseFloat)).Some? &&
              (TopSignalsText(table.value[Zone(query, parseFloat)]).None? ||
               !Answerable(table.value[Zone(query, parseFloat)]))
    ensures r.Found? <==>
              table.Some? && Parsed(query, parseFloat) &&
              FoundItem(table.value, Zone(query, parseFloat)).Some? &&
              TopSignalsText(table.value[Zone(query, parseFloat)]).Some? &&
              Answerable(table.value[Zone(query, parseFloat)])
    ensures r.NotFound? ==> IsDemoZone(r.irisId) && r.irisId == Zone(query, parseFloat)
    ensures r.Found? ==>
              var zone := Zone(query, parseFloat);
              r.view.irisId == Get(table.value[zone], "iris_id") &&
              r.view.fields == FieldsOf(table.value[zone]) &&
              r.view.topSignals == TopSignals(TopSignalsText(table.value[zone]).value, ';')
    ensures r.Found? ==> forall s :: s in r.view.topSignals ==> CleanPiece(s) && ';' !in s
  {
    if table.None? then Unconfigured
    else if "lat" !in query || "lng" !in query then MissingParams
    else
      var lat := parseFloat(query["lat"]);
      var lng := parseFloat(query["lng"]);
      if lat.None? || lng.None? then NotNumbers
      else
        var irisId := DemoIrisFromLatLng(lat.value, lng.value);
        match FoundItem(table.value, irisId)
        case None => NotFound(irisId)
        case Some(item) =>
          match TopSignalsText(item)
          case None => Raised
          case Some(raw) =>
            if !Answerable(item) then Raised
            else
              TopSignalsAreClean(raw, ';');
              Found(ScoreView(Get(item, "iris_id"), FieldsOf(item), TopSignals(raw, ';')))
  }

  /** A number stored in a field that is passed on without `_to_float`
      makes `json.dumps(out)` raise, so the lookup does not answer. */
  lemma PassedThroughNumberRaises(table: ScoreTable, query: map<string, string>,
                                  parseFloat: string -> Option<real>, key: string)
    requires Parsed(query, parseFloat) && FoundItem(table, Zone(query, parseFloat)).Some?
    requires key == "iris_id" || key == "city" || key == "momentum" || key == "updated_at"
    requires key in table[Zone(query, parseFloat)] && table[Zone(query, parseFloat)][key].Num?
    ensures ScoreHandler(Some(table), query, parseFloat) == Raised
  {
  }

  /** An item whose `updated_at` is a stored number, looked up at (49, 2). */
  lemma NumericTimestampRaises(parseFloat: string -> Option<real>)
    requires parseFloat("49") == Some(49.0) && parseFloat("2") == Some(2.0)
    ensures ScoreHandler(Some(map[DemoZone1 := map["iris_id" := Str(DemoZone1), "updated_at" := Num(1700000000.0)]]),
                         map["lat" := "49", "lng" := "2"], parseFloat) == Raised
  {
    var item := map["iris_id" := Str(DemoZone1), "updated_at" := Num(1700000000.0)];
    var query := map["lat" := "49", "lng" := "2"];
    assert Zone(query, parseFloat) == DemoZone1;
    assert item != map[] by { assert "iris_id" in item; }
    PassedThroughNumberRaises(map[DemoZone1 := item], query, parseFloat, "updated_at");
  }
}
