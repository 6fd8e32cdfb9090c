/** What the read-side handlers (score_handler.py, explain_handler.py,
    health_handler.py under infra/infra/lambda/) share: the scores table as a
    map from zone id to item, the lookup that treats an empty item as
    missing, the demo zone ids, and the splitting of the stored
    `top_signals` text. */
module ScoreRecords {
  import opened Wrappers
  import opened Text

  /** A stored attribute value as the table client returns it: a string; a
      number (a `Decimal`, kept here as its value); a plain value that
      `json.dumps` writes as it is (a boolean, null, or a list or map holding
      only strings and plain values); or a value `json.dumps` raises on (a
      set, a binary value, or a list or map holding a number, a set or a
      binary value). */
  datatype Attr = Str(s: string) | Num(n: real) | Plain | Unwritable

  type Item = map<string, Attr>

  /** The scores table, keyed by zone id. */
  type ScoreTable = map<string, Item>

  const DemoZone1: string := "PARIS_DEMO_1"
  const DemoZone2: string := "PARIS_DEMO_2"
  const DemoZone3: string := "PARIS_DEMO_3"

  /** The zone ids the demo coordinate mapping can produce. */
  predicate IsDemoZone(z: string) {
    z == DemoZone1 || z == DemoZone2 || z == DemoZone3
  }

  /** `item = table.get_item(...).get("Item")` followed by `if not item`:
      an absent item and an empty one both count as not found. */
  function FoundItem(table: ScoreTable, irisId: string): (r: Option<Item>)
    ensures r.Some? <==> irisId in table && table[irisId] != map[]
    ensures r.Some? ==> r.value == table[irisId]
  {
    if irisId in table && table[irisId] != map[] then Some(table[irisId]) else None
  }

  /** `item.get(key)`. */
  function Get(item: Item, key: string): Option<Attr> {
    if key in item then Some(item[key]) else None
  }

  /** `item.get("top_signals", "")` when it is a string; `None` when the
      stored value is of another kind, on which `split` raises. */
  function TopSignalsText(item: Item): (r: Option<string>)
    ensures "top_signals" !in item ==> r == Some("")
    ensures r.None? <==> "top_signals" in item && !item["top_signals"].Str?
  {
    if "top_signals" !in item then Some("")
    else match item["top_signals"]
      case Str(s) => Some(s)
      case _ => None
  }

  /** `[s.strip() for s in raw.split(sep) if s.strip()]`. */
  function TopSignals(raw: string, sep: char): seq<string> {
    CleanPieces(Split(raw, sep))
  }

  /** Every listed signal is non-empty, has no surrounding whitespace and
      does not contain the separator. */
  lemma TopSignalsAreClean(raw: string, sep: char)
    ensures forall s :: s in TopSignals(raw, sep) ==> CleanPiece(s) && sep !in s
  {
    CleanPiecesAreClean(Split(raw, sep));
    SplitPiecesAvoid(raw, sep);
    CleanPiecesAvoid(Split(raw, sep), sep);
  }

  /** Text without a separator yields its stripped self, or nothing when it
      is blank. */
  lemma TopSignalsWithoutSeparator(raw: string, sep: char)
    requires sep !in raw
    ensures TopSignals(raw, sep) == if Strip(raw) == "" then [] else [Strip(raw)]
  {
    IndexOfAbsent(raw, sep);
    assert Split(raw, sep) == [raw];
  }

  /** The split is a normal form: writing the list back with the separator
      and splitting again gives the same list. */
  lemma TopSignalsCanonical(raw: string, sep: char)
    ensures TopSignals(Join(TopSignals(raw, sep), [sep]), sep) == TopSignals(raw, sep)
  {
    var xs := TopSignals(raw, sep);
    TopSignalsAreClean(raw, sep);
    if xs == [] {
      IndexOfAbsent("", sep);
      assert Split("", sep) == [""];
    } else {
      SplitJoin(xs, sep);
      CleanPiecesOfClean(xs);
    }
  }

  /** The score fields the read handlers return, each as `item.get(key)`. */
  datatype ScoreFields = ScoreFields(city: Attr, futureValueScore: Option<Attr>,
                                     momentum: Option<Attr>, confidence: Option<Attr>,
                                     dataFreshnessDays: Option<Attr>, updatedAt: Option<Attr>)

  /** Reading the score fields; the city defaults to Paris. */
  function FieldsOf(item: Item): ScoreFields
  {
    ScoreFields(Get(item, "city").GetOr(Str("Paris")), Get(item, "future_value_score"),
                Get(item, "momentum"), Get(item, "confidence"), Get(item, "data_freshness_days"),
                Get(item, "updated_at"))
  }

  /** `json.dumps` writes the value as it is passed on: absent (null), a
      string or a plain value, but not a number left as a `Decimal`. */
  predicate Dumpable(a: Option<Attr>) {
    a.None? || a.value.Str? || a.value.Plain?
  }

  /** `json.dumps` writes `_to_float(value)`: a number has become a float. */
  predicate DumpableAsFloat(a: Option<Attr>) {
    a.None? || !a.value.Unwritable?
  }

  /** The score fields as the read handlers write them out: `city`,
      `momentum` and `updated_at` unchanged, the other three through
      `_to_float`. */
  predicate FieldsDumpable(f: ScoreFields) {
    Dumpable(Some(f.city)) && DumpableAsFloat(f.futureValueScore) && Dumpable(f.momentum) &&
    DumpableAsFloat(f.confidence) && DumpableAsFloat(f.dataFreshnessDays) && Dumpable(f.updatedAt)
  }
}
