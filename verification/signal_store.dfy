/** The signal table written by the structuring step
    (infra/infra/lambda/bedrock_handler.py, lines 113-133): at most ten
    records per batch, keyed by (`DOC#<document key>`, `SIGNAL#<NNN>`), each
    field defaulted when the model left it out, each write attempted on its
    own and skipped when it fails.

    The store is a map from (partition key, sort key) to record. Which writes
    fail is not something the program decides: it is the parameter
    `failing`, the set of batch positions whose `put_item` raises. */
module SignalStore {
  import opened Wrappers
  import opened Seqs

  /** The most records one batch may produce. */
  const MaxStoredSignals: nat := 10

  /** The confidence stored for a signal that gave none (`str(0.5)`). */
  const DefaultConfidence: string := "0.5"

  /** One signal as decoded from the model's JSON; `None` is a missing key.
      The confidence is held as the text `str()` gives for the decoded value. */
  datatype RawSignal = RawSignal(signalType: Option<string>, description: Option<string>,
                                 impact: Option<string>, confidence: Option<string>,
                                 locationHint: Option<string>)

  /** One stored item of the signal table. */
  datatype SignalRecord = SignalRecord(pk: string, sk: string, docType: string, city: string,
                                       signalType: string, description: string, impact: string,
                                       confidence: string, locationHint: string, createdAt: string)

  type Key = (string, string)

  /** The character of a decimal digit. */
  function Digit(d: nat): (c: char)
    requires d < 10
    ensures '0' <= c <= '9'
  {
    ('0' as int + d) as char
  }

  /** The value of a decimal digit character. */
  function DigitValue(c: char): (d: nat)
    requires '0' <= c <= '9'
    ensures d < 10
  {
    c as int - '0' as int
  }

  predicate IsDigits(s: string) {
    forall k :: 0 <= k < |s| ==> '0' <= s[k] <= '9'
  }

  /** Python's `f"{i:03d}"` for numbers below 1000. */
  function Pad3(i: nat): (s: string)
    requires i < 1000
    ensures |s| == 3 && IsDigits(s)
  {
    [Digit(i / 100), Digit(i / 10 % 10), Digit(i % 10)]
  }

  /** Reading three digits back as a number. */
  function Unpad3(s: string): (i: nat)
    requires |s| == 3 && IsDigits(s)
    ensures i < 1000
  {
    100 * DigitValue(s[0]) + 10 * DigitValue(s[1]) + DigitValue(s[2])
  }

  /** Zero padding loses nothing: the padded index reads back as itself. */
  lemma Pad3RoundTrip(i: nat)
    requires i < 1000
    ensures Unpad3(Pad3(i)) == i
  {
    assert i / 10 == (i / 100) * 10 + (i / 10) % 10;
    assert i == (i / 10) * 10 + i % 10;
  }

  /** The partition key shared by every record of one document. */
  function PartitionKey(s3Key: string): string {
    "DOC#" + s3Key
  }

  /** The sort key of the record at position `i` of the batch. */
  function SortKey(i: nat): (k: string)
    requires i < 1000
    ensures |k| == 10 && k[..7] == "SIGNAL#" && k[7..] == Pad3(i)
  {
    "SIGNAL#" + Pad3(i)
  }

  /** Distinct positions get distinct sort keys, so no record of a batch
      overwrites another record of the same batch. */
  lemma SortKeyInjective(i: nat, j: nat)
    requires i < 1000 && j < 1000
    requires SortKey(i) == SortKey(j)
    ensures i == j
  {
    Pad3RoundTrip(i);
    Pad3RoundTrip(j);
    assert Pad3(i) == SortKey(i)[7..] == SortKey(j)[7..] == Pad3(j);
  }

  /** The record stored for the signal at position `index`: the keys, the
      document's type and city, and each signal field, or its default when the
      model left it out. */
  function ToRecord(s3Key: string, docType: string, city: string, index: nat,
                    signal: RawSignal, timestamp: string): (r: SignalRecord)
    requires index < 1000
    ensures r.pk == PartitionKey(s3Key) && r.sk == SortKey(index)
    ensures r.docType == docType && r.city == city && r.createdAt == timestamp
    ensures signal.signalType == None ==> r.signalType == "unknown"
    ensures signal.description == None ==> r.description == ""
    ensures signal.impact == None ==> r.impact == "neutral"
    ensures signal.confidence == None ==> r.confidence == DefaultConfidence
    ensures signal.locationHint == None ==> r.locationHint == ""
    ensures signal.signalType.Some? ==> r.signalType == signal.signalType.value
    ensures signal.description.Some? ==> r.description == signal.description.value
    ensures signal.impact.Some? ==> r.impact == signal.impact.value
    ensures signal.confidence.Some? ==> r.confidence == signal.confidence.value
    ensures signal.locationHint.Some? ==> r.locationHint == signal.locationHint.value
  {
    SignalRecord(PartitionKey(s3Key), SortKey(index), docType, city,
                 signal.signalType.GetOr("unknown"), signal.description.GetOr(""),
                 signal.impact.GetOr("neutral"), signal.confidence.GetOr(DefaultConfidence),
                 signal.locationHint.GetOr(""), timestamp)
  }

  /** How many signals of a batch of `n` are written: `signals[:10]`. */
  function Bound(n: nat): (b: nat)
    ensures b <= MaxStoredSignals && b <= n
    ensures b == n || b == MaxStoredSignals
  {
    if n < MaxStoredSignals then n else MaxStoredSignals
  }

  /** The number of writes among the first `n` that succeed. */
  function Successes(n: nat, failing: set<nat>): (c: nat)
    ensures c <= n
    ensures (forall i :: 0 <= i < n ==> i !in failing) ==> c == n
  {
    if n == 0 then 0 else Successes(n - 1, failing) + (if n - 1 in failing then 0 else 1)
  }

  /** The positions, among the first `n`, whose write succeeds. */
  function Written(n: nat, failing: set<nat>): set<nat> {
    set i: nat | i < n && i !in failing
  }

  /** The counter the loop keeps is the number of positions written. */
  lemma {:induction false} SuccessesCountsWritten(n: nat, failing: set<nat>)
    ensures Successes(n, failing) == |Written(n, failing)|
  {
    if n > 0 {
      SuccessesCountsWritten(n - 1, failing);
      if n - 1 in failing {
        assert Written(n, failing) == Written(n - 1, failing);
      } else {
        assert Written(n, failing) == Written(n - 1, failing) + {n - 1};
      }
    } else {
      assert Written(n, failing) == {};
    }
  }

  /** The store after the first `n` writes of the loop. */
  function Persisted(m: map<Key, SignalRecord>, s3Key: string, docType: string, city: string,
                     signals: seq<RawSignal>, timestamp: string, failing: set<nat>, n: nat)
    : map<Key, SignalRecord>
    requires n <= |signals| && n <= 1000
  {
    if n == 0 then m
    else
      var prev := Persisted(m, s3Key, docType, city, signals, timestamp, failing, n - 1);
      if n - 1 in failing then prev
      else prev[(PartitionKey(s3Key), SortKey(n - 1)) :=
                ToRecord(s3Key, docType, city, n - 1, signals[n - 1], timestamp)]
  }

  /** The keys of the batch's successful writes. */
  function BatchKeys(s3Key: string, failing: set<nat>, n: nat): set<Key>
    requires n <= 1000
  {
    set i: nat | i < n && i !in failing :: (PartitionKey(s3Key), SortKey(i))
  }

  /** Persisting adds exactly the keys of the successful writes. */
  lemma {:induction false} PersistedKeys(m: map<Key, SignalRecord>, s3Key: string, docType: string,
                                         city: string, signals: seq<RawSignal>, timestamp: string,
                                         failing: set<nat>, n: nat)
    requires n <= |signals| && n <= 1000
    ensures Persisted(m, s3Key, docType, city, signals, timestamp, failing, n).Keys
            == m.Keys + BatchKeys(s3Key, failing, n)
  {
    if n > 0 {
      PersistedKeys(m, s3Key, docType, city, signals, timestamp, failing, n - 1);
      BatchKeysStep(s3Key, failing, n - 1);
      PersistedKeysStep(m, s3Key, docType, city, signals, timestamp, failing, n);
    } else {
      assert BatchKeys(s3Key, failing, n) == {};
    }
  }

  /** One more write adds its key, unless it fails. */
  lemma PersistedKeysStep(m: map<Key, SignalRecord>, s3Key: string, docType: string,
                          city: string, signals: seq<RawSignal>, timestamp: string,
                          failing: set<nat>, n: nat)
    requires 0 < n <= |signals| && n <= 1000
    ensures Persisted(m, s3Key, docType, city, signals, timestamp, failing, n).Keys
            == Persisted(m, s3Key, docType, city, signals, timestamp, failing, n - 1).Keys
               + (if n - 1 in failing then {} else {(PartitionKey(s3Key), SortKey(n - 1))})
  {
  }

  lemma BatchKeysStep(s3Key: string, failing: set<nat>, n: nat)
    requires n < 1000
    ensures BatchKeys(s3Key, failing, n + 1)
            == BatchKeys(s3Key, failing, n) + (if n in failing then {} else {(PartitionKey(s3Key), SortKey(n))})
  {
    var step := if n in failing then {} else {(PartitionKey(s3Key), SortKey(n))};
    forall k | k in BatchKeys(s3Key, failing, n + 1)
      ensures k in BatchKeys(s3Key, failing, n) + step
    {
      var i: nat :| i < n + 1 && i !in failing && k == (PartitionKey(s3Key), SortKey(i));
      if i < n {
        assert k in BatchKeys(s3Key, failing, n);
      }
    }
  }

  /** After persisting, a successful position holds exactly its signal's record. */
  lemma {:induction false} PersistedAt(m: map<Key, SignalRecord>, s3Key: string, docType: string,
                                       city: string, signals: seq<RawSignal>, timestamp: string,
                                       failing: set<nat>, n: nat, i: nat)
    requires n <= |signals| && n <= 1000
    requires i < n && i !in failing
    ensures var r := Persisted(m, s3Key, docType, city, signals, timestamp, failing, n);
            (PartitionKey(s3Key), SortKey(i)) in r &&
            r[(PartitionKey(s3Key), SortKey(i))] == ToRecord(s3Key, docType, city, i, signals[i], timestamp)
  {
    if i < n - 1 {
      PersistedAt(m, s3Key, docType, city, signals, timestamp, failing, n - 1, i);
      if SortKey(n - 1) == SortKey(i) {
        SortKeyInjective(n - 1, i);
      }
    }
  }

  /** A key that is not one of the batch's keys is left as it was. */
  lemma {:induction false} PersistedElsewhere(m: map<Key, SignalRecord>, s3Key: string, docType: string,
                                              city: string, signals: seq<RawSignal>, timestamp: string,
                                              failing: set<nat>, n: nat, k: Key)
    requires n <= |signals| && n <= 1000
    requires k.0 != PartitionKey(s3Key) || !(exists i: nat :: i < n && k.1 == SortKey(i))
    ensures var r := Persisted(m, s3Key, docType, city, signals, timestamp, failing, n);
            (k in r <==> k in m) && (k in m ==> r[k] == m[k])
  {
    if n > 0 {
      assert k != (PartitionKey(s3Key), SortKey(n - 1));
      PersistedElsewhere(m, s3Key, docType, city, signals, timestamp, failing, n - 1, k);
    }
  }

  /** Persisting the same batch again for the same document, once every
      write of the first run went through, creates no new key: records are
      overwritten, not duplicated. */
  lemma RepersistAddsNoKeys(m: map<Key, SignalRecord>, s3Key: string, docType: string, city: string,
                            signals: seq<RawSignal>, first: string, second: string,
                            failing: set<nat>, n: nat)
    requires n <= |signals| && n <= 1000
    ensures var once := Persisted(m, s3Key, docType, city, signals, first, {}, n);
            Persisted(once, s3Key, docType, city, signals, second, failing, n).Keys == once.Keys
  {
    var once := Persisted(m, s3Key, docType, city, signals, first, {}, n);
    PersistedKeys(m, s3Key, docType, city, signals, first, {}, n);
    PersistedKeys(once, s3Key, docType, city, signals, second, failing, n);
    assert BatchKeys(s3Key, failing, n) <= BatchKeys(s3Key, {}, n);
  }

  /** The signal table: a map from (partition key, sort key) to record,
      updated in place by `put_item`. */
  class SignalTable {
    var items: map<Key, SignalRecord>

    constructor ()
      ensures items == map[]
    {
      items := map[];
    }

    /** The best-effort loop over `signals[:10]`: each write is tried on its
        own, a failed one is skipped, and the successes are counted. */
    method PersistSignals(s3Key: string, docType: string, city: string, signals: seq<RawSignal>,
                          timestamp: string, failing: set<nat>) returns (stored: nat)
      modifies this
      ensures items == Persisted(old(items), s3Key, docType, city, signals, timestamp, failing,
                                 Bound(|signals|))
      ensures stored == Successes(Bound(|signals|), failing)
      ensures stored <= MaxStoredSignals && stored <= |signals|
    {
      var batch := signals[..Bound(|signals|)];
      stored := 0;
      var i := 0;
      while i < |batch|
        invariant 0 <= i <= |batch|
        invariant items == Persisted(old(items), s3Key, docType, city, signals, timestamp, failing, i)
        invariant stored == Successes(i, failing)
      {
        if i !in failing {
          items := items[(PartitionKey(s3Key), SortKey(i)) :=
                         ToRecord(s3Key, docType, city, i, batch[i], timestamp)];
          stored := stored + 1;
        }
        i := i + 1;
      }
    }
  }
}
