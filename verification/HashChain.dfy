/**
 * The hash-chained journal: records, their line codec, loading a payload, and
 * the separately held head anchor.
 */
module HashChain {
  import opened Prelude
  import opened LedgerEvents

  const LEDGER_SCHEMA_VERSION: nat := 1
  const ANCHOR_SCHEMA_VERSION: nat := 1

  /** A record hash, standing for the digest of exactly what is hashed: equal hashes have equal inputs. */
  datatype Hash = Genesis | Digest(version: nat, sequence: nat, previous: Hash, event: Event)

  datatype Record = Record(version: nat, sequence: nat, previous: Hash, event: Event, hash: Hash)

  datatype Anchor = Anchor(version: nat, count: nat, head: Hash)

  newtype byte = b: int | 0 <= b < 256

  const NEWLINE: byte := 10

  /** How a record is written as one line, without its line end, and read back. */
  datatype Codec = Codec(encode: Record -> seq<byte>, decode: seq<byte> -> Option<Record>)

  /** Reading inverts writing, and a written record is a non-empty line of its own. */
  ghost predicate Faithful(codec: Codec) {
    forall r :: codec.decode(codec.encode(r)) == Some(r) && codec.encode(r) != [] && NEWLINE !in codec.encode(r)
  }

  function RecordHash(sequence: nat, previous: Hash, event: Event): Hash {
    Digest(LEDGER_SCHEMA_VERSION, sequence, previous, event)
  }

  function Head(records: seq<Record>): Hash {
    if records == [] then Genesis else records[|records| - 1].hash
  }

  /** The record that an event becomes behind the given records. */
  function NextRecord(records: seq<Record>, event: Event): Record {
    var sequence, previous := |records|, Head(records);
    Record(LEDGER_SCHEMA_VERSION, sequence, previous, event, RecordHash(sequence, previous, event))
  }

  /** The check a line passes: version, position, link to the record before, and its own hash. */
  predicate Continues(records: seq<Record>, r: Record) {
    r == NextRecord(records, r.event)
  }

  predicate Chained(records: seq<Record>) {
    forall i | 0 <= i < |records| :: Continues(records[..i], records[i])
  }

  function EventsOf(records: seq<Record>): seq<Event> {
    seq(|records|, i requires 0 <= i < |records| => records[i].event)
  }

  function Line(codec: Codec, r: Record): seq<byte> {
    codec.encode(r) + [NEWLINE]
  }

  function Lines(codec: Codec, records: seq<Record>): seq<byte> {
    if records == [] then []
    else Lines(codec, records[..|records| - 1]) + Line(codec, records[|records| - 1])
  }

  /** The position of the first line end, or the length when there is none. */
  function LineEnd(payload: seq<byte>): (n: nat)
    ensures n <= |payload|
    ensures n < |payload| ==> payload[n] == NEWLINE
    ensures forall i | 0 <= i < n :: payload[i] != NEWLINE
  {
    if payload == [] || payload[0] == NEWLINE then 0 else 1 + LineEnd(payload[1..])
  }

  /** Reads terminated lines behind the records read so far. */
  function LoadFrom(codec: Codec, payload: seq<byte>, records: seq<Record>): Result<seq<Record>, LedgerError>
    decreases |payload|
  {
    if payload == [] then Ok(records)
    else
      var n := LineEnd(payload);
      :- Need(n < |payload|, TruncatedLedger);
      :- Need(n > 0, CorruptLedger);
      var r := codec.decode(payload[..n]);
      :- Need(r.Some? && Continues(records, r.value), CorruptLedger);
      LoadFrom(codec, payload[n + 1..], records + [r.value])
  }

  /** Loading a journal: it is empty or ends with a line end, and every line continues the chain. */
  function Load(codec: Codec, payload: seq<byte>): Result<seq<Record>, LedgerError> {
    if payload != [] && payload[|payload| - 1] != NEWLINE then Err(TruncatedLedger)
    else LoadFrom(codec, payload, [])
  }

  function AnchorFor(records: seq<Record>): Option<Anchor> {
    if records == [] then None else Some(Anchor(ANCHOR_SCHEMA_VERSION, |records|, Head(records)))
  }

  function ValidateAnchor(actual: Option<Anchor>, records: seq<Record>): Outcome<LedgerError> {
    var expected := AnchorFor(records);
    if actual == expected then Pass
    else if actual.Some? && actual.value.version != ANCHOR_SCHEMA_VERSION then Fail(ProtectedAnchorMismatch)
    else if actual.Some? && expected.Some? && actual.value.count > expected.value.count then Fail(TruncatedLedger)
    else if actual.Some? && expected.None? then Fail(TruncatedLedger)
    else if actual.None? then Fail(MissingProtectedAnchor)
    else Fail(ProtectedAnchorMismatch)
  }

  lemma ChainedPrefix(records: seq<Record>, n: nat)
    requires Chained(records) && n <= |records|
    ensures Chained(records[..n])
  {
    forall i | 0 <= i < n
      ensures Continues(records[..n][..i], records[..n][i])
    {
      assert records[..n][..i] == records[..i];
    }
  }

  lemma ChainedSnoc(records: seq<Record>, r: Record)
    requires Chained(records) && Continues(records, r)
    ensures Chained(records + [r])
  {
    forall i | 0 <= i < |records| + 1
      ensures Continues((records + [r])[..i], (records + [r])[i])
    {
      assert (records + [r])[..i] == if i < |records| then records[..i] else records;
    }
  }

  /** Only a chain can be loaded. */
  lemma {:induction false} LoadedIsChained(codec: Codec, payload: seq<byte>, records: seq<Record>)
    requires Chained(records)
    requires LoadFrom(codec, payload, records).Ok?
    ensures Chained(LoadFrom(codec, payload, records).value)
    ensures records <= LoadFrom(codec, payload, records).value
    decreases |payload|
  {
    if payload != [] {
      var n := LineEnd(payload);
      var r := codec.decode(payload[..n]).value;
      ChainedSnoc(records, r);
      LoadedIsChained(codec, payload[n + 1..], records + [r]);
    }
  }

  lemma LineEndOfConcat(a: seq<byte>, b: seq<byte>)
    requires NEWLINE in a
    ensures LineEnd(a + b) == LineEnd(a) < |a|
  {
    var n := LineEnd(a);
    assert n < |a|;
    assert (a + b)[n] == NEWLINE;
    assert forall i | 0 <= i < n :: (a + b)[i] == a[i];
  }

  /** Loading what follows a loaded payload continues from its records. */
  lemma {:induction false} LoadConcat(codec: Codec, a: seq<byte>, b: seq<byte>, records: seq<Record>)
    requires LoadFrom(codec, a, records).Ok?
    ensures LoadFrom(codec, a + b, records) == LoadFrom(codec, b, LoadFrom(codec, a, records).value)
    decreases |a|
  {
    hide LineEnd, Continues;
    if a == [] {
      assert a + b == b;
    } else {
      var n := LineEnd(a);
      assert a[n] == NEWLINE;
      LineEndOfConcat(a, b);
      assert (a + b)[..n] == a[..n];
      assert (a + b)[n + 1..] == a[n + 1..] + b;
      LoadConcat(codec, a[n + 1..], b, records + [codec.decode(a[..n]).value]);
    }
  }

  lemma LoadLine(codec: Codec, records: seq<Record>, r: Record)
    requires Faithful(codec) && Continues(records, r)
    ensures LoadFrom(codec, Line(codec, r), records) == Ok(records + [r])
  {
    var line := Line(codec, r);
    var body := codec.encode(r);
    assert codec.decode(body) == Some(r);
    assert line[|body|] == NEWLINE;
    assert forall i | 0 <= i < |body| :: line[i] == body[i] && body[i] in body;
    assert LineEnd(line) == |body|;
    assert line[..|body|] == body && line[|body| + 1..] == [];
  }

  /** A loadable journal with one more line is the old records and the new one. */
  lemma LoadExtended(codec: Codec, payload: seq<byte>, r: Record)
    requires Faithful(codec)
    requires Load(codec, payload).Ok? && Continues(Load(codec, payload).value, r)
    ensures Load(codec, payload + Line(codec, r)) == Ok(Load(codec, payload).value + [r])
  {
    var records := Load(codec, payload).value;
    LoadConcat(codec, payload, Line(codec, r), []);
    LoadLine(codec, records, r);
  }

  /** Writing a chain and loading it again gives the same records. */
  lemma {:induction false} LoadInvertsWrite(codec: Codec, records: seq<Record>)
    requires Faithful(codec) && Chained(records)
    ensures Load(codec, Lines(codec, records)) == Ok(records)
  {
    if records != [] {
      var front, last := records[..|records| - 1], records[|records| - 1];
      ChainedPrefix(records, |front|);
      LoadInvertsWrite(codec, front);
      LoadExtended(codec, Lines(codec, front), last);
      assert records == front + [last];
    }
  }

  /** Chains of one length with one head are the same chain. */
  lemma {:induction false} HeadDeterminesChain(a: seq<Record>, b: seq<Record>)
    requires Chained(a) && Chained(b)
    requires |a| == |b| && Head(a) == Head(b)
    ensures a == b
  {
    if a != [] {
      var n := |a| - 1;
      assert Continues(a[..n], a[n]) && Continues(b[..n], b[n]);
      ChainedPrefix(a, n);
      ChainedPrefix(b, n);
      HeadDeterminesChain(a[..n], b[..n]);
      assert a == a[..n] + [a[n]] && b == b[..n] + [b[n]];
    }
  }

  /**
   * Two journals that load and agree with the same anchor hold the same records,
   * so an edited, reordered, truncated or rolled-back journal does not open
   * against the anchor of the original.
   */
  lemma AnchorDeterminesJournal(codec: Codec, anchor: Option<Anchor>, a: seq<byte>, b: seq<byte>)
    requires Load(codec, a).Ok? && ValidateAnchor(anchor, Load(codec, a).value).Pass?
    requires Load(codec, b).Ok? && ValidateAnchor(anchor, Load(codec, b).value).Pass?
    ensures Load(codec, a) == Load(codec, b)
  {
    LoadedIsChained(codec, a, []);
    LoadedIsChained(codec, b, []);
    hide LoadFrom;
    HeadDeterminesChain(Load(codec, a).value, Load(codec, b).value);
  }

  /** Against its anchor, a journal rolled back to fewer records is truncated, and one whose anchor is lost lacks it. */
  lemma RolledBackIsTruncated(records: seq<Record>, n: nat)
    requires n < |records|
    ensures ValidateAnchor(AnchorFor(records), records[..n]) == Fail(TruncatedLedger)
    ensures ValidateAnchor(None, records) == Fail(MissingProtectedAnchor)
  {
  }

  /** A line cut short anywhere leaves a journal that does not load. */
  lemma TornJournalIsRefused(codec: Codec, payload: seq<byte>, r: Record, torn: nat)
    requires Faithful(codec)
    requires 0 < torn < |Line(codec, r)|
    ensures Load(codec, payload + Line(codec, r)[..torn]) == Err(TruncatedLedger)
  {
    var tail := Line(codec, r)[..torn];
    assert tail[torn - 1] == codec.encode(r)[torn - 1];
    assert codec.encode(r)[torn - 1] in codec.encode(r);
  }

  /** Loading line by line, as the ledger does. */
  method LoadRecords(codec: Codec, payload: seq<byte>) returns (r: Result<seq<Record>, LedgerError>)
    ensures r == Load(codec, payload)
  {
    if payload == [] {
      return Ok([]);
    }
    if payload[|payload| - 1] != NEWLINE {
      return Err(TruncatedLedger);
    }
    var records: seq<Record> := [];
    var rest := payload;
    while rest != []
      invariant rest != [] ==> rest[|rest| - 1] == NEWLINE
      invariant LoadFrom(codec, rest, records) == LoadFrom(codec, payload, [])
      decreases |rest|
    {
      var n := LineEnd(rest);
      if n == 0 {
        return Err(CorruptLedger);
      }
      var decoded := codec.decode(rest[..n]);
      if decoded.None? {
        return Err(CorruptLedger);
      }
      var record := decoded.value;
      if record.version != LEDGER_SCHEMA_VERSION
         || record.sequence != |records|
         || record.previous != Head(records)
         || record.hash != RecordHash(record.sequence, record.previous, record.event) {
        return Err(CorruptLedger);
      }
      records := records + [record];
      rest := rest[n + 1..];
    }
    return Ok(records);
  }
}
