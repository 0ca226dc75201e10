/** The hash-chained decision log (internal/decisionlog/log.go) and its replay
    (internal/replay/replay.go).  A digest is modelled by the material it covers, which makes the
    hash injective; encoded bytes enter replay through a parameter. */
module DecisionLog {
  import opened Wrappers
  import opened Scheduler
  import opened SchedulerLaws

  const SCHEMA := 1

  datatype Hash = Genesis | Digest(schema: int, sequence: int, previous: Hash, input: Snapshot, decision: Decision)

  datatype Record = Record(
    schema: int, sequence: int, previous: Hash, input: Snapshot, decision: Decision, hash: Hash)

  datatype LogError =
    | SequencesDiffer
    | UnsupportedSchema(schema: int)
    | BrokenLink
    | WrongHash
    | Undecodable
    | WrongSequence(found: int)

  function NewRecord(previous: Hash, input: Snapshot, decision: Decision): Result<Record, LogError> {
    if input.sequence != decision.sequence then Err(SequencesDiffer)
    else
      var canonical := CanonicalSnapshot(input);
      Ok(Record(SCHEMA, input.sequence, previous, canonical, decision,
                Digest(SCHEMA, input.sequence, previous, canonical, decision)))
  }

  function Verify(record: Record, previous: Hash): Check<LogError> {
    if record.schema != SCHEMA then Fail(UnsupportedSchema(record.schema))
    else if record.previous != previous then Fail(BrokenLink)
    else
      var expected := NewRecord(record.previous, record.input, record.decision);
      if expected.Err? then Fail(expected.error)
      else if record.hash != expected.value.hash then Fail(WrongHash)
      else Pass
  }

  /** A fresh record verifies against the hash it was chained to, and its stored input decides as
      the original input did. */
  lemma NewRecordVerifies(previous: Hash, input: Snapshot, decision: Decision)
    requires NewRecord(previous, input, decision).Ok?
    ensures var r := NewRecord(previous, input, decision).value;
            Verify(r, previous).Pass? && Decide(r.input) == Decide(input) && r.decision == decision
  {
    DecideCanonical(input);
  }

  /** The hash record `i` is chained to, in a log that continues from `origin`. */
  function LinkFrom(origin: Hash, records: seq<Record>, i: nat): Hash
    requires i <= |records|
  {
    if i == 0 then origin else records[i - 1].hash
  }

  function LinkBefore(records: seq<Record>, i: nat): Hash
    requires i <= |records|
  {
    LinkFrom(Genesis, records, i)
  }

  /** What ReadAll accepts. */
  ghost predicate Chain(records: seq<Record>) {
    forall i :: 0 <= i < |records| ==>
      records[i].sequence == i + 1 && Verify(records[i], LinkBefore(records, i)).Pass?
  }

  ghost predicate Linked(origin: Hash, records: seq<Record>) {
    forall i :: 0 <= i < |records| ==> Verify(records[i], LinkFrom(origin, records, i)).Pass?
  }

  lemma LinksGrow(origin: Hash, records: seq<Record>, r: Record)
    requires Linked(origin, records) && Verify(r, LinkFrom(origin, records, |records|)).Pass?
    ensures Linked(origin, records + [r]) && LinkFrom(origin, records + [r], |records| + 1) == r.hash
  {
    hide Verify;
    var all := records + [r];
    forall i | 0 <= i < |all| ensures Verify(all[i], LinkFrom(origin, all, i)).Pass? {
      assert LinkFrom(origin, all, i) == LinkFrom(origin, records, i);
    }
  }

  // ------------------------------------------------------------------ writing

  /** decisionlog.Writer: the lines written so far and the hash the next record is chained to. */
  class Writer {
    var lastHash: Hash
    var lines: seq<Record>
    ghost const origin: Hash

    ghost predicate Valid()
      reads this
    {
      lastHash == LinkFrom(origin, lines, |lines|) && Linked(origin, lines)
    }

    constructor (previous: Hash)
      ensures Valid() && lines == [] && lastHash == origin == previous
    {
      lastHash, lines, origin := previous, [], previous;
    }

    method Append(input: Snapshot, decision: Decision) returns (r: Result<Record, LogError>)
      requires Valid()
      modifies this
      ensures Valid()
      ensures r == NewRecord(old(lastHash), input, decision)
      ensures r.Ok? ==> lines == old(lines) + [r.value] && lastHash == r.value.hash
      ensures r.Err? ==> lines == old(lines) && lastHash == old(lastHash)
    {
      hide Verify, NewRecord, Linked, Decide, CanonicalSnapshot;
      r := NewRecord(lastHash, input, decision);
      if r.Ok? {
        NewRecordVerifies(lastHash, input, decision);
        LinksGrow(origin, lines, r.value);
        lines := lines + [r.value];
        lastHash := r.value.hash;
      }
    }
  }

  // ------------------------------------------------------------------ reading

  datatype Line = Blank | Garbled | Entry(record: Record)

  function Entries(lines: seq<Line>): seq<Record> {
    if lines == [] then [] else
      var last := lines[|lines| - 1];
      Entries(lines[..|lines| - 1]) + (if last.Entry? then [last.record] else [])
  }

  ghost predicate Readable(lines: seq<Line>) {
    Garbled !in lines && Chain(Entries(lines))
  }

  lemma {:induction false} EntriesGrow(lines: seq<Line>, n: nat)
    requires n <= |lines|
    ensures Entries(lines[..n]) <= Entries(lines)
    decreases |lines|
  {
    if n < |lines| {
      EntriesGrow(lines[..|lines| - 1], n);
      assert lines[..|lines| - 1][..n] == lines[..n];
    } else {
      assert lines[..n] == lines;
    }
  }

  lemma ChainPrefix(a: seq<Record>, b: seq<Record>)
    requires a <= b && Chain(b)
    ensures Chain(a)
  {
    forall i | 0 <= i < |a| ensures a[i].sequence == i + 1 && Verify(a[i], LinkBefore(a, i)).Pass? {
      assert a[i] == b[i] && LinkBefore(a, i) == LinkBefore(b, i);
    }
  }

  lemma ChainGrows(a: seq<Record>, r: Record)
    requires Chain(a)
    ensures Chain(a + [r]) <==> r.sequence == |a| + 1 && Verify(r, LinkBefore(a, |a|)).Pass?
  {
    hide Verify;
    var b := a + [r];
    assert LinkBefore(b, |a|) == LinkBefore(a, |a|);
    assert b[|a|] == r;
    forall i | 0 <= i < |a| ensures b[i].sequence == i + 1 && Verify(b[i], LinkBefore(b, i)).Pass? {
      assert b[i] == a[i] && LinkBefore(b, i) == LinkBefore(a, i);
    }
  }

  /** Accepts exactly the logs whose sequences run 1, 2, ... and whose links verify. */
  method ReadAll(lines: seq<Line>) returns (r: Result<seq<Record>, LogError>)
    ensures r.Ok? <==> Readable(lines)
    ensures r.Ok? ==> r.value == Entries(lines)
  {
    var records: seq<Record> := [];
    var previous, last := Genesis, 0;
    for n := 0 to |lines|
      invariant records == Entries(lines[..n]) && Chain(records) && Garbled !in lines[..n]
      invariant previous == LinkBefore(records, |records|) && last == |records|
    {
      assert lines[..n + 1][..n] == lines[..n];
      EntriesGrow(lines, n + 1);
      match lines[n] {
        case Blank =>
        case Garbled => return Err(Undecodable);
        case Entry(record) =>
          ChainGrows(records, record);
          assert Entries(lines[..n + 1]) == records + [record];
          var bad := if record.sequence != last + 1 then Fail(WrongSequence(record.sequence)) else Verify(record, previous);
          if bad.Fail? {
            if Chain(Entries(lines)) { ChainPrefix(records + [record], Entries(lines)); }
            return Err(bad.error);
          }
          records := records + [record];
          previous, last := record.hash, record.sequence;
      }
    }
    assert lines[..|lines|] == lines;
    r := Ok(records);
  }

  // ---------------------------------------------------------------- integrity

  /** The chain is tamper evident: two readable logs with the same head hash hold the same
      decisions on the same (canonical) inputs. */
  lemma {:induction false} HeadDeterminesLog(a: seq<Record>, b: seq<Record>)
    requires Chain(a) && Chain(b)
    requires LinkBefore(a, |a|) == LinkBefore(b, |b|)
    ensures |a| == |b|
    ensures forall i :: 0 <= i < |a| ==>
      && a[i].sequence == b[i].sequence && a[i].decision == b[i].decision && a[i].hash == b[i].hash
      && CanonicalSnapshot(a[i].input) == CanonicalSnapshot(b[i].input)
    decreases |a|
  {
    hide CanonicalSnapshot, Verify, Chain, LinkFrom;
    if a != [] { LastLink(a); }
    if b != [] { LastLink(b); }
    NoLink();
    if a != [] && b != [] {
      var init, last := a[..|a| - 1], b[..|b| - 1];
      SameHash(a[|a| - 1], b[|b| - 1], LinkBefore(init, |init|), LinkBefore(last, |last|));
      HeadDeterminesLog(init, last);
    }
  }

  lemma NoLink()
    ensures LinkBefore([], 0) == Genesis
  {
  }

  lemma LastLink(a: seq<Record>)
    requires Chain(a) && a != []
    ensures var n := |a| - 1;
      && Chain(a[..n]) && LinkBefore(a, |a|) == a[n].hash && a[n].hash.Digest? && a[n].sequence == |a|
      && Verify(a[n], LinkBefore(a[..n], n)).Pass?
  {
    hide CanonicalSnapshot, Verify;
    var n := |a| - 1;
    ChainPrefix(a[..n], a);
    assert LinkBefore(a[..n], n) == LinkBefore(a, n);
    SameHash(a[n], a[n], LinkBefore(a, n), LinkBefore(a, n));
  }

  lemma SameHash(x: Record, y: Record, px: Hash, py: Hash)
    requires Verify(x, px).Pass? && Verify(y, py).Pass? && x.hash == y.hash
    ensures px == py && x.decision == y.decision && x.hash.Digest?
    ensures CanonicalSnapshot(x.input) == CanonicalSnapshot(y.input)
  {
    hide CanonicalSnapshot;
  }

  /** The record's own sequence column is not part of the hashed material: changing it never
      changes the verdict of Verify, so only ReadAll's running count protects it. */
  lemma SequenceNotHashed(r: Record, previous: Hash, n: int)
    ensures Verify(r.(sequence := n), previous) == Verify(r, previous)
  {
  }

  /** Hence a readable log may carry a sequence other than the one that was hashed. */
  lemma SequenceMayDiffer()
    ensures exists r: Record :: Chain([r]) && r.sequence != r.input.sequence
  {
    var s := Snapshot(7, 0, 0, 0, 0, [], "", ALGORITHM);
    var d := Decision(7, [], [], 0);
    NewRecordVerifies(Genesis, s, d);
    var r := NewRecord(Genesis, s, d).value.(sequence := 1);
    SequenceNotHashed(NewRecord(Genesis, s, d).value, Genesis, 1);
    assert LinkBefore([r], 0) == Genesis;
    assert Chain([r]);
  }

  // ------------------------------------------------------------------- replay

  type Bytes = seq<int>

  datatype ReplayError =
    | Unreadable(cause: LogError)
    | Undecided(sequence: int, reason: Error)
    | Diverged(sequence: int, offset: nat, expected: int, actual: int)

  function ByteAt(s: Bytes, i: nat): int {
    if i < |s| then s[i] else 0
  }

  /** The first position at which two different encodings part. */
  method Divergence(expected: Bytes, actual: Bytes) returns (offset: nat)
    requires expected != actual
    ensures offset <= |expected| && offset <= |actual|
    ensures expected[..offset] == actual[..offset]
    ensures offset < |expected| && offset < |actual| ==> expected[offset] != actual[offset]
    ensures offset < |expected| || offset < |actual|
  {
    var limit := if |actual| < |expected| then |actual| else |expected|;
    for i := 0 to limit
      invariant expected[..i] == actual[..i]
    {
      if expected[i] != actual[i] { return i; }
      assert expected[..i + 1] == expected[..i] + [expected[i]];
      assert actual[..i + 1] == actual[..i] + [actual[i]];
    }
    assert |expected| == limit ==> expected[..limit] == expected;
    assert |actual| == limit ==> actual[..limit] == actual;
    offset := limit;
  }

  /** Recomputing a record's decision gives the recorded one. */
  ghost predicate Reproduces(r: Record, encode: Decision -> Bytes) {
    Decide(r.input).Ok? && encode(Decide(r.input).value) == encode(r.decision)
  }

  ghost function Output(records: seq<Record>, encode: Decision -> Bytes): Bytes {
    if records == [] then [] else Output(records[..|records| - 1], encode) + encode(records[|records| - 1].decision)
  }

  /** replay.Run: succeeds exactly on readable logs that reproduce, and then prints the recorded
      decisions; otherwise it names the first record that does not. */
  method Run(lines: seq<Line>, encode: Decision -> Bytes) returns (r: Result<Bytes, ReplayError>)
    ensures r.Ok? <==> Readable(lines) && forall k :: 0 <= k < |Entries(lines)| ==> Reproduces(Entries(lines)[k], encode)
    ensures r.Ok? ==> r.value == Output(Entries(lines), encode)
    ensures r.Err? && !r.error.Unreadable? ==>
      exists k :: 0 <= k < |Entries(lines)|
        && Entries(lines)[k].sequence == r.error.sequence && !Reproduces(Entries(lines)[k], encode)
  {
    hide Decide, Chain;
    var read := ReadAll(lines);
    if read.Err? { return Err(Unreadable(read.error)); }
    var records := read.value;
    var out := [];
    for n := 0 to |records|
      invariant out == Output(records[..n], encode)
      invariant forall k :: 0 <= k < n ==> Reproduces(records[k], encode)
    {
      assert records[..n + 1][..n] == records[..n];
      var decided := RunDecide(records[n].input);
      if decided.Err? {
        assert !Reproduces(records[n], encode);
        return Err(Undecided(records[n].sequence, decided.error));
      }
      var actual, expected := encode(decided.value), encode(records[n].decision);
      if actual != expected {
        var at := Divergence(expected, actual);
        assert !Reproduces(records[n], encode);
        return Err(Diverged(records[n].sequence, at, ByteAt(expected, at), ByteAt(actual, at)));
      }
      out := out + actual;
    }
    assert records[..|records|] == records;
    r := Ok(out);
  }

  // ---------------------------------------------------- logs written by the scheduler

  /** A log whose every record was made from a decision, with consecutive sequences. */
  ghost predicate Recorded(log: seq<Record>) {
    forall i :: 0 <= i < |log| ==> RecordedAt(log, i)
  }

  ghost predicate RecordedAt(log: seq<Record>, i: nat)
    requires i < |log|
  {
    exists s: Snapshot :: MadeFrom(log[i], LinkBefore(log, i), s) && s.sequence == i + 1
  }

  ghost predicate MadeFrom(r: Record, previous: Hash, s: Snapshot) {
    Decide(s).Ok? && NewRecord(previous, s, Decide(s).value) == Ok(r)
  }

  lemma RecordedGrows(log: seq<Record>, r: Record, s: Snapshot)
    requires Recorded(log) && MadeFrom(r, LinkBefore(log, |log|), s) && s.sequence == |log| + 1
    ensures Recorded(log + [r])
  {
    var all := log + [r];
    forall i | 0 <= i < |all| ensures RecordedAt(all, i) {
      assert LinkBefore(all, i) == LinkBefore(log, i);
      if i == |log| {
        assert MadeFrom(all[i], LinkBefore(all, i), s);
      } else {
        assert RecordedAt(log, i);
        var t :| MadeFrom(log[i], LinkBefore(log, i), t) && t.sequence == i + 1;
        assert MadeFrom(all[i], LinkBefore(all, i), t);
      }
    }
  }

  /** Such a log always passes ReadAll and replays without divergence, under any encoding. */
  lemma RecordedReplays(log: seq<Record>, encode: Decision -> Bytes)
    requires Recorded(log)
    ensures Chain(log)
    ensures forall i :: 0 <= i < |log| ==> log[i].sequence == i + 1 && Reproduces(log[i], encode)
  {
    forall i | 0 <= i < |log|
      ensures log[i].sequence == i + 1 && Verify(log[i], LinkBefore(log, i)).Pass? && Reproduces(log[i], encode)
    {
      assert RecordedAt(log, i);
      var s :| MadeFrom(log[i], LinkBefore(log, i), s) && s.sequence == i + 1;
      NewRecordVerifies(LinkBefore(log, i), s, Decide(s).value);
    }
  }

  /** Exporting writes one line per record, so what is read back is what was recorded. */
  lemma {:induction false} ExportReadsBack(log: seq<Record>)
    ensures Entries(Export(log)) == log && Garbled !in Export(log)
  {
    if log != [] {
      ExportReadsBack(log[..|log| - 1]);
      assert Export(log)[..|log| - 1] == Export(log[..|log| - 1]);
      assert log == log[..|log| - 1] + [log[|log| - 1]];
    }
  }

  function Export(log: seq<Record>): (lines: seq<Line>)
    ensures |lines| == |log| && forall i :: 0 <= i < |log| ==> lines[i] == Entry(log[i])
  {
    seq(|log|, i requires 0 <= i < |log| => Entry(log[i]))
  }
}
