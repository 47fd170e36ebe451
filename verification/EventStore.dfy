/** The event store: append under optimistic concurrency, the cached tail hash
    with its recomputation, stream metadata, the whole-log reader and the repair
    job.  A database transaction is one atomic step. */
module EventStore {
  import opened Prelude
  import opened Events
  import opened HashChain

  /** Stream metadata; `tail` is `last_integrity_hash`, absent when missing or empty. */
  datatype StreamMeta = StreamMeta(tail: Option<Hash>, extra: map<string, string>)

  /** A metadata document given by a caller; it may or may not hold `last_integrity_hash`. */
  datatype MetaPatch = MetaPatch(writesTail: bool, tail: Option<Hash>, extra: map<string, string>)

  datatype Stream = Stream(aggregateType: string, version: nat, archived: bool, meta: StreamMeta, rows: seq<Row>)

  datatype OutboxStatus = Waiting | Published | DeadLetter

  datatype OutboxRow = OutboxRow(event: nat, topic: string, status: OutboxStatus, attempts: nat, nextAttempt: int)

  /** `streams` holds `event_streams` with the rows of each stream in position
      order; `log` is the same events in `global_position` order. */
  datatype Store = Store(streams: map<string, Stream>, log: seq<StoredEvent>, outbox: seq<OutboxRow>)

  const EMPTY_STORE := Store(map[], [], [])

  /** An event as a caller hands it over, with whatever hash keys its metadata holds. */
  datatype Draft = Draft(event: Event, version: nat, metadata: Metadata,
                         callerPrevious: Option<Hash>, callerHash: Option<Hash>)

  datatype AppendRequest = AppendRequest(
    stream: string, aggregateType: string, drafts: seq<Draft>, expected: int, patch: MetaPatch,
    topic: Option<string>, correlation: Option<string>, causation: Option<nat>)

  /* ---------- append ---------- */

  function Merged(meta: StreamMeta, patch: MetaPatch): StreamMeta {
    StreamMeta(if patch.writesTail then patch.tail else meta.tail, meta.extra + patch.extra)
  }

  function Replaced(patch: MetaPatch): StreamMeta {
    StreamMeta(if patch.writesTail then patch.tail else None, patch.extra)
  }

  /** The stream an append may extend, or why it is refused. */
  function Admit(s: Store, r: AppendRequest): Result<Stream, Error> {
    if r.drafts == [] || r.expected < -1 then Err(DomainError)
    else if r.stream !in s.streams then
      if r.expected != -1 && r.expected != 0 then Err(ConcurrencyError(r.expected, -1))
      else Ok(Stream(r.aggregateType, 0, false, Replaced(r.patch), []))
    else
      var st := s.streams[r.stream];
      if st.aggregateType != r.aggregateType then Err(DomainError)
      else if st.archived then Err(StreamArchived)
      else if st.version != r.expected then Err(ConcurrencyError(r.expected, st.version))
      else Ok(st)
  }

  /** The hash the first new row links to: the cached tail if there is one. */
  function PreviousHash(st: Stream): Hash {
    if st.version == 0 then Genesis else st.meta.tail.GetOr(Tail(Contents(st.rows)))
  }

  function Lineage(m: Metadata, correlation: Option<string>, causation: Option<nat>): Metadata {
    m.(correlation := if correlation.Some? then correlation else m.correlation,
       causation := if causation.Some? then causation else m.causation)
  }

  function NewContent(r: AppendRequest, version: nat, i: nat): Content
    requires i < |r.drafts|
  {
    Content(r.stream, version + i + 1, r.drafts[i].version, r.drafts[i].event,
            Lineage(r.drafts[i].metadata, r.correlation, r.causation))
  }

  function NewContents(r: AppendRequest, version: nat): (cs: seq<Content>)
    ensures |cs| == |r.drafts|
    ensures forall i | 0 <= i < |cs| :: cs[i] == NewContent(r, version, i)
  {
    seq(|r.drafts|, i requires 0 <= i < |r.drafts| => NewContent(r, version, i))
  }

  function NewLogRow(r: AppendRequest, version: nat, before: nat, i: nat, now: int): StoredEvent
    requires i < |r.drafts|
  {
    StoredEvent(before + i, r.stream, version + i + 1, before + i + 1, r.drafts[i].event,
                Lineage(r.drafts[i].metadata, r.correlation, r.causation).causation, now)
  }

  function NewLog(r: AppendRequest, version: nat, before: nat, n: nat, now: int): (log: seq<StoredEvent>)
    requires n <= |r.drafts|
    ensures |log| == n
  {
    if n == 0 then [] else NewLog(r, version, before, n - 1, now) + [NewLogRow(r, version, before, n - 1, now)]
  }

  function NewOutbox(r: AppendRequest, before: nat, n: nat, now: int): (rows: seq<OutboxRow>)
    ensures |rows| == n
    ensures forall i | 0 <= i < n :: rows[i].event == before + i
  {
    if n == 0 then []
    else NewOutbox(r, before, n - 1, now)
         + [OutboxRow(before + n - 1, r.topic.GetOr(r.aggregateType + ".events"), Waiting, 0, now)]
  }

  function Extended(st: Stream, r: AppendRequest): Stream {
    var start := PreviousHash(st);
    var cs := NewContents(r, st.version);
    st.(version := st.version + |r.drafts|,
        meta := Merged(st.meta, r.patch).(tail := Some(TailFrom(start, cs))),
        rows := st.rows + Seal(start, cs))
  }

  function Append(s: Store, r: AppendRequest, now: int): Result<Store, Error> {
    match Admit(s, r)
    case Err(e) => Err(e)
    case Ok(st) =>
      Ok(Store(s.streams[r.stream := Extended(st, r)],
               s.log + NewLog(r, st.version, |s.log|, |r.drafts|, now),
               s.outbox + NewOutbox(r, |s.log|, |r.drafts|, now)))
  }

  /* ---------- what the tables keep ---------- */

  function EventsOf(rows: seq<Row>): (es: seq<Event>)
    ensures |es| == |rows|
    ensures forall i | 0 <= i < |rows| :: es[i] == rows[i].content.event
  {
    seq(|rows|, i requires 0 <= i < |rows| => rows[i].content.event)
  }

  /** `load_stream`: the events of one stream, none for a stream that is not there. */
  function Load(s: Store, stream: string): seq<Event> {
    if stream in s.streams then EventsOf(s.streams[stream].rows) else []
  }

  function StreamVersion(s: Store, stream: string): nat {
    if stream in s.streams then s.streams[stream].version else 0
  }

  /** The events of one stream as the whole log shows them. */
  function StreamOf(log: seq<StoredEvent>, stream: string): seq<Event> {
    if log == [] then []
    else
      var rest := StreamOf(log[..|log| - 1], stream);
      if log[|log| - 1].stream == stream then rest + [log[|log| - 1].event] else rest
  }

  ghost predicate ValidStream(name: string, st: Stream) {
    && st.version == |st.rows| >= 1
    && forall i | 0 <= i < |st.rows| :: st.rows[i].content.stream == name && st.rows[i].content.position == i + 1
  }

  /** Each log row carries its own place in the log and in its stream. */
  ghost predicate ValidLog(log: seq<StoredEvent>) {
    log == [] ||
    var before, e := log[..|log| - 1], log[|log| - 1];
    && ValidLog(before)
    && e.id == |before| && e.globalPosition == |before| + 1
    && e.position == |StreamOf(before, e.stream)| + 1
  }

  /** Positions are 1..current_version in every stream, the two views of the
      events agree, and the outbox has one row for each event. */
  ghost predicate ValidStore(s: Store) {
    && (forall name | name in s.streams :: ValidStream(name, s.streams[name]))
    && ValidLog(s.log)
    && (forall name :: StreamOf(s.log, name) == Load(s, name))
    && |s.outbox| == |s.log|
    && (forall i | 0 <= i < |s.outbox| :: s.outbox[i].event == i)
  }

  function EventsOfDrafts(drafts: seq<Draft>): (es: seq<Event>)
    ensures |es| == |drafts|
    ensures forall i | 0 <= i < |drafts| :: es[i] == drafts[i].event
  {
    seq(|drafts|, i requires 0 <= i < |drafts| => drafts[i].event)
  }

  /** Rows of one stream at the next positions and log places. */
  predicate NextRows(log: seq<StoredEvent>, rows: seq<StoredEvent>, stream: string, version: nat) {
    forall i | 0 <= i < |rows| ::
      && rows[i].stream == stream && rows[i].position == version + i + 1
      && rows[i].id == |log| + i && rows[i].globalPosition == |log| + i + 1
  }

  function EventsIn(rows: seq<StoredEvent>): (es: seq<Event>)
    ensures |es| == |rows|
    ensures forall i | 0 <= i < |rows| :: es[i] == rows[i].event
  {
    seq(|rows|, i requires 0 <= i < |rows| => rows[i].event)
  }

  lemma OneMoreRow(log: seq<StoredEvent>, e: StoredEvent, name: string)
    ensures StreamOf(log + [e], name) == StreamOf(log, name) + if e.stream == name then [e.event] else []
  {
    assert (log + [e])[..|log|] == log;
  }

  lemma OneMoreValidRow(log: seq<StoredEvent>, e: StoredEvent)
    requires ValidLog(log) && e.id == |log| && e.globalPosition == |log| + 1
    requires e.position == |StreamOf(log, e.stream)| + 1
    ensures ValidLog(log + [e])
  {
    assert (log + [e])[..|log|] == log;
  }

  lemma {:induction false} NextRowsInStreams(log: seq<StoredEvent>, rows: seq<StoredEvent>, stream: string,
                                             version: nat, name: string)
    requires NextRows(log, rows, stream, version)
    ensures StreamOf(log + rows, name) == StreamOf(log, name) + if name == stream then EventsIn(rows) else []
  {
    if rows == [] {
      assert log + rows == log;
    } else {
      var before, e := rows[..|rows| - 1], rows[|rows| - 1];
      NextRowsInStreams(log, before, stream, version, name);
      OneMoreRow(log + before, e, name);
      assert log + rows == (log + before) + [e];
      assert EventsIn(rows) == EventsIn(before) + [e.event];
    }
  }

  lemma LastOfNextRows(log: seq<StoredEvent>, before: seq<StoredEvent>, e: StoredEvent, stream: string, version: nat)
    requires |StreamOf(log, stream)| == version && NextRows(log, before + [e], stream, version)
    ensures NextRows(log, before, stream, version)
    ensures ValidLog(log + before) ==> ValidLog(log + before + [e])
  {
    var rows := before + [e];
    assert rows[|before|] == e;
    assert forall i | 0 <= i < |before| :: rows[i] == before[i];
    NextRowsInStreams(log, before, stream, version, stream);
    if ValidLog(log + before) { OneMoreValidRow(log + before, e); }
  }

  lemma {:induction false} NextRowsKeepValidLog(log: seq<StoredEvent>, rows: seq<StoredEvent>, stream: string,
                                                version: nat)
    requires ValidLog(log) && |StreamOf(log, stream)| == version && NextRows(log, rows, stream, version)
    ensures ValidLog(log + rows)
  {
    if rows == [] {
      assert log + rows == log;
    } else {
      var before, e := rows[..|rows| - 1], rows[|rows| - 1];
      assert rows == before + [e];
      LastOfNextRows(log, before, e, stream, version);
      NextRowsKeepValidLog(log, before, stream, version);
      assert log + rows == log + before + [e];
    }
  }

  lemma {:induction false} NewLogIsNext(log: seq<StoredEvent>, r: AppendRequest, version: nat, n: nat, now: int)
    requires n <= |r.drafts|
    ensures NextRows(log, NewLog(r, version, |log|, n, now), r.stream, version)
    ensures EventsIn(NewLog(r, version, |log|, n, now)) == EventsOfDrafts(r.drafts)[..n]
  {
    if n > 0 { NewLogIsNext(log, r, version, n - 1, now); }
  }

  /** Extending a stream adds rows that carry its name and the next positions. */
  lemma ExtendedStream(name: string, st: Stream, r: AppendRequest)
    requires r.stream == name && r.drafts != []
    requires ValidStream(name, st) || (st.version == 0 && st.rows == [])
    ensures ValidStream(name, Extended(st, r))
    ensures EventsOf(Extended(st, r).rows) == EventsOf(st.rows) + EventsOfDrafts(r.drafts)
  {
    var cs := NewContents(r, st.version);
    var rows := Seal(PreviousHash(st), cs);
    SealKeepsContents(PreviousHash(st), cs);
    forall i | 0 <= i < |cs| ensures rows[i].content == NewContent(r, st.version, i) {
      assert Contents(rows)[i] == rows[i].content;
    }
  }

  /** What a committed append does to the streams: it was made against exactly
      the current version, and its events end its stream and touch no other. */
  lemma AppendToStreams(s: Store, r: AppendRequest, now: int)
    requires ValidStore(s) && Append(s, r, now).Ok?
    ensures var s' := Append(s, r, now).value;
            && (forall name | name in s'.streams :: ValidStream(name, s'.streams[name]))
            && Max(r.expected, 0) == StreamVersion(s, r.stream) == |Load(s, r.stream)|
            && StreamVersion(s', r.stream) == StreamVersion(s, r.stream) + |r.drafts|
            && Load(s', r.stream) == Load(s, r.stream) + EventsOfDrafts(r.drafts)
            && (forall name | name != r.stream :: Load(s', name) == Load(s, name))
            && r.drafts != []
  {
    var st := Admit(s, r).value;
    assert r.stream in s.streams ==> ValidStream(r.stream, s.streams[r.stream]);
    ExtendedStream(r.stream, st, r);
  }

  /** What a committed append does to the log: its rows end it, and the log view
      of every stream grows by the batch or not at all. */
  lemma AppendToLog(s: Store, r: AppendRequest, now: int)
    requires ValidStore(s) && Append(s, r, now).Ok?
    ensures var s' := Append(s, r, now).value;
            && s'.log == s.log + NewLog(r, StreamVersion(s, r.stream), |s.log|, |r.drafts|, now)
            && ValidLog(s'.log)
            && forall name :: StreamOf(s'.log, name) ==
                              StreamOf(s.log, name) + if name == r.stream then EventsOfDrafts(r.drafts) else []
  {
    var version := StreamVersion(s, r.stream);
    assert r.stream in s.streams ==> ValidStream(r.stream, s.streams[r.stream]);
    assert StreamOf(s.log, r.stream) == Load(s, r.stream);
    var rows := NewLog(r, version, |s.log|, |r.drafts|, now);
    NewLogIsNext(s.log, r, version, |r.drafts|, now);
    assert EventsIn(rows) == EventsOfDrafts(r.drafts);
    NextRowsKeepValidLog(s.log, rows, r.stream, version);
    forall name { NextRowsInStreams(s.log, rows, r.stream, version, name); }
  }

  /** A committed append keeps the tables consistent and extends its stream, and
      the log, by exactly its batch. */
  lemma AppendEffect(s: Store, r: AppendRequest, now: int)
    requires ValidStore(s) && Append(s, r, now).Ok?
    ensures var s' := Append(s, r, now).value;
            && ValidStore(s')
            && Max(r.expected, 0) == StreamVersion(s, r.stream) == |Load(s, r.stream)|
            && StreamVersion(s', r.stream) == StreamVersion(s, r.stream) + |r.drafts|
            && Load(s', r.stream) == Load(s, r.stream) + EventsOfDrafts(r.drafts)
            && (forall name | name != r.stream :: Load(s', name) == Load(s, name))
            && s'.log == s.log + NewLog(r, StreamVersion(s, r.stream), |s.log|, |r.drafts|, now)
            && r.drafts != []
  {
    AppendToStreams(s, r, now);
    AppendToLog(s, r, now);
    var s' := Append(s, r, now).value;
    forall name ensures StreamOf(s'.log, name) == Load(s', name) {
      assert StreamOf(s.log, name) == Load(s, name);
    }
  }

  /** Exactly when an append is accepted, and with which error it is refused otherwise. */
  lemma AppendIsAcceptedIff(s: Store, r: AppendRequest, now: int)
    ensures var result, known := Append(s, r, now), r.stream in s.streams;
            var wellFormed := r.drafts != [] && r.expected >= -1;
            && (result.Ok? <==>
                  && wellFormed
                  && (known ==>
                        var st := s.streams[r.stream];
                        st.aggregateType == r.aggregateType && !st.archived && st.version == r.expected)
                  && (!known ==> r.expected == -1 || r.expected == 0))
            && (!wellFormed ==> result == Err(DomainError))
            && (wellFormed && known ==>
                  var st := s.streams[r.stream];
                  && (st.aggregateType != r.aggregateType ==> result == Err(DomainError))
                  && (st.aggregateType == r.aggregateType && st.archived ==> result == Err(StreamArchived)))
            && (result.Err? && result.error.ConcurrencyError? ==>
                  result.error == ConcurrencyError(r.expected, if known then s.streams[r.stream].version else -1))
  {
  }

  predicate ComesFrom(given: Option<nat>, own: Option<nat>, stored: Option<nat>) {
    stored == if given.Some? then given else own
  }

  /** The row of draft `i`: the next position of its stream, the draft's event and version,
      and the request's correlation and causation before the draft's own. */
  lemma AppendWritesRows(s: Store, r: AppendRequest, now: int, i: nat)
    requires ValidStore(s) && Append(s, r, now).Ok? && i < |r.drafts|
    ensures var version, s' := StreamVersion(s, r.stream), Append(s, r, now).value;
            && r.stream in s'.streams && |s'.streams[r.stream].rows| == version + |r.drafts|
            && var c := s'.streams[r.stream].rows[version + i].content;
            && c.stream == r.stream && c.position == version + i + 1
            && c.event == r.drafts[i].event && c.version == r.drafts[i].version
            && c.metadata.extra == r.drafts[i].metadata.extra
            && ComesFrom(r.causation, r.drafts[i].metadata.causation, c.metadata.causation)
            && c.metadata.correlation ==
               if r.correlation.Some? then r.correlation else r.drafts[i].metadata.correlation
  {
    var st := Admit(s, r).value;
    assert r.stream in s.streams ==> ValidStream(r.stream, s.streams[r.stream]);
    RowWritten(st, r, i);
  }

  lemma RowWritten(st: Stream, r: AppendRequest, i: nat)
    requires i < |r.drafts| && st.version == |st.rows|
    ensures |Extended(st, r).rows| == st.version + |r.drafts|
    ensures Extended(st, r).rows[st.version + i].content == NewContent(r, st.version, i)
  {
    var cs := NewContents(r, st.version);
    SealAt(PreviousHash(st), cs, i);
    assert Extended(st, r).rows[st.version + i] == Seal(PreviousHash(st), cs)[i];
  }

  /** Its log entry, numbered on from the log with the time of the append, and its outbox
      row, pending at once under the given topic or the aggregate's own. */
  lemma AppendWritesLog(s: Store, r: AppendRequest, now: int, i: nat)
    requires ValidStore(s) && Append(s, r, now).Ok? && i < |r.drafts|
    ensures var n, s' := |s.log|, Append(s, r, now).value;
            && |s'.log| == |s'.outbox| == n + |r.drafts| && s'.log[..n] == s.log && s'.outbox[..n] == s.outbox
            && var e, o := s'.log[n + i], s'.outbox[n + i];
            && e.id == n + i && e.globalPosition == n + i + 1 && e.recordedAt == now
            && e.stream == r.stream && e.position == StreamVersion(s, r.stream) + i + 1
            && e.event == r.drafts[i].event && ComesFrom(r.causation, r.drafts[i].metadata.causation, e.causation)
            && o.event == n + i && o.status.Waiting? && o.attempts == 0 && o.nextAttempt == now
            && o.topic == if r.topic.Some? then r.topic.value else r.aggregateType + ".events"
  {
    LogRowAt(r, StreamVersion(s, r.stream), |s.log|, |r.drafts|, now, i);
    OutboxRowAt(r, |s.log|, |r.drafts|, now, i);
  }

  lemma {:induction false} LogRowAt(r: AppendRequest, version: nat, before: nat, n: nat, now: int, i: nat)
    requires i < n <= |r.drafts|
    ensures NewLog(r, version, before, n, now)[i] == NewLogRow(r, version, before, i, now)
    decreases n
  {
    if i < n - 1 { LogRowAt(r, version, before, n - 1, now, i); }
  }

  lemma {:induction false} OutboxRowAt(r: AppendRequest, before: nat, n: nat, now: int, i: nat)
    requires i < n
    ensures NewOutbox(r, before, n, now)[i] ==
            OutboxRow(before + i, r.topic.GetOr(r.aggregateType + ".events"), Waiting, 0, now)
    decreases n
  {
    if i < n - 1 { OutboxRowAt(r, before, n - 1, now, i); }
  }

  /** An append's metadata patch wins over what the stream had; a new stream takes it as it
      is. The aggregate type is the request's, and the stream is not archived. */
  lemma AppendKeepsMetadata(s: Store, r: AppendRequest, now: int, key: string)
    requires Append(s, r, now).Ok?
    ensures var known, st' := r.stream in s.streams, Append(s, r, now).value.streams[r.stream];
            && st'.aggregateType == r.aggregateType && !st'.archived
            && (key in st'.meta.extra <==>
                  key in r.patch.extra || (known && key in s.streams[r.stream].meta.extra))
            && (key in r.patch.extra ==> st'.meta.extra[key] == r.patch.extra[key])
            && (known && key in s.streams[r.stream].meta.extra && key !in r.patch.extra ==>
                  st'.meta.extra[key] == s.streams[r.stream].meta.extra[key])
  {
  }

  /** Exactly when an append is refused for concurrency: the stream is not at
      the expected version, where a missing stream is at -1 and at 0. */
  lemma ConcurrencyRefusal(s: Store, r: AppendRequest, now: int)
    requires ValidStore(s) && r.drafts != [] && r.expected >= -1
    requires r.stream in s.streams ==>
               s.streams[r.stream].aggregateType == r.aggregateType && !s.streams[r.stream].archived
    ensures Append(s, r, now).Err? <==>
            if r.stream in s.streams then r.expected != StreamVersion(s, r.stream)
            else r.expected > 0
    ensures Append(s, r, now).Err? ==> Append(s, r, now).error.ConcurrencyError?
  {
  }

  /** Hash keys supplied by the caller never reach the store. */
  lemma CallerHashesAreIgnored(s: Store, r: AppendRequest, drafts: seq<Draft>, now: int)
    requires |drafts| == |r.drafts|
    requires forall i | 0 <= i < |drafts| ::
               r.drafts[i]
               == drafts[i].(callerPrevious := r.drafts[i].callerPrevious, callerHash := r.drafts[i].callerHash)
    ensures Append(s, r, now) == Append(s, r.(drafts := drafts), now)
  {
    if Admit(s, r).Ok? {
      var r' := r.(drafts := drafts);
      var version := Admit(s, r).value.version;
      SameFactsSameRows(r, r', version, |s.log|, |drafts|, now);
      assert Extended(Admit(s, r).value, r) == Extended(Admit(s, r).value, r');
    }
  }

  ghost predicate SameFacts(r: AppendRequest, r': AppendRequest) {
    && r' == r.(drafts := r'.drafts) && |r.drafts| == |r'.drafts|
    && forall i | 0 <= i < |r.drafts| ::
         r.drafts[i].event == r'.drafts[i].event && r.drafts[i].version == r'.drafts[i].version
         && r.drafts[i].metadata == r'.drafts[i].metadata
  }

  lemma {:induction false} SameFactsSameRows(r: AppendRequest, r': AppendRequest, version: nat, before: nat, n: nat,
                                             now: int)
    requires SameFacts(r, r') && n <= |r.drafts|
    ensures NewContents(r, version) == NewContents(r', version)
    ensures NewLog(r, version, before, n, now) == NewLog(r', version, before, n, now)
    ensures NewOutbox(r, before, n, now) == NewOutbox(r', before, n, now)
  {
    if n > 0 { SameFactsSameRows(r, r', version, before, n - 1, now); }
  }

  /* ---------- the chain over whole runs ---------- */

  ghost predicate CacheSound(st: Stream) {
    st.meta.tail.Some? ==> st.meta.tail.value == Tail(Contents(st.rows))
  }

  ghost predicate SoundStream(st: Stream) {
    Verifies(st.rows) && CacheSound(st)
  }

  ghost predicate ChainSound(s: Store) {
    forall name | name in s.streams :: SoundStream(s.streams[name])
  }

  /** One append to a sound stream keeps it sound, cached tail included. */
  lemma ExtendingKeepsSound(st: Stream, r: AppendRequest)
    requires st.version == |st.rows|
    requires SoundStream(st) || st.version == 0
    requires r.drafts != []
    ensures SoundStream(Extended(st, r))
    ensures Extended(st, r).meta.tail == Some(Tail(Contents(Extended(st, r).rows)))
  {
    assert st.rows == [] ==> Contents(st.rows) == [];
    assert PreviousHash(st) == Tail(Contents(st.rows));
    SealingFromTheTail(st.rows, NewContents(r, st.version));
  }

  /** The exact guard behind the cached tail: an append keeps a valid stream
      valid iff the cache is empty or holds the true tail. */
  lemma AppendKeepsValidIffCacheSound(st: Stream, r: AppendRequest)
    requires st.version == |st.rows| > 0 && Verifies(st.rows) && r.drafts != []
    ensures Verifies(Extended(st, r).rows) <==> CacheSound(st)
  {
    AppendKeepsValidIff(st.rows, PreviousHash(st), NewContents(r, st.version));
  }

  /** Wiping a sound cache is invisible: the tail is recomputed to the same value. */
  lemma WipedCacheIsRebuilt(st: Stream, r: AppendRequest)
    requires CacheSound(st)
    ensures var wiped := st.(meta := st.meta.(tail := None));
            PreviousHash(wiped) == PreviousHash(st) && Extended(wiped, r) == Extended(st, r)
  {
    var wiped := st.(meta := st.meta.(tail := None));
    assert PreviousHash(wiped) == PreviousHash(st);
  }

  datatype StoreOp =
    | DoAppend(request: AppendRequest, now: int)
    | DoArchive(stream: string, reason: Option<string>)
    | DoSetMetadata(stream: string, patch: MetaPatch, merge: bool)
    | DoBackfill(stream: string, mode: RepairMode)

  function ArchiveNote(reason: Option<string>): map<string, string> {
    (if reason.Some? && reason.value != "" then map["archived_reason" := reason.value] else map[])
    ["archived_by" := "system"]
  }

  function Archived(st: Stream, reason: Option<string>): Stream {
    st.(archived := true,
        meta := st.meta.(extra := st.meta.extra + ArchiveNote(reason)))
  }

  function Backfilled(mode: RepairMode, st: Stream): Stream {
    if st.rows == [] then st
    else st.(rows := Repaired(mode, st.rows), meta := st.meta.(tail := Some(Tail(Contents(st.rows)))))
  }

  /** One store operation; a refused one changes nothing. */
  function Perform(s: Store, op: StoreOp): Store {
    match op
    case DoAppend(r, now) =>
      var result := Append(s, r, now);
      if result.Ok? then result.value else s
    case DoArchive(name, reason) =>
      if name in s.streams then s.(streams := s.streams[name := Archived(s.streams[name], reason)]) else s
    case DoSetMetadata(name, patch, merge) =>
      if name in s.streams then
        var st := s.streams[name];
        s.(streams := s.streams[name := st.(meta := if merge then Merged(st.meta, patch) else Replaced(patch))])
      else s
    case DoBackfill(name, mode) =>
      if name in s.streams then s.(streams := s.streams[name := Backfilled(mode, s.streams[name])]) else s
  }

  function Run(s: Store, ops: seq<StoreOp>): Store {
    if ops == [] then s else Perform(Run(s, ops[..|ops| - 1]), ops[|ops| - 1])
  }

  predicate WritesTail(op: StoreOp) {
    op.DoSetMetadata? && op.patch.writesTail
  }

  /** Archiving, metadata writes and repairs leave every event where it is. */
  lemma AdminKeepsEvents(s: Store, op: StoreOp)
    requires ValidStore(s) && !op.DoAppend?
    ensures ValidStore(Perform(s, op))
    ensures Perform(s, op).log == s.log
    ensures forall name :: Load(Perform(s, op), name) == Load(s, name)
  {
    var s' := Perform(s, op);
    if op.stream in s.streams {
      var st := s.streams[op.stream];
      assert ValidStream(op.stream, st);
      if op.DoBackfill? { assert EventsOf(Backfilled(op.mode, st).rows) == EventsOf(st.rows); }
    }
    forall name ensures Load(s', name) == Load(s, name) {}
  }

  /** A metadata write puts its keys over the stream's own or, without merging, in their
      place, and changes no other stream. */
  lemma MetadataWrites(s: Store, stream: string, patch: MetaPatch, merge: bool, key: string)
    requires stream in s.streams
    ensures var s' := Perform(s, DoSetMetadata(stream, patch, merge));
            var before, after := s.streams[stream].meta.extra, s'.streams[stream].meta.extra;
            && s'.streams.Keys == s.streams.Keys
            && (forall name | name in s.streams && name != stream :: s'.streams[name] == s.streams[name])
            && (key in after <==> key in patch.extra || (merge && key in before))
            && (key in patch.extra ==> after[key] == patch.extra[key])
            && (merge && key in before && key !in patch.extra ==> after[key] == before[key])
            && s'.streams[stream].meta.tail ==
               (if patch.writesTail then patch.tail else if merge then s.streams[stream].meta.tail else None)
            && s'.streams[stream].rows == s.streams[stream].rows
  {
  }

  /** Archiving marks the stream, so that it takes no more events, and notes who and why. */
  lemma ArchiveEnds(s: Store, stream: string, reason: Option<string>, r: AppendRequest, now: int)
    requires stream in s.streams && r.stream == stream
    ensures var s' := Perform(s, DoArchive(stream, reason));
            var meta := s'.streams[stream].meta.extra;
            && s'.streams[stream].archived && Append(s', r, now).Err?
            && "archived_by" in meta && meta["archived_by"] == "system"
            && (reason.Some? && reason.value != "" ==>
                  "archived_reason" in meta && meta["archived_reason"] == reason.value)
  {
  }

  lemma PerformKeepsValid(s: Store, op: StoreOp)
    requires ValidStore(s)
    ensures ValidStore(Perform(s, op))
  {
    if op.DoAppend? {
      if Append(s, op.request, op.now).Ok? { AppendEffect(s, op.request, op.now); }
    } else {
      AdminKeepsEvents(s, op);
    }
  }

  lemma PerformKeepsChain(s: Store, op: StoreOp)
    requires ValidStore(s) && ChainSound(s) && !WritesTail(op)
    ensures ChainSound(Perform(s, op))
  {
    var s' := Perform(s, op);
    forall name | name in s'.streams ensures SoundStream(s'.streams[name]) {
      if name in s.streams { assert ValidStream(name, s.streams[name]) && SoundStream(s.streams[name]); }
      match op {
        case DoAppend(r, now) =>
          if Admit(s, r).Ok? && name == r.stream { ExtendingKeepsSound(Admit(s, r).value, r); }
        case DoBackfill(stream, mode) =>
          if name == stream {
            var rows := s.streams[name].rows;
            assert Repaired(mode, rows) == rows by {
              forall i | 0 <= i < |rows| ensures Repaired(mode, rows)[i] == rows[i] { assert !Bad(rows, i); }
            }
          }
        case _ =>
      }
    }
  }

  /** After any run of appends, archives, repairs and metadata writes that leave
      `last_integrity_hash` alone, every stream verifies from position 1 and every
      cached tail is the recomputed one. */
  lemma {:induction false} EveryRunKeepsTheChain(ops: seq<StoreOp>)
    requires forall i | 0 <= i < |ops| :: !WritesTail(ops[i])
    ensures ValidStore(Run(EMPTY_STORE, ops)) && ChainSound(Run(EMPTY_STORE, ops))
  {
    if ops == [] {
    } else {
      var before := ops[..|ops| - 1];
      EveryRunKeepsTheChain(before);
      assert !WritesTail(ops[|ops| - 1]);
      PerformKeepsValid(Run(EMPTY_STORE, before), ops[|ops| - 1]);
      PerformKeepsChain(Run(EMPTY_STORE, before), ops[|ops| - 1]);
    }
  }

  /** Repair makes a stream sound iff nothing stays unresolved; `missing_or_invalid`
      always does.  From then on appends keep it sound (`ExtendingKeepsSound`). */
  lemma RepairedStreamIsSoundIff(mode: RepairMode, st: Stream)
    requires st.rows != []
    ensures SoundStream(Backfilled(mode, st)) <==> TallyOf(mode, st.rows, |st.rows|).unresolved == 0
    ensures mode.MissingOrInvalid? ==> SoundStream(Backfilled(mode, st))
  {
    RepairedVerifiesIffNothingUnresolved(mode, st.rows);
    TallyBalances(mode, st.rows, |st.rows|);
    RepairVerdicts(mode, st.rows, 0);
  }

  /* ---------- optimistic concurrency over whole runs ---------- */

  predicate Won(s: Store, op: StoreOp, name: string) {
    op.DoAppend? && op.request.stream == name && Append(s, op.request, op.now).Ok?
  }

  /** The versions at which the successful appends of a run to one stream were
      made, in commit order; -1 and 0 both mean a stream that is not there yet. */
  function Wins(s: Store, ops: seq<StoreOp>, name: string): seq<int> {
    if ops == [] then []
    else
      var op := ops[|ops| - 1];
      Wins(s, ops[..|ops| - 1], name)
      + if Won(Run(s, ops[..|ops| - 1]), op, name) then [Max(op.request.expected, 0)] else []
  }

  /** Strictly increasing within `low..high`. */
  predicate Rising(wins: seq<int>, low: int, high: int) {
    && (forall i | 0 <= i < |wins| :: low <= wins[i] < high)
    && (forall i, j | 0 <= i < j < |wins| :: wins[i] < wins[j])
  }

  lemma RisingExtends(wins: seq<int>, low: int, mid: int, high: int)
    requires Rising(wins, low, mid) && low <= mid <= high
    ensures Rising(wins, low, high)
    ensures mid < high ==> Rising(wins + [mid], low, high)
  {
  }

  lemma WinStep(s: Store, op: StoreOp, name: string)
    requires ValidStore(s)
    ensures ValidStore(Perform(s, op))
    ensures Won(s, op, name) ==>
              Max(op.request.expected, 0) == StreamVersion(s, name) < StreamVersion(Perform(s, op), name)
    ensures !Won(s, op, name) ==> StreamVersion(Perform(s, op), name) == StreamVersion(s, name)
  {
    PerformKeepsValid(s, op);
    if op.DoAppend? && Append(s, op.request, op.now).Ok? { AppendEffect(s, op.request, op.now); }
  }

  /** At most one append wins for each stream and expected version, however the
      appends of all writers interleave. */
  lemma {:induction false} OneWinnerPerVersion(s: Store, ops: seq<StoreOp>, name: string)
    requires ValidStore(s)
    ensures ValidStore(Run(s, ops))
    ensures StreamVersion(s, name) <= StreamVersion(Run(s, ops), name)
    ensures Rising(Wins(s, ops, name), StreamVersion(s, name), StreamVersion(Run(s, ops), name))
  {
    if ops != [] {
      var before, op := ops[..|ops| - 1], ops[|ops| - 1];
      OneWinnerPerVersion(s, before, name);
      WinStep(Run(s, before), op, name);
      RisingExtends(Wins(s, before, name), StreamVersion(s, name), StreamVersion(Run(s, before), name),
                    StreamVersion(Run(s, ops), name));
    }
  }

  /* ---------- reading the whole log ---------- */

  predicate Wanted(e: StoredEvent, from: nat, types: Option<Event -> bool>) {
    from < e.globalPosition && (types.Some? ==> types.value(e.event))
  }

  /** The wanted events of a log, in order. */
  function Select(log: seq<StoredEvent>, from: nat, types: Option<Event -> bool>): seq<StoredEvent> {
    if log == [] then []
    else
      Select(log[..|log| - 1], from, types)
      + if Wanted(log[|log| - 1], from, types) then [log[|log| - 1]] else []
  }

  function Take(s: seq<StoredEvent>, n: nat): seq<StoredEvent> {
    if n < |s| then s[..n] else s
  }

  function Flatten(batches: seq<seq<StoredEvent>>): seq<StoredEvent> {
    if batches == [] then [] else Flatten(batches[..|batches| - 1]) + batches[|batches| - 1]
  }

  predicate Ordered(log: seq<StoredEvent>) {
    forall i, j | 0 <= i < j < |log| :: log[i].globalPosition < log[j].globalPosition
  }

  /** The reader gives exactly the events after a position that are of a wanted type. */
  lemma {:induction false} SelectIs(log: seq<StoredEvent>, from: nat, types: Option<Event -> bool>, e: StoredEvent)
    ensures e in Select(log, from, types) <==>
            e in log && e.globalPosition > from && (types.Some? ==> types.value(e.event))
  {
    if log != [] {
      SelectIs(log[..|log| - 1], from, types, e);
      assert log == log[..|log| - 1] + [log[|log| - 1]];
    }
  }

  lemma {:induction false} SelectBounds(log: seq<StoredEvent>, from: nat, types: Option<Event -> bool>)
    requires Ordered(log)
    ensures forall i | 0 <= i < |Select(log, from, types)| ::
              from < Select(log, from, types)[i].globalPosition <= log[|log| - 1].globalPosition
  {
    if log != [] { SelectBounds(log[..|log| - 1], from, types); }
  }

  lemma {:induction false} SelectNothing(log: seq<StoredEvent>, from: nat, types: Option<Event -> bool>)
    requires forall i | 0 <= i < |log| :: log[i].globalPosition <= from
    ensures Select(log, from, types) == []
  {
    if log != [] { SelectNothing(log[..|log| - 1], from, types); }
  }

  /** Reading on after the first `k` selected events selects the rest. */
  lemma {:induction false} SelectResumes(log: seq<StoredEvent>, from: nat, types: Option<Event -> bool>, k: nat)
    requires Ordered(log) && 0 < k <= |Select(log, from, types)|
    ensures Select(log, Select(log, from, types)[k - 1].globalPosition, types) == Select(log, from, types)[k..]
  {
    var all := Select(log, from, types);
    var to := all[k - 1].globalPosition;
    var init, e := log[..|log| - 1], log[|log| - 1];
    assert from < to by { SelectBounds(log, from, types); }
    if !Wanted(e, from, types) {
      SelectResumes(init, from, types, k);
    } else if k == |all| {
      SelectNothing(log, to, types);
    } else {
      var before := Select(init, from, types);
      assert all == before + [e] && all[k - 1] == before[k - 1];
      assert to < e.globalPosition by { SelectBounds(init, from, types); }
      SelectResumes(init, from, types, k);
      assert all[k..] == before[k..] + [e];
    }
  }

  lemma {:induction false} LogIsOrdered(log: seq<StoredEvent>)
    requires ValidLog(log)
    ensures Ordered(log) && forall i | 0 <= i < |log| :: log[i].globalPosition == i + 1 && log[i].id == i
  {
    if log != [] { LogIsOrdered(log[..|log| - 1]); }
  }

  /** The batches are the first `read` of all selected events, and `rest` is still to come. */
  predicate ReadSoFar(batches: seq<seq<StoredEvent>>, all: seq<StoredEvent>, read: nat, rest: seq<StoredEvent>,
                      size: nat)
  {
    && read <= |all| && Flatten(batches) == all[..read] && rest == all[read..]
    && forall i | 0 <= i < |batches| :: 0 < |batches[i]| <= size
  }

  lemma ReadOn(batches: seq<seq<StoredEvent>>, all: seq<StoredEvent>, read: nat, rows: seq<StoredEvent>,
               unread: seq<StoredEvent>, size: nat)
    requires ReadSoFar(batches, all, read, rows + unread, size) && 0 < |rows| <= size
    ensures ReadSoFar(batches + [rows], all, read + |rows|, unread, size)
  {
    assert (batches + [rows])[..|batches|] == batches;
    assert all[read..] == rows + unread;
    assert all[..read + |rows|] == all[..read] + rows;
  }

  predicate CountsDown(limit: Option<nat>, remaining: Option<nat>, read: nat) {
    remaining.Some? == limit.Some? && (limit.Some? ==> remaining.value == limit.value - read)
  }

  lemma ReadToTheEnd(batches: seq<seq<StoredEvent>>, all: seq<StoredEvent>, read: nat, rest: seq<StoredEvent>,
                     size: nat, limit: Option<nat>, remaining: Option<nat>)
    requires ReadSoFar(batches, all, read, rest, size) && CountsDown(limit, remaining, read)
    requires rest == [] || remaining == Some(0)
    ensures Flatten(batches) == if limit.Some? then Take(all, limit.value) else all
  {
    assert all[..|all|] == all;
  }

  /** The rows when a loop has put the first `i` of `mended` in their places. */
  function MendedUpTo(rows: seq<Row>, mended: seq<Row>, i: nat): (after: seq<Row>)
    requires i <= |rows| == |mended|
    ensures |after| == |rows|
  {
    if i == 0 then rows else MendedUpTo(rows, mended, i - 1)[i - 1 := mended[i - 1]]
  }

  lemma {:induction false} MendedUpToAt(rows: seq<Row>, mended: seq<Row>, i: nat, j: nat)
    requires i <= |rows| == |mended| && j < |rows|
    ensures MendedUpTo(rows, mended, i)[j] == if j < i then mended[j] else rows[j]
  {
    if i > 0 { MendedUpToAt(rows, mended, i - 1, j); }
  }

  /** A row that needs no mending can be left alone. */
  lemma MendedOneMore(rows: seq<Row>, mended: seq<Row>, i: nat)
    requires i < |rows| == |mended| && mended[i] == rows[i]
    ensures MendedUpTo(rows, mended, i + 1) == MendedUpTo(rows, mended, i)
  {
    MendedUpToAt(rows, mended, i, i);
  }

  lemma MendedAll(rows: seq<Row>, mended: seq<Row>)
    requires |rows| == |mended|
    ensures MendedUpTo(rows, mended, |rows|) == mended
  {
    forall j | 0 <= j < |rows| { MendedUpToAt(rows, mended, |rows|, j); }
  }

  class EventStore {
    var streams: map<string, Stream>
    var log: seq<StoredEvent>
    var outbox: seq<OutboxRow>

    function State(): Store
      reads this
    {
      Store(streams, log, outbox)
    }

    constructor ()
      ensures State() == EMPTY_STORE
    {
      streams, log, outbox := map[], [], [];
    }

    method LoadStream(stream: string) returns (events: seq<Event>)
      ensures events == Load(State(), stream)
    {
      if stream in streams { events := EventsOf(streams[stream].rows); } else { events := []; }
    }

    method Admission(r: AppendRequest) returns (admitted: Result<Stream, Error>)
      ensures admitted == Admit(State(), r)
    {
      if r.drafts == [] || r.expected < -1 { return Err(DomainError); }
      if r.stream !in streams {
        if r.expected != -1 && r.expected != 0 { return Err(ConcurrencyError(r.expected, -1)); }
        return Ok(Stream(r.aggregateType, 0, false, Replaced(r.patch), []));
      }
      var st := streams[r.stream];
      if st.aggregateType != r.aggregateType { return Err(DomainError); }
      if st.archived { return Err(StreamArchived); }
      if r.expected == -1 || st.version != r.expected { return Err(ConcurrencyError(r.expected, st.version)); }
      admitted := Ok(st);
    }

    /** One transaction: refused appends leave every table as it was. */
    method AppendEvents(r: AppendRequest, now: int) returns (result: Result<nat, Error>)
      modifies this
      ensures match Append(old(State()), r, now)
              case Ok(after) => State() == after && result == Ok(StreamVersion(after, r.stream))
              case Err(e) => State() == old(State()) && result == Err(e)
    {
      var admitted := Admission(r);
      if admitted.Err? { return Err(admitted.error); }
      var st := admitted.value;
      var previous := Genesis;
      if st.version > 0 {
        if st.meta.tail.Some? { previous := st.meta.tail.value; } else { previous := TailOf(st.rows); }
      }
      var rows, newLog, newOutbox, tail := InsertRows(r, st.version, |log|, previous, now);
      st := st.(version := st.version + |r.drafts|,
                meta := Merged(st.meta, r.patch).(tail := Some(tail)),
                rows := st.rows + rows);
      assert st == Extended(admitted.value, r);
      streams, log, outbox := streams[r.stream := st], log + newLog, outbox + newOutbox;
      result := Ok(st.version);
    }

    /** The insertion loop of an append. */
    static method InsertRows(r: AppendRequest, version: nat, before: nat, start: Hash, now: int)
      returns (rows: seq<Row>, newLog: seq<StoredEvent>, newOutbox: seq<OutboxRow>, previous: Hash)
      ensures rows == Seal(start, NewContents(r, version))
      ensures newLog == NewLog(r, version, before, |r.drafts|, now)
      ensures newOutbox == NewOutbox(r, before, |r.drafts|, now)
      ensures previous == TailFrom(start, NewContents(r, version))
    {
      previous := start;
      rows, newLog, newOutbox := [], [], [];
      ghost var cs := NewContents(r, version);
      for i := 0 to |r.drafts|
        invariant previous == TailFrom(start, cs[..i])
        invariant rows == Seal(start, cs[..i])
        invariant newLog == NewLog(r, version, before, i, now)
        invariant newOutbox == NewOutbox(r, before, i, now)
      {
        var draft := r.drafts[i];
        var metadata := Lineage(draft.metadata, r.correlation, r.causation);
        var content := Content(r.stream, version + i + 1, draft.version, draft.event, metadata);
        var hash := Link(content, previous);
        assert cs[..i + 1][..i] == cs[..i] && cs[..i + 1][i] == content;
        rows := rows + [Row(content, Some(previous), Some(hash))];
        newLog := newLog + [StoredEvent(before + i, r.stream, version + i + 1, before + i + 1, draft.event,
                                        metadata.causation, now)];
        newOutbox := newOutbox
          + [OutboxRow(before + i, r.topic.GetOr(r.aggregateType + ".events"), Waiting, 0, now)];
        previous := hash;
      }
      assert cs[..|cs|] == cs;
    }

    /** The fallback that walks the whole stream for its tail hash. */
    static method TailOf(rows: seq<Row>) returns (tail: Hash)
      ensures tail == Tail(Contents(rows))
    {
      tail := Genesis;
      ghost var cs := Contents(rows);
      for i := 0 to |rows|
        invariant tail == Tail(cs[..i])
      {
        assert cs[..i + 1][..i] == cs[..i];
        tail := Link(rows[i].content, tail);
      }
      assert cs[..|rows|] == cs;
    }

    method SetStreamMetadata(stream: string, patch: MetaPatch, merge: bool) returns (result: Result<StreamMeta, Error>)
      modifies this`streams
      ensures State() == Perform(old(State()), DoSetMetadata(stream, patch, merge))
      ensures result == if stream in old(streams) then Ok(streams[stream].meta) else Err(StreamNotFound)
    {
      if stream !in streams { return Err(StreamNotFound); }
      var st := streams[stream];
      var meta := if merge then Merged(st.meta, patch) else Replaced(patch);
      streams := streams[stream := st.(meta := meta)];
      result := Ok(meta);
    }

    method ArchiveStream(stream: string, reason: Option<string>) returns (result: Result<StreamMeta, Error>)
      modifies this`streams
      ensures State() == Perform(old(State()), DoArchive(stream, reason))
      ensures result == if stream in old(streams) then Ok(streams[stream].meta) else Err(StreamNotFound)
    {
      if stream !in streams { return Err(StreamNotFound); }
      var st := streams[stream];
      var note: map<string, string> := map[];
      if reason.Some? && reason.value != "" { note := note["archived_reason" := reason.value]; }
      note := note["archived_by" := "system"];
      assert note == ArchiveNote(reason);
      streams := streams[stream := st.(archived := true, meta := st.meta.(extra := st.meta.extra + note))];
      result := Ok(streams[stream].meta);
    }

    /** `load_all` run to its end on a fixed log: the batches are non-empty, none
        is over-long, and together they are the first `limit` wanted events. */
    method LoadAll(from: nat, limit: Option<nat>, batchSize: nat, types: Option<Event -> bool>)
      returns (result: Result<seq<seq<StoredEvent>>, Error>)
      requires Ordered(log)
      ensures result.Err? <==> batchSize == 0 || limit == Some(0)
      ensures result.Ok? ==>
                && (forall i | 0 <= i < |result.value| :: 0 < |result.value[i]| <= batchSize)
                && Flatten(result.value) ==
                   if limit.Some? then Take(Select(log, from, types), limit.value) else Select(log, from, types)
    {
      if batchSize == 0 || limit == Some(0) { return Err(DomainError); }
      var cursor: nat, remaining: Option<nat> := from, limit;
      var batches: seq<seq<StoredEvent>> := [];
      ghost var all := Select(log, from, types);
      ghost var read: nat, rest := 0, all;
      while true
        invariant ReadSoFar(batches, all, read, rest, batchSize) && rest == Select(log, cursor, types)
        invariant CountsDown(limit, remaining, read)
        decreases |rest|
      {
        var fetchLimit := if remaining.Some? then Min(batchSize, remaining.value) else batchSize;
        if fetchLimit <= 0 { break; }
        var rows;
        ghost var unread;
        rows, unread := NextBatch(cursor, fetchLimit, types, batches, all, read, rest, batchSize);
        if rows == [] { break; }
        batches := batches + [rows];
        read, rest := read + |rows|, unread;
        cursor := rows[|rows| - 1].globalPosition;
        if remaining.Some? {
          remaining := Some(remaining.value - |rows|);
          if remaining.value <= 0 { break; }
        }
      }
      ReadToTheEnd(batches, all, read, rest, batchSize, limit, remaining);
      result := Ok(batches);
    }

    /** One page of the reader's query, and what reading on from its end leads to. */
    method NextBatch(cursor: nat, fetchLimit: nat, types: Option<Event -> bool>, ghost batches: seq<seq<StoredEvent>>,
                     ghost all: seq<StoredEvent>, ghost read: nat, ghost rest: seq<StoredEvent>, ghost size: nat)
      returns (rows: seq<StoredEvent>, ghost unread: seq<StoredEvent>)
      requires Ordered(log) && 0 < fetchLimit <= size && rest == Select(log, cursor, types)
      requires ReadSoFar(batches, all, read, rest, size)
      ensures rest == rows + unread && |rows| == Min(fetchLimit, |rest|)
      ensures rows != [] ==>
                && ReadSoFar(batches + [rows], all, read + |rows|, unread, size)
                && unread == Select(log, rows[|rows| - 1].globalPosition, types)
    {
      var selected := Select(log, cursor, types);
      var n := Min(fetchLimit, |selected|);
      rows, unread := selected[..n], selected[n..];
      assert selected == rows + unread;
      if n > 0 {
        ReadOn(batches, all, read, rows, unread, size);
        assert rows[n - 1] == selected[n - 1];
        SelectResumes(log, cursor, types, n);
      }
    }

    /** The repair job over the listed streams. */
    method BackfillIntegrityHashes(ids: seq<string>, mode: RepairMode, dryRun: bool) returns (summary: Summary)
      requires forall i, j | 0 <= i < j < |ids| :: ids[i] != ids[j]
      modifies this`streams
      ensures summary == SummaryOf(old(streams), ids, mode, |ids|)
      ensures streams.Keys == old(streams).Keys
      ensures forall name | name in streams ::
                streams[name] == if !dryRun && name in ids then Backfilled(mode, old(streams)[name])
                                 else old(streams)[name]
    {
      summary := NO_SUMMARY;
      for k := 0 to |ids|
        invariant summary == SummaryOf(old(streams), ids, mode, k)
        invariant streams.Keys == old(streams).Keys
        invariant forall name | name in streams ::
                    streams[name] == if !dryRun && name in ids[..k] then Backfilled(mode, old(streams)[name])
                                     else old(streams)[name]
      {
        var name := ids[k];
        assert forall x :: x in ids[..k + 1] <==> x in ids[..k] || x == name;
        assert name !in ids[..k];
        if name in streams {
          var st := streams[name];
          assert st == old(streams)[name];
          var rows, tally, tail := RepairRows(st.rows, mode, dryRun);
          if st.rows == [] {
            summary := summary.(streamsScanned := summary.streamsScanned + 1);
          } else {
            var metaBad := st.meta.tail != Some(tail);
            summary := summary.Add(tally, metaBad);
            if !dryRun { streams := streams[name := st.(rows := rows, meta := st.meta.(tail := Some(tail)))]; }
          }
        } else {
          summary := summary.(streamsScanned := summary.streamsScanned + 1);
        }
      }
      assert ids[..|ids|] == ids;
    }

    /** The expected hash of one row, whether the row carries it, and whether the mode repairs it. */
    static method JudgeRow(rows: seq<Row>, i: nat, tail: Hash, mode: RepairMode)
      returns (expected: Hash, valid: bool, shouldRepair: bool)
      requires i < |rows| && tail == Tail(Contents(rows)[..i])
      ensures expected == Tail(Contents(rows)[..i + 1])
      ensures valid <==> !Bad(rows, i)
      ensures shouldRepair <==> ShouldRepair(mode, rows, i)
      ensures Repaired(mode, rows)[i] ==
              if shouldRepair then Row(rows[i].content, Some(tail), Some(expected)) else rows[i]
    {
      assert Contents(rows)[..i + 1][..i] == Contents(rows)[..i];
      expected := Link(rows[i].content, tail);
      valid := rows[i].previousHash == Some(tail) && rows[i].integrityHash == Some(expected);
      shouldRepair := false;
      if mode == Missing {
        shouldRepair := rows[i].previousHash == None || rows[i].integrityHash == None;
      } else if !valid {
        shouldRepair := true;
      }
    }

    static method RepairRows(rows: seq<Row>, mode: RepairMode, dryRun: bool)
      returns (after: seq<Row>, tally: Tally, tail: Hash)
      ensures after == if dryRun then rows else Repaired(mode, rows)
      ensures tally == TallyOf(mode, rows, |rows|)
      ensures tail == Tail(Contents(rows))
    {
      var scanned, repaired, violations, unresolved := 0, 0, 0, 0;
      after, tail := rows, Genesis;
      ghost var cs, mended := Contents(rows), Repaired(mode, rows);
      for i := 0 to |rows|
        invariant tail == Tail(cs[..i])
        invariant Tally(scanned, repaired, violations, unresolved) == TallyOf(mode, rows, i)
        invariant after == if dryRun then rows else MendedUpTo(rows, mended, i)
      {
        var expected, valid, shouldRepair := JudgeRow(rows, i, tail, mode);
        if !shouldRepair { MendedOneMore(rows, mended, i); }
        if !valid {
          violations := violations + 1;
          if !shouldRepair { unresolved := unresolved + 1; }
        }
        if shouldRepair {
          if !dryRun { after := after[i := Row(rows[i].content, Some(tail), Some(expected))]; }
          repaired := repaired + 1;
        }
        scanned := scanned + 1;
        tail := expected;
      }
      assert cs[..|rows|] == cs;
      MendedAll(rows, mended);
      tally := Tally(scanned, repaired, violations, unresolved);
    }
  }

  datatype Summary = Summary(
    streamsScanned: nat, streamsWithEvents: nat, streamsWithRepairs: nat, eventsScanned: nat,
    eventsRepaired: nat, metadataRepaired: nat, violationsDetected: nat, unresolvedViolations: nat)
  {
    function Add(t: Tally, metaBad: bool): Summary {
      Summary(streamsScanned + 1, streamsWithEvents + 1,
              streamsWithRepairs + (if t.repaired > 0 then 1 else 0),
              eventsScanned + t.scanned, eventsRepaired + t.repaired,
              metadataRepaired + (if metaBad then 1 else 0),
              violationsDetected + t.violations, unresolvedViolations + t.unresolved)
    }
  }

  const NO_SUMMARY := Summary(0, 0, 0, 0, 0, 0, 0, 0)

  function SummaryOf(streams: map<string, Stream>, ids: seq<string>, mode: RepairMode, n: nat): Summary
    requires n <= |ids|
  {
    if n == 0 then NO_SUMMARY
    else
      var before := SummaryOf(streams, ids, mode, n - 1);
      var name := ids[n - 1];
      if name !in streams || streams[name].rows == [] then before.(streamsScanned := before.streamsScanned + 1)
      else
        var st := streams[name];
        before.Add(TallyOf(mode, st.rows, |st.rows|), st.meta.tail != Some(Tail(Contents(st.rows))))
  }

  lemma StreamBalances(mode: RepairMode, st: Stream)
    requires st.rows != []
    ensures var first, after := TallyOf(mode, st.rows, |st.rows|), Backfilled(mode, st);
            var second := TallyOf(mode, after.rows, |after.rows|);
            && first.violations == first.repaired + first.unresolved
            && (mode.MissingOrInvalid? ==> first.unresolved == 0)
            && second.repaired == 0 && second.violations == second.unresolved == first.unresolved
            && |after.rows| == |st.rows| && after.meta.tail == Some(Tail(Contents(after.rows)))
  {
    TallyBalances(mode, st.rows, |st.rows|);
    SecondRunRepairsNothing(mode, st.rows, |st.rows|);
    RepairVerdicts(mode, st.rows, 0);
  }

  /** The counters of a run and of a second run after it was applied. */
  predicate Balanced(mode: RepairMode, first: Summary, second: Summary) {
    && first.violationsDetected == first.eventsRepaired + first.unresolvedViolations
    && (mode.MissingOrInvalid? ==> first.unresolvedViolations == 0)
    && second.eventsRepaired == second.metadataRepaired == second.streamsWithRepairs == 0
    && second.violationsDetected == second.unresolvedViolations == first.unresolvedViolations
  }

  lemma AddingBalances(mode: RepairMode, st: Stream, first: Summary, second: Summary)
    requires st.rows != [] && Balanced(mode, first, second)
    ensures var after := Backfilled(mode, st);
            Balanced(mode, first.Add(TallyOf(mode, st.rows, |st.rows|), st.meta.tail != Some(Tail(Contents(st.rows)))),
                     second.Add(TallyOf(mode, after.rows, |after.rows|),
                                after.meta.tail != Some(Tail(Contents(after.rows)))))
  {
    StreamBalances(mode, st);
  }

  /** Over all listed streams: detected = repaired + unresolved in both modes; a
      second run after an applied one repairs nothing, and detects and leaves
      unresolved exactly what the first left unresolved. */
  lemma {:induction false} BackfillBalances(streams: map<string, Stream>, after: map<string, Stream>,
                                            ids: seq<string>, mode: RepairMode, n: nat)
    requires n <= |ids|
    requires after.Keys == streams.Keys
    requires forall name | name in streams && name in ids :: after[name] == Backfilled(mode, streams[name])
    ensures Balanced(mode, SummaryOf(streams, ids, mode, n), SummaryOf(after, ids, mode, n))
  {
    if n > 0 {
      BackfillBalances(streams, after, ids, mode, n - 1);
      var name := ids[n - 1];
      if name in streams && streams[name].rows != [] {
        AddingBalances(mode, streams[name], SummaryOf(streams, ids, mode, n - 1), SummaryOf(after, ids, mode, n - 1));
      }
    }
  }
}
