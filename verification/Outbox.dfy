/** The outbox relay: several workers lease rows, publish them into an insert-once
    sink, and record the outcome with retries that end in a dead letter. */
module Outbox {
  import opened Prelude
  import opened EventStore

  datatype Settings = Settings(batchSize: nat, maxAttempts: nat, retryBase: nat, retryMax: nat, claimTtl: nat)

  /** What the constructor of the relay demands. */
  predicate Sensible(c: Settings) {
    c.batchSize > 0 && c.maxAttempts > 0 && c.retryBase > 0 && c.retryMax > 0 && c.claimTtl > 0
  }

  predicate Eligible(r: OutboxRow, now: int) { r.status.Waiting? && r.nextAttempt <= now }

  /** The claim of one row. */
  function Leased(r: OutboxRow, until: int): OutboxRow { r.(attempts := r.attempts + 1, nextAttempt := until) }

  function MarkedPublished(r: OutboxRow): OutboxRow {
    if r.status.Waiting? then r.(status := Published) else r
  }

  /** `attempts` is what the worker read when it claimed, not what the row holds now. */
  function MarkedFailed(c: Settings, r: OutboxRow, attempts: nat, next: int): OutboxRow {
    if !r.status.Waiting? then r
    else if attempts >= c.maxAttempts then r.(status := DeadLetter)
    else r.(nextAttempt := next)
  }

  /** The sink ignores a second insert of the same outbox id. */
  function Inserted(sink: seq<nat>, id: nat): seq<nat> { if id in sink then sink else sink + [id] }

  predicate NoDuplicates(sink: seq<nat>) {
    forall i, j | 0 <= i < j < |sink| :: sink[i] != sink[j]
  }

  /* ---------- retry delays ---------- */

  function Pow2(n: nat): nat { if n == 0 then 1 else 2 * Pow2(n - 1) }

  function RetryDelay(c: Settings, attempts: nat): int {
    Min(c.retryBase * Pow2(Max(0, attempts - 1)), c.retryMax)
  }

  /** Delays double from attempt to attempt until they reach the cap, where they stay. */
  lemma DelaysDoubleUpToTheCap(c: Settings, attempts: nat)
    requires Sensible(c) && attempts > 0
    ensures RetryDelay(c, attempts + 1) == Min(2 * RetryDelay(c, attempts), c.retryMax)
    ensures 0 < RetryDelay(c, attempts) <= c.retryMax
  {
    Pow2Grows(c.retryBase, attempts - 1);
    var n := Pow2(attempts - 1);
    assert Pow2(attempts) == 2 * n;
    assert c.retryBase * (2 * n) == 2 * (c.retryBase * n);
  }

  lemma {:induction false} Pow2Grows(base: nat, n: nat)
    requires base > 0
    ensures base * Pow2(n) >= n + base
  {
    if n > 0 {
      Pow2Grows(base, n - 1);
      assert base * (2 * Pow2(n - 1)) == 2 * (base * Pow2(n - 1));
    }
  }

  /** The first retry waits for the base. */
  lemma FirstDelay(c: Settings)
    ensures RetryDelay(c, 1) == if c.retryBase < c.retryMax then c.retryBase else c.retryMax
  {
    assert c.retryBase * Pow2(0) == c.retryBase;
  }

  lemma {:induction false} DelaysAreMonotone(c: Settings, a: nat, b: nat)
    requires Sensible(c) && a <= b
    ensures RetryDelay(c, a) <= RetryDelay(c, b) <= c.retryMax
    decreases b
  {
    if a < b {
      DelaysAreMonotone(c, a, b - 1);
      if b > 1 { DelaysDoubleUpToTheCap(c, b - 1); }
    }
  }

  /** Every schedule of retries reaches the cap. */
  lemma DelaysReachTheCap(c: Settings, attempts: nat)
    requires Sensible(c) && attempts > c.retryMax
    ensures RetryDelay(c, attempts) == c.retryMax
  {
    Pow2Grows(c.retryBase, attempts - 1);
  }

  /* ---------- workers as a state machine ---------- */

  datatype Stage = Held | Delivered | Refused

  /** A claimed message in the hands of a worker. */
  datatype Ticket = Ticket(worker: nat, row: nat, attempts: nat, lease: int, stage: Stage)

  datatype Relay = Relay(rows: seq<OutboxRow>, sink: seq<nat>, tickets: map<nat, Ticket>, clock: int)

  const START := Relay([], [], map[], 0)

  /** A claim of a batch is one `Claim` for each of its rows; other steps may come in between. */
  datatype Action =
    | Commit(added: seq<OutboxRow>)                                  // an append commits its outbox rows
    | Tick(elapsed: nat)
    | Claim(ticket: nat, worker: nat, row: nat, now: int, until: int)
    | Publish(ticket: nat)
    | PublishFails(ticket: nat, landed: bool)                        // raised before or after the insert
    | MarkPublished(ticket: nat)
    | MarkFailure(ticket: nat, next: int)
    | Crash(worker: nat)

  predicate NewRows(start: nat, added: seq<OutboxRow>) {
    forall i | 0 <= i < |added| ::
      added[i].event == start + i && added[i].status.Waiting? && added[i].attempts == 0
  }

  predicate Enabled(w: Relay, a: Action) {
    match a
    case Commit(added) => NewRows(|w.rows|, added)
    case Tick(_) => true
    case Claim(t, _, row, now, _) => t !in w.tickets && row < |w.rows| && Eligible(w.rows[row], now)
    case Publish(t) => t in w.tickets && w.tickets[t].stage.Held?
    case PublishFails(t, _) => t in w.tickets && w.tickets[t].stage.Held?
    case MarkPublished(t) => t in w.tickets && w.tickets[t].stage.Delivered? && w.tickets[t].row < |w.rows|
    case MarkFailure(t, _) => t in w.tickets && w.tickets[t].stage.Refused? && w.tickets[t].row < |w.rows|
    case Crash(_) => true
  }

  function Next(c: Settings, w: Relay, a: Action): Relay
    requires Enabled(w, a)
  {
    match a
    case Commit(added) => w.(rows := w.rows + added)
    case Tick(elapsed) => w.(clock := w.clock + elapsed)
    case Claim(t, worker, row, now, until) =>
      var r := Leased(w.rows[row], until);
      w.(rows := w.rows[row := r], tickets := w.tickets[t := Ticket(worker, row, r.attempts, until, Held)])
    case Publish(t) =>
      w.(sink := Inserted(w.sink, w.tickets[t].row),
         tickets := w.tickets[t := w.tickets[t].(stage := Delivered)])
    case PublishFails(t, landed) =>
      w.(sink := if landed then Inserted(w.sink, w.tickets[t].row) else w.sink,
         tickets := w.tickets[t := w.tickets[t].(stage := Refused)])
    case MarkPublished(t) =>
      var row := w.tickets[t].row;
      w.(rows := w.rows[row := MarkedPublished(w.rows[row])], tickets := w.tickets - {t})
    case MarkFailure(t, next) =>
      var row := w.tickets[t].row;
      w.(rows := w.rows[row := MarkedFailed(c, w.rows[row], w.tickets[t].attempts, next)],
         tickets := w.tickets - {t})
    case Crash(worker) =>
      w.(tickets := map t | t in w.tickets && w.tickets[t].worker != worker :: w.tickets[t])
  }

  predicate RowsSafe(c: Settings, rows: seq<OutboxRow>, sink: seq<nat>) {
    && (forall i | 0 <= i < |rows| ::
          && rows[i].event == i
          && (rows[i].status.Published? ==> i in sink)
          && (rows[i].status.DeadLetter? ==> rows[i].attempts >= c.maxAttempts))
    && NoDuplicates(sink) && (forall id | id in sink :: id < |rows|)
  }

  predicate TicketSafe(rows: seq<OutboxRow>, sink: seq<nat>, t: Ticket) {
    && t.row < |rows| && t.attempts <= rows[t.row].attempts
    && (t.stage.Delivered? ==> t.row in sink)
  }

  /** Each event has one row; what is published is in the sink, nothing is there
      twice, and a dead letter has used up its attempts. */
  predicate Inv(c: Settings, w: Relay) {
    RowsSafe(c, w.rows, w.sink) && forall t | t in w.tickets :: TicketSafe(w.rows, w.sink, w.tickets[t])
  }

  lemma InsertedOnce(sink: seq<nat>, id: nat)
    ensures id in Inserted(sink, id) && sink <= Inserted(sink, id)
    ensures NoDuplicates(sink) ==> NoDuplicates(Inserted(sink, id))
    ensures forall x | x in Inserted(sink, id) :: x in sink || x == id
  {
  }

  lemma NextKeepsInv(c: Settings, w: Relay, a: Action)
    requires Inv(c, w) && Enabled(w, a)
    ensures Inv(c, Next(c, w, a))
  {
    match a
    case Publish(t) => InsertedOnce(w.sink, w.tickets[t].row);
    case PublishFails(t, landed) => InsertedOnce(w.sink, w.tickets[t].row);
    case _ =>
  }

  function Exec(c: Settings, w: Relay, acts: seq<Action>): Relay {
    if acts == [] then w
    else
      var before, a := Exec(c, w, acts[..|acts| - 1]), acts[|acts| - 1];
      if Enabled(before, a) then Next(c, before, a) else before
  }

  lemma {:induction false} ExecKeepsInv(c: Settings, w: Relay, acts: seq<Action>)
    requires Inv(c, w)
    ensures Inv(c, Exec(c, w, acts))
  {
    if acts != [] {
      var before, a := Exec(c, w, acts[..|acts| - 1]), acts[|acts| - 1];
      ExecKeepsInv(c, w, acts[..|acts| - 1]);
      if Enabled(before, a) { NextKeepsInv(c, before, a); }
    }
  }

  /** Safety over every interleaving of writers, workers, crashes and expired leases. */
  lemma EveryRunIsSafe(c: Settings, acts: seq<Action>)
    ensures Inv(c, Exec(c, START, acts))
  {
    ExecKeepsInv(c, START, acts);
  }

  /** Rows never disappear or change their event or topic; a settled row does not
      change its status again; attempts never go down. */
  predicate RowFollows(r: OutboxRow, r': OutboxRow) {
    && r'.event == r.event && r'.topic == r.topic && r.attempts <= r'.attempts
    && (!r.status.Waiting? ==> r' == r)
  }

  predicate Follows(w: Relay, w': Relay) {
    && |w.rows| <= |w'.rows| && w.sink <= w'.sink
    && forall i | 0 <= i < |w.rows| :: RowFollows(w.rows[i], w'.rows[i])
  }

  lemma NextFollows(c: Settings, w: Relay, a: Action)
    requires Enabled(w, a)
    ensures Follows(w, Next(c, w, a))
  {
  }

  /** Published and dead-lettered are for good, on every continuation of every run. */
  lemma {:induction false} SettledForGood(c: Settings, w: Relay, acts: seq<Action>)
    ensures Follows(w, Exec(c, w, acts))
  {
    if acts != [] {
      var before, a := Exec(c, w, acts[..|acts| - 1]), acts[|acts| - 1];
      SettledForGood(c, w, acts[..|acts| - 1]);
      if Enabled(before, a) { NextFollows(c, before, a); }
    }
  }

  /* ---------- leases ---------- */

  /** Workers share the clock, and no lease runs out while its message is unsettled. */
  predicate Punctual(c: Settings, w: Relay, a: Action) {
    match a
    case Claim(_, _, _, now, until) => now == w.clock && until == w.clock + c.claimTtl
    case Tick(elapsed) => forall t | t in w.tickets :: w.clock + elapsed < w.tickets[t].lease
    case _ => true
  }

  predicate PunctualRun(c: Settings, w: Relay, acts: seq<Action>) {
    acts == [] ||
    (var before, a := Exec(c, w, acts[..|acts| - 1]), acts[|acts| - 1];
     PunctualRun(c, w, acts[..|acts| - 1]) && (Enabled(before, a) ==> Punctual(c, before, a)))
  }

  /** No row has two unsettled holders, and a held row waits out its holder's lease. */
  predicate Exclusive(w: Relay) {
    && (forall t, u | t in w.tickets && u in w.tickets && t != u :: w.tickets[t].row != w.tickets[u].row)
    && forall t | t in w.tickets ::
         var k := w.tickets[t];
         && k.row < |w.rows| && w.rows[k.row].status.Waiting? && w.clock < k.lease
         && w.rows[k.row].nextAttempt == k.lease && w.rows[k.row].attempts == k.attempts
  }

  lemma NextKeepsExclusive(c: Settings, w: Relay, a: Action)
    requires Sensible(c) && Exclusive(w) && Enabled(w, a) && Punctual(c, w, a)
    ensures Exclusive(Next(c, w, a))
  {
  }

  /** With punctual workers a claimed row has one holder at a time, so a settlement
      always finds its row as the claim left it. */
  lemma {:induction false} LeasesAreExclusive(c: Settings, acts: seq<Action>)
    requires Sensible(c) && PunctualRun(c, START, acts)
    ensures Exclusive(Exec(c, START, acts))
  {
    if acts != [] {
      var before, a := Exec(c, START, acts[..|acts| - 1]), acts[|acts| - 1];
      LeasesAreExclusive(c, acts[..|acts| - 1]);
      if Enabled(before, a) { NextKeepsExclusive(c, before, a); }
    }
  }

  /* ---------- one crash-free worker ---------- */

  /** A claimed row as the claim's statement returns it, with its new attempt counted. */
  datatype Message = Message(id: nat, attempts: nat)

  /** The messages a claim takes: the first `limit` eligible rows. */
  function ClaimOf(rows: seq<OutboxRow>, now: int, limit: nat): (messages: seq<Message>)
    ensures |messages| <= limit
    decreases |rows|, 0
  {
    if rows == [] then []
    else
      var n := |rows| - 1;
      if Taken(rows, now, limit, n) then ClaimOf(rows[..n], now, limit) + [Message(n, rows[n].attempts + 1)]
      else ClaimOf(rows[..n], now, limit)
  }

  /** Row `r` is claimed: it is eligible, and the rows below it do not fill the batch. */
  predicate Taken(rows: seq<OutboxRow>, now: int, limit: nat, r: nat)
    requires r < |rows|
    decreases r, 1
  {
    Eligible(rows[r], now) && |ClaimOf(rows[..r], now, limit)| < limit
  }

  predicate Claims(messages: seq<Message>, r: nat) {
    exists i | 0 <= i < |messages| :: messages[i].id == r
  }

  predicate Ascending(messages: seq<Message>, bound: nat) {
    && (forall i, j | 0 <= i < j < |messages| :: messages[i].id < messages[j].id)
    && (forall i | 0 <= i < |messages| :: messages[i].id < bound)
  }

  lemma ClaimsOneMore(messages: seq<Message>, m: Message, r: nat)
    ensures Claims(messages + [m], r) <==> Claims(messages, r) || m.id == r
  {
    if Claims(messages, r) {
      var i :| 0 <= i < |messages| && messages[i].id == r;
      assert (messages + [m])[i].id == r;
    }
    assert (messages + [m])[|messages|] == m;
  }

  lemma {:induction false} ClaimAscends(rows: seq<OutboxRow>, now: int, limit: nat)
    ensures Ascending(ClaimOf(rows, now, limit), |rows|)
  {
    if rows != [] { ClaimAscends(rows[..|rows| - 1], now, limit); }
  }

  /** A claim takes eligible rows only, lowest ids first, and as many as the batch allows. */
  lemma {:induction false} ClaimIsLowestFirst(rows: seq<OutboxRow>, now: int, limit: nat, r: nat)
    requires r < |rows|
    ensures var messages := ClaimOf(rows, now, limit);
            && Ascending(messages, |rows|) && |messages| <= limit
            && (Claims(messages, r) <==> Taken(rows, now, limit, r))
            && (Claims(messages, r) ==> rows[r].status.Waiting? && rows[r].nextAttempt <= now)
            && (rows[r].status.Waiting? && rows[r].nextAttempt <= now && !Claims(messages, r) ==>
                  |messages| == limit && forall i | 0 <= i < |messages| :: messages[i].id < r)
    decreases |rows|
  {
    var n := |rows| - 1;
    var before := ClaimOf(rows[..n], now, limit);
    ClaimAscends(rows, now, limit);
    ClaimAscends(rows[..n], now, limit);
    ClaimsOneMore(before, Message(n, rows[n].attempts + 1), r);
    if r < n {
      ClaimIsLowestFirst(rows[..n], now, limit, r);
      assert rows[..n][..r] == rows[..r];
    }
  }

  /** The rows once they are claimed. */
  function LeasedRows(rows: seq<OutboxRow>, now: int, limit: nat, until: int): (rows': seq<OutboxRow>)
    ensures |rows'| == |rows|
  {
    if rows == [] then []
    else
      var n := |rows| - 1;
      LeasedRows(rows[..n], now, limit, until)
      + [if Taken(rows, now, limit, n) then Leased(rows[n], until) else rows[n]]
  }

  /** Exactly the claimed rows are leased. */
  lemma {:induction false} LeasedRowIs(rows: seq<OutboxRow>, now: int, limit: nat, until: int, r: nat)
    requires r < |rows|
    ensures LeasedRows(rows, now, limit, until)[r]
            == if Claims(ClaimOf(rows, now, limit), r) then Leased(rows[r], until) else rows[r]
    decreases |rows|
  {
    var n := |rows| - 1;
    ClaimIsLowestFirst(rows, now, limit, r);
    if r < n {
      LeasedRowIs(rows[..n], now, limit, until, r);
      ClaimIsLowestFirst(rows[..n], now, limit, r);
      assert rows[..n][..r] == rows[..r];
    }
  }

  datatype Outcome = Fine | Lost | LandedButRaised

  /** A row once a message claimed with these attempts is settled. */
  function Settled(c: Settings, r: OutboxRow, attempts: nat, outcome: Outcome, failedAt: int): OutboxRow {
    if outcome.Fine? then MarkedPublished(r)
    else MarkedFailed(c, r, attempts, failedAt + RetryDelay(c, attempts))
  }

  /** The rows once the first `n` messages are settled. */
  function SettledRows(c: Settings, rows: seq<OutboxRow>, messages: seq<Message>, n: nat, outcome: nat -> Outcome,
                       failedAt: nat -> int): (rows': seq<OutboxRow>)
    requires n <= |messages|
    ensures |rows'| == |rows|
  {
    if n == 0 then rows
    else
      var before, m := SettledRows(c, rows, messages, n - 1, outcome, failedAt), messages[n - 1];
      if m.id >= |rows| then before
      else before[m.id := Settled(c, before[m.id], m.attempts, outcome(m.id), failedAt(m.id))]
  }

  /** The sink after the first `n` messages were tried. */
  function SinkAfter(sink: seq<nat>, messages: seq<Message>, n: nat, outcome: nat -> Outcome): seq<nat>
    requires n <= |messages|
  {
    if n == 0 then sink
    else
      var before, m := SinkAfter(sink, messages, n - 1, outcome), messages[n - 1];
      if outcome(m.id).Lost? then before else Inserted(before, m.id)
  }

  datatype RunResult = RunResult(claimed: nat, published: nat, failed: nat, deadLettered: nat)

  /** What a run reports for the first `n` messages it claimed. */
  function Tally(c: Settings, messages: seq<Message>, n: nat, outcome: nat -> Outcome): (r: RunResult)
    requires n <= |messages|
    ensures r.claimed == n == r.published + r.failed && r.deadLettered <= r.failed
  {
    if n == 0 then RunResult(0, 0, 0, 0)
    else
      var before, m := Tally(c, messages, n - 1, outcome), messages[n - 1];
      if outcome(m.id).Fine? then RunResult(n, before.published + 1, before.failed, before.deadLettered)
      else RunResult(n, before.published, before.failed + 1,
                     before.deadLettered + if m.attempts >= c.maxAttempts then 1 else 0)
  }

  /** The rows after a whole run. */
  function RunRows(c: Settings, rows: seq<OutboxRow>, now: int, outcome: nat -> Outcome, failedAt: nat -> int)
    : (rows': seq<OutboxRow>)
    ensures |rows'| == |rows|
  {
    var messages := ClaimOf(rows, now, c.batchSize);
    SettledRows(c, LeasedRows(rows, now, c.batchSize, now + c.claimTtl), messages, |messages|, outcome, failedAt)
  }

  /** The sink after a whole run. */
  function RunSink(c: Settings, rows: seq<OutboxRow>, sink: seq<nat>, now: int, outcome: nat -> Outcome): seq<nat> {
    var messages := ClaimOf(rows, now, c.batchSize);
    SinkAfter(sink, messages, |messages|, outcome)
  }

  /** A claimed row once its message is settled. */
  function Finished(c: Settings, r: OutboxRow, now: int, outcome: Outcome, failedAt: int): OutboxRow {
    Settled(c, Leased(r, now + c.claimTtl), r.attempts + 1, outcome, failedAt)
  }

  lemma {:induction false} SettledBelow(c: Settings, rows: seq<OutboxRow>, last: OutboxRow, messages: seq<Message>,
                                        more: seq<Message>, n: nat, outcome: nat -> Outcome, failedAt: nat -> int)
    requires Ascending(messages, |rows|) && n <= |messages|
    ensures SettledRows(c, rows + [last], messages + more, n, outcome, failedAt)
            == SettledRows(c, rows, messages, n, outcome, failedAt) + [last]
  {
    if n > 0 {
      SettledBelow(c, rows, last, messages, more, n - 1, outcome, failedAt);
      assert (messages + more)[n - 1] == messages[n - 1];
    }
  }

  lemma SettledWithTheLast(c: Settings, rows: seq<OutboxRow>, last: OutboxRow, messages: seq<Message>, m: Message,
                           outcome: nat -> Outcome, failedAt: nat -> int)
    requires Ascending(messages, |rows|) && m.id == |rows|
    ensures SettledRows(c, rows + [last], messages + [m], |messages| + 1, outcome, failedAt)
            == SettledRows(c, rows, messages, |messages|, outcome, failedAt)
               + [Settled(c, last, m.attempts, outcome(m.id), failedAt(m.id))]
  {
    var n, more := |messages|, messages + [m];
    var before := SettledRows(c, rows, messages, n, outcome, failedAt);
    SettledBelow(c, rows, last, messages, [m], n, outcome, failedAt);
    assert more[n] == m;
    SettledOneMore(c, rows + [last], more, n, outcome, failedAt);
    var settled := Settled(c, last, m.attempts, outcome(m.id), failedAt(m.id));
    LastReplaced(before, last, settled);
  }

  lemma LastReplaced(rows: seq<OutboxRow>, last: OutboxRow, other: OutboxRow)
    ensures (rows + [last])[|rows|] == last && (rows + [last])[|rows| := other] == rows + [other]
  {
  }

  lemma SettledOneMore(c: Settings, rows: seq<OutboxRow>, messages: seq<Message>, n: nat, outcome: nat -> Outcome,
                       failedAt: nat -> int)
    requires n < |messages| && messages[n].id < |rows|
    ensures var before, m := SettledRows(c, rows, messages, n, outcome, failedAt), messages[n];
            SettledRows(c, rows, messages, n + 1, outcome, failedAt)
            == before[m.id := Settled(c, before[m.id], m.attempts, outcome(m.id), failedAt(m.id))]
  {
  }

  /** A run treats the last row by itself. */
  lemma RunOfTheLast(c: Settings, rows: seq<OutboxRow>, now: int, outcome: nat -> Outcome, failedAt: nat -> int)
    requires rows != []
    ensures var n := |rows| - 1;
            RunRows(c, rows, now, outcome, failedAt)
            == RunRows(c, rows[..n], now, outcome, failedAt)
               + [if Taken(rows, now, c.batchSize, n) then Finished(c, rows[n], now, outcome(n), failedAt(n))
                  else rows[n]]
  {
    var n, until := |rows| - 1, now + c.claimTtl;
    var before, messages := LeasedRows(rows[..n], now, c.batchSize, until), ClaimOf(rows[..n], now, c.batchSize);
    ClaimAscends(rows[..n], now, c.batchSize);
    if Taken(rows, now, c.batchSize, n) {
      var m := Message(n, rows[n].attempts + 1);
      SettledWithTheLast(c, before, Leased(rows[n], until), messages, m, outcome, failedAt);
    } else {
      SettledBelow(c, before, rows[n], messages, [], |messages|, outcome, failedAt);
      assert messages + [] == messages;
    }
  }

  /** A run settles exactly the rows it claims and leaves the others alone. */
  lemma {:induction false} RunRowIs(c: Settings, rows: seq<OutboxRow>, now: int, outcome: nat -> Outcome,
                                    failedAt: nat -> int, r: nat)
    requires r < |rows|
    ensures RunRows(c, rows, now, outcome, failedAt)[r]
            == if Claims(ClaimOf(rows, now, c.batchSize), r) then Finished(c, rows[r], now, outcome(r), failedAt(r))
               else rows[r]
    decreases |rows|
  {
    var n := |rows| - 1;
    RunOfTheLast(c, rows, now, outcome, failedAt);
    ClaimIsLowestFirst(rows, now, c.batchSize, r);
    if r < n {
      RunRowIs(c, rows[..n], now, outcome, failedAt, r);
      ClaimIsLowestFirst(rows[..n], now, c.batchSize, r);
      assert rows[..n][..r] == rows[..r];
    }
  }

  /** Every outcome of a run: a claimed row is published iff its publish returned, given up
      iff it did not and this was the last attempt, and otherwise waits for the delayed
      retry; with one more attempt in every case. */
  lemma RunDecidesRows(c: Settings, rows: seq<OutboxRow>, now: int, outcome: nat -> Outcome, failedAt: nat -> int,
                       r: nat)
    requires r < |rows| && Taken(rows, now, c.batchSize, r)
    ensures var row, row' := rows[r], RunRows(c, rows, now, outcome, failedAt)[r];
            && row'.attempts == row.attempts + 1 && row'.event == row.event && row'.topic == row.topic
            && (row'.status.Published? <==> outcome(r).Fine?)
            && (row'.status.DeadLetter? <==> !outcome(r).Fine? && row.attempts + 1 >= c.maxAttempts)
            && (row'.status.Waiting? ==> row'.nextAttempt == failedAt(r) + RetryDelay(c, row.attempts + 1))
  {
    ClaimIsLowestFirst(rows, now, c.batchSize, r);
    RunRowIs(c, rows, now, outcome, failedAt, r);
  }

  /** What a run puts into the sink: the messages it claimed that were not lost. */
  lemma {:induction false} SinkHolds(sink: seq<nat>, messages: seq<Message>, n: nat, outcome: nat -> Outcome, x: nat)
    requires n <= |messages|
    ensures x in SinkAfter(sink, messages, n, outcome) <==>
            x in sink || (!outcome(x).Lost? && exists i | 0 <= i < n :: messages[i].id == x)
  {
    if n > 0 { SinkHolds(sink, messages, n - 1, outcome, x); }
  }

  function CountOf(rows: seq<OutboxRow>, status: OutboxStatus): nat {
    if rows == [] then 0
    else CountOf(rows[..|rows| - 1], status) + if rows[|rows| - 1].status == status then 1 else 0
  }

  function AttemptsIn(rows: seq<OutboxRow>): nat {
    if rows == [] then 0 else AttemptsIn(rows[..|rows| - 1]) + rows[|rows| - 1].attempts
  }

  lemma {:induction false} TallyBelow(c: Settings, messages: seq<Message>, more: seq<Message>, n: nat,
                                      outcome: nat -> Outcome)
    requires n <= |messages|
    ensures Tally(c, messages + more, n, outcome) == Tally(c, messages, n, outcome)
  {
    if n > 0 { TallyBelow(c, messages, more, n - 1, outcome); }
  }

  /** The report of a run against its table: as many published and dead-lettered as rows
      became so, as many claimed as attempts were spent. */
  lemma {:induction false} TallyCountsRows(c: Settings, rows: seq<OutboxRow>, now: int, outcome: nat -> Outcome,
                                           failedAt: nat -> int)
    ensures var messages, rows' := ClaimOf(rows, now, c.batchSize), RunRows(c, rows, now, outcome, failedAt);
            var t := Tally(c, messages, |messages|, outcome);
            && CountOf(rows', Published) == CountOf(rows, Published) + t.published
            && CountOf(rows', DeadLetter) == CountOf(rows, DeadLetter) + t.deadLettered
            && AttemptsIn(rows') == AttemptsIn(rows) + t.claimed
    decreases |rows|
  {
    if rows != [] {
      var n := |rows| - 1;
      TallyCountsRows(c, rows[..n], now, outcome, failedAt);
      RunOfTheLast(c, rows, now, outcome, failedAt);
      var before := RunRows(c, rows[..n], now, outcome, failedAt);
      var last := RunRows(c, rows, now, outcome, failedAt)[n];
      assert (before + [last])[..n] == before;
      TallyOfTheLast(c, rows, now, outcome);
    }
  }

  lemma TallyOfTheLast(c: Settings, rows: seq<OutboxRow>, now: int, outcome: nat -> Outcome)
    requires rows != []
    ensures var n := |rows| - 1;
            var before, all := ClaimOf(rows[..n], now, c.batchSize), ClaimOf(rows, now, c.batchSize);
            var t, t' := Tally(c, before, |before|, outcome), Tally(c, all, |all|, outcome);
            if !Taken(rows, now, c.batchSize, n) then t' == t
            else
              && t'.claimed == t.claimed + 1
              && t'.published == t.published + (if outcome(n).Fine? then 1 else 0)
              && t'.deadLettered == t.deadLettered +
                   if !outcome(n).Fine? && rows[n].attempts + 1 >= c.maxAttempts then 1 else 0
  {
    var n := |rows| - 1;
    var before := ClaimOf(rows[..n], now, c.batchSize);
    if Taken(rows, now, c.batchSize, n) {
      var m := Message(n, rows[n].attempts + 1);
      TallyBelow(c, before, [m], |before|, outcome);
      assert (before + [m])[|before|] == m;
    }
  }

  /* ---------- the run as steps of the state machine ---------- */

  /** One `Claim` step for each message, which gets its place in the batch as its ticket. */
  function ClaimActs(messages: seq<Message>, now: int, until: int): seq<Action> {
    seq(|messages|, i requires 0 <= i < |messages| => Claim(i, 0, messages[i].id, now, until))
  }

  function PublishAct(t: nat, outcome: Outcome): Action {
    if outcome.Fine? then Publish(t) else PublishFails(t, outcome.LandedButRaised?)
  }

  function MarkAct(c: Settings, t: nat, m: Message, outcome: Outcome, failedAt: int): Action {
    if outcome.Fine? then MarkPublished(t) else MarkFailure(t, failedAt + RetryDelay(c, m.attempts))
  }

  /** The first `n` messages are published and marked one after the other. */
  function SettleActs(c: Settings, messages: seq<Message>, n: nat, outcome: nat -> Outcome, failedAt: nat -> int)
    : seq<Action>
    requires n <= |messages|
  {
    if n == 0 then []
    else
      var m := messages[n - 1];
      SettleActs(c, messages, n - 1, outcome, failedAt)
      + [PublishAct(n - 1, outcome(m.id)), MarkAct(c, n - 1, m, outcome(m.id), failedAt(m.id))]
  }

  function RunActs(c: Settings, rows: seq<OutboxRow>, now: int, outcome: nat -> Outcome, failedAt: nat -> int)
    : seq<Action>
  {
    var messages := ClaimOf(rows, now, c.batchSize);
    ClaimActs(messages, now, now + c.claimTtl) + SettleActs(c, messages, |messages|, outcome, failedAt)
  }

  /** The tickets of the messages from place `from` on. */
  function Tickets(messages: seq<Message>, from: nat, until: int): map<nat, Ticket> {
    map t: nat | from <= t < |messages| :: Ticket(0, messages[t].id, messages[t].attempts, until, Held)
  }

  lemma {:induction false} ExecSplits(c: Settings, w: Relay, first: seq<Action>, second: seq<Action>)
    ensures Exec(c, w, first + second) == Exec(c, Exec(c, w, first), second)
  {
    if second == [] {
      assert first + second == first;
    } else {
      var n := |second| - 1;
      assert (first + second)[..|first + second| - 1] == first + second[..n];
      ExecSplits(c, w, first, second[..n]);
    }
  }

  lemma ExecOne(c: Settings, w: Relay, a: Action)
    ensures Exec(c, w, [a]) == if Enabled(w, a) then Next(c, w, a) else w
  {
    assert [a][..0] == [];
  }

  /** The claim steps lease the rows of the claim; rows after them are not looked at. */
  lemma {:induction false} ClaimSteps(c: Settings, rows: seq<OutboxRow>, rest: seq<OutboxRow>, sink: seq<nat>,
                                      clock: int, now: int, limit: nat, until: int)
    ensures Exec(c, Relay(rows + rest, sink, map[], clock), ClaimActs(ClaimOf(rows, now, limit), now, until))
            == Relay(LeasedRows(rows, now, limit, until) + rest, sink,
                     Tickets(ClaimOf(rows, now, limit), 0, until), clock)
    decreases |rows|
  {
    if rows == [] {
      assert ClaimActs([], now, until) == [];
    } else {
      var n := |rows| - 1;
      var messages, leased := ClaimOf(rows[..n], now, limit), LeasedRows(rows[..n], now, limit, until);
      ClaimSteps(c, rows[..n], [rows[n]] + rest, sink, clock, now, limit, until);
      MovedOver(rows, leased, rest);
      if Taken(rows, now, limit, n) {
        OneMoreClaimed(c, Relay(rows + rest, sink, map[], clock), messages, leased, rows[n], rest, sink, clock, now,
                       until);
      }
    }
  }

  lemma MovedOver(rows: seq<OutboxRow>, leased: seq<OutboxRow>, rest: seq<OutboxRow>)
    requires rows != []
    ensures var n := |rows| - 1;
            && rows + rest == rows[..n] + ([rows[n]] + rest)
            && leased + ([rows[n]] + rest) == leased + [rows[n]] + rest
  {
  }

  lemma ClaimStep(c: Settings, messages: seq<Message>, leased: seq<OutboxRow>, row: OutboxRow, rest: seq<OutboxRow>,
                  sink: seq<nat>, clock: int, now: int, until: int)
    requires Eligible(row, now)
    ensures var w := Relay(leased + ([row] + rest), sink, Tickets(messages, 0, until), clock);
            var a := Claim(|messages|, 0, |leased|, now, until);
            var more := messages + [Message(|leased|, row.attempts + 1)];
            && ClaimActs(more, now, until) == ClaimActs(messages, now, until) + [a]
            && Enabled(w, a)
            && Next(c, w, a) == Relay(leased + [Leased(row, until)] + rest, sink, Tickets(more, 0, until), clock)
  {
    var n := |leased|;
    var w := Relay(leased + ([row] + rest), sink, Tickets(messages, 0, until), clock);
    var more := messages + [Message(n, row.attempts + 1)];
    assert w.rows[n] == row;
    assert w.rows[n := Leased(row, until)] == leased + [Leased(row, until)] + rest;
    assert Tickets(more, 0, until)
        == Tickets(messages, 0, until)[|messages| := Ticket(0, n, row.attempts + 1, until, Held)];
  }

  lemma OneMoreClaimed(c: Settings, start: Relay, messages: seq<Message>, leased: seq<OutboxRow>, row: OutboxRow,
                       rest: seq<OutboxRow>, sink: seq<nat>, clock: int, now: int, until: int)
    requires Eligible(row, now)
    requires Exec(c, start, ClaimActs(messages, now, until))
             == Relay(leased + ([row] + rest), sink, Tickets(messages, 0, until), clock)
    ensures var more := messages + [Message(|leased|, row.attempts + 1)];
            Exec(c, start, ClaimActs(more, now, until))
            == Relay(leased + [Leased(row, until)] + rest, sink, Tickets(more, 0, until), clock)
  {
    ClaimStep(c, messages, leased, row, rest, sink, clock, now, until);
    var acts, a := ClaimActs(messages, now, until), Claim(|messages|, 0, |leased|, now, until);
    assert (acts + [a])[..|acts|] == acts;
  }

  /** Settling the first `n` messages leaves the tickets of the others. */
  lemma {:induction false} SettleSteps(c: Settings, w: Relay, until: int, messages: seq<Message>, n: nat,
                                       outcome: nat -> Outcome, failedAt: nat -> int)
    requires n <= |messages| && Ascending(messages, |w.rows|) && w.tickets == Tickets(messages, 0, until)
    ensures Exec(c, w, SettleActs(c, messages, n, outcome, failedAt))
            == Relay(SettledRows(c, w.rows, messages, n, outcome, failedAt), SinkAfter(w.sink, messages, n, outcome),
                     Tickets(messages, n, until), w.clock)
  {
    if n > 0 {
      var t := n - 1;
      SettleSteps(c, w, until, messages, t, outcome, failedAt);
      OneMoreSettled(c, w, SettleActs(c, messages, t, outcome, failedAt), messages, t, until,
                     outcome(messages[t].id), failedAt(messages[t].id));
    }
  }

  lemma OneMoreSettled(c: Settings, start: Relay, first: seq<Action>, messages: seq<Message>, t: nat, until: int,
                       outcome: Outcome, failedAt: int)
    requires var w := Exec(c, start, first);
             t < |messages| && messages[t].id < |w.rows| && w.tickets == Tickets(messages, t, until)
    ensures var m, w := messages[t], Exec(c, start, first);
            Exec(c, start, first + [PublishAct(t, outcome), MarkAct(c, t, m, outcome, failedAt)])
            == Relay(w.rows[m.id := Settled(c, w.rows[m.id], m.attempts, outcome, failedAt)],
                     if outcome.Lost? then w.sink else Inserted(w.sink, m.id),
                     Tickets(messages, t + 1, until), w.clock)
  {
    ExecSplits(c, start, first, [PublishAct(t, outcome), MarkAct(c, t, messages[t], outcome, failedAt)]);
    SettleStep(c, Exec(c, start, first), messages, t, until, outcome, failedAt);
  }

  lemma SettleStep(c: Settings, w: Relay, messages: seq<Message>, t: nat, until: int, outcome: Outcome, failedAt: int)
    requires t < |messages| && messages[t].id < |w.rows| && w.tickets == Tickets(messages, t, until)
    ensures var m := messages[t];
            Exec(c, w, [PublishAct(t, outcome), MarkAct(c, t, m, outcome, failedAt)])
            == Relay(w.rows[m.id := Settled(c, w.rows[m.id], m.attempts, outcome, failedAt)],
                     if outcome.Lost? then w.sink else Inserted(w.sink, m.id),
                     Tickets(messages, t + 1, until), w.clock)
  {
    var first, second := PublishAct(t, outcome), MarkAct(c, t, messages[t], outcome, failedAt);
    assert [first] + [second] == [first, second];
    ExecSplits(c, w, [first], [second]);
    ExecOne(c, w, first);
    ExecOne(c, Next(c, w, first), second);
    assert Next(c, w, first).tickets - {t} == Tickets(messages, t + 1, until);
  }

  lemma AllClaimSteps(c: Settings, w: Relay, now: int, limit: nat, until: int)
    requires w.tickets == map[]
    ensures var messages := ClaimOf(w.rows, now, limit);
            && Ascending(messages, |w.rows|)
            && Exec(c, w, ClaimActs(messages, now, until))
               == Relay(LeasedRows(w.rows, now, limit, until), w.sink, Tickets(messages, 0, until), w.clock)
  {
    ClaimAscends(w.rows, now, limit);
    ClaimSteps(c, w.rows, [], w.sink, w.clock, now, limit, until);
    assert w.rows + [] == w.rows;
    assert LeasedRows(w.rows, now, limit, until) + [] == LeasedRows(w.rows, now, limit, until);
  }

  lemma RunFrom(c: Settings, w: Relay, leased: seq<OutboxRow>, claims: seq<Action>, until: int,
                messages: seq<Message>, outcome: nat -> Outcome, failedAt: nat -> int)
    requires Exec(c, w, claims) == Relay(leased, w.sink, Tickets(messages, 0, until), w.clock)
    requires w.tickets == map[] && Ascending(messages, |leased|)
    ensures Exec(c, w, claims + SettleActs(c, messages, |messages|, outcome, failedAt))
            == w.(rows := SettledRows(c, leased, messages, |messages|, outcome, failedAt),
                  sink := SinkAfter(w.sink, messages, |messages|, outcome))
  {
    ExecSplits(c, w, claims, SettleActs(c, messages, |messages|, outcome, failedAt));
    SettleSteps(c, Exec(c, w, claims), until, messages, |messages|, outcome, failedAt);
    assert Tickets(messages, |messages|, until) == map[];
  }

  /** A run of a worker that nobody interrupts is these steps of the state machine. */
  lemma RunIsItsSteps(c: Settings, w: Relay, now: int, outcome: nat -> Outcome, failedAt: nat -> int)
    requires w.tickets == map[]
    ensures Exec(c, w, RunActs(c, w.rows, now, outcome, failedAt))
            == w.(rows := RunRows(c, w.rows, now, outcome, failedAt),
                  sink := RunSink(c, w.rows, w.sink, now, outcome))
  {
    var until, messages := now + c.claimTtl, ClaimOf(w.rows, now, c.batchSize);
    var leased, claims := LeasedRows(w.rows, now, c.batchSize, until), ClaimActs(messages, now, until);
    assert RunActs(c, w.rows, now, outcome, failedAt)
        == claims + SettleActs(c, messages, |messages|, outcome, failedAt);
    assert RunRows(c, w.rows, now, outcome, failedAt)
        == SettledRows(c, leased, messages, |messages|, outcome, failedAt);
    AllClaimSteps(c, w, now, c.batchSize, until);
    RunFrom(c, w, leased, claims, until, messages, outcome, failedAt);
  }

  lemma RunKeepsRowsSafe(c: Settings, rows: seq<OutboxRow>, sink: seq<nat>, now: int,
                         outcome: nat -> Outcome, failedAt: nat -> int)
    requires RowsSafe(c, rows, sink)
    ensures RowsSafe(c, RunRows(c, rows, now, outcome, failedAt), RunSink(c, rows, sink, now, outcome))
  {
    RunIsItsSteps(c, Relay(rows, sink, map[], 0), now, outcome, failedAt);
    ExecKeepsInv(c, Relay(rows, sink, map[], 0), RunActs(c, rows, now, outcome, failedAt));
  }

  class OutboxRelay {
    const settings: Settings
    var rows: seq<OutboxRow>
    var sink: seq<nat>

    predicate Valid()
      reads this
    {
      Sensible(settings) && RowsSafe(settings, rows, sink)
    }

    constructor (settings: Settings)
      requires Sensible(settings)
      ensures Valid() && this.settings == settings && rows == [] && sink == []
    {
      this.settings, rows, sink := settings, [], [];
    }

    /** `_claim_batch`: one statement of the database. */
    method ClaimBatch(now: int) returns (messages: seq<Message>)
      modifies this`rows
      ensures messages == ClaimOf(old(rows), now, settings.batchSize)
      ensures rows == LeasedRows(old(rows), now, settings.batchSize, now + settings.claimTtl)
    {
      var before := rows;
      messages := ClaimOf(before, now, settings.batchSize);
      forall r | 0 <= r < |before|
        ensures LeasedRows(before, now, settings.batchSize, now + settings.claimTtl)[r]
             == if Claims(messages, r) then Leased(before[r], now + settings.claimTtl) else before[r]
      {
        LeasedRowIs(before, now, settings.batchSize, now + settings.claimTtl, r);
      }
      rows := seq(|before|, r requires 0 <= r < |before| =>
        if Claims(messages, r) then Leased(before[r], now + settings.claimTtl) else before[r]);
    }

    /** `publish` of the insert-once sink. */
    method Publish(id: nat, outcome: Outcome) returns (raised: bool)
      modifies this`sink
      ensures raised <==> !outcome.Fine?
      ensures sink == if outcome.Lost? then old(sink) else Inserted(old(sink), id)
    {
      if !outcome.Lost? && id !in sink { sink := sink + [id]; }
      raised := !outcome.Fine?;
    }

    /** `_mark_failure`: says whether the message was given up. */
    method MarkFailure(id: nat, attempts: nat, failedAt: int) returns (deadLettered: bool)
      requires id < |rows|
      modifies this`rows
      ensures deadLettered <==> attempts >= settings.maxAttempts
      ensures rows == old(rows)[id := MarkedFailed(settings, old(rows)[id], attempts,
                                                   failedAt + RetryDelay(settings, attempts))]
    {
      deadLettered := attempts >= settings.maxAttempts;
      if rows[id].status.Waiting? {
        if deadLettered {
          rows := rows[id := rows[id].(status := DeadLetter)];
        } else {
          rows := rows[id := rows[id].(nextAttempt := failedAt + RetryDelay(settings, attempts))];
        }
      }
    }

    /** Publishing one message and recording the outcome. */
    method Settle(m: Message, outcome: Outcome, failedAt: int) returns (raised: bool, givenUp: bool)
      requires m.id < |rows|
      modifies this
      ensures rows == old(rows)[m.id := Settled(settings, old(rows)[m.id], m.attempts, outcome, failedAt)]
      ensures sink == if outcome.Lost? then old(sink) else Inserted(old(sink), m.id)
      ensures (raised <==> !outcome.Fine?) && (givenUp <==> raised && m.attempts >= settings.maxAttempts)
    {
      raised := Publish(m.id, outcome);
      givenUp := false;
      if raised {
        givenUp := MarkFailure(m.id, m.attempts, failedAt);
      } else {
        rows := rows[m.id := MarkedPublished(rows[m.id])];
      }
    }

    /** `run_once` of a worker that has the table to itself and does not crash. */
    method RunOnce(now: int, outcome: nat -> Outcome, failedAt: nat -> int) returns (result: RunResult)
      requires Valid()
      modifies this
      ensures Valid()
      ensures rows == RunRows(settings, old(rows), now, outcome, failedAt)
      ensures sink == RunSink(settings, old(rows), old(sink), now, outcome)
      ensures var messages := ClaimOf(old(rows), now, settings.batchSize);
              result == Tally(settings, messages, |messages|, outcome)
    {
      RunKeepsRowsSafe(settings, rows, sink, now, outcome, failedAt);
      ClaimAscends(rows, now, settings.batchSize);
      var messages := ClaimBatch(now);
      result := SettleAll(messages, outcome, failedAt);
    }

    /** The loop of `run_once` over the claimed messages. */
    method SettleAll(messages: seq<Message>, outcome: nat -> Outcome, failedAt: nat -> int) returns (result: RunResult)
      requires Ascending(messages, |rows|)
      modifies this
      ensures rows == SettledRows(settings, old(rows), messages, |messages|, outcome, failedAt)
      ensures sink == SinkAfter(old(sink), messages, |messages|, outcome)
      ensures result == Tally(settings, messages, |messages|, outcome)
    {
      var published: nat, failed: nat, deadLettered: nat := 0, 0, 0;
      for i := 0 to |messages|
        invariant rows == SettledRows(settings, old(rows), messages, i, outcome, failedAt)
        invariant sink == SinkAfter(old(sink), messages, i, outcome)
        invariant RunResult(i, published, failed, deadLettered) == Tally(settings, messages, i, outcome)
      {
        SettledOneMore(settings, old(rows), messages, i, outcome, failedAt);
        var raised, givenUp := Settle(messages[i], outcome(messages[i].id), failedAt(messages[i].id));
        if raised {
          failed := failed + 1;
          if givenUp { deadLettered := deadLettered + 1; }
        } else {
          published := published + 1;
        }
      }
      result := RunResult(|messages|, published, failed, deadLettered);
    }
  }

  /* ---------- progress, over any number of runs and commits ---------- */

  /** Between the runs of such a worker every pending row has an attempt left. */
  predicate AttemptsLeft(c: Settings, rows: seq<OutboxRow>) {
    forall i | 0 <= i < |rows| :: rows[i].status.Waiting? ==> rows[i].attempts < c.maxAttempts
  }

  function Weight(c: Settings, r: OutboxRow): int {
    if r.status.Waiting? then c.maxAttempts - r.attempts else 0
  }

  /** The attempts that pending rows have left, summed. */
  function Potential(c: Settings, rows: seq<OutboxRow>): int {
    if rows == [] then 0 else Potential(c, rows[..|rows| - 1]) + Weight(c, rows[|rows| - 1])
  }

  lemma SettlingSpendsAnAttempt(c: Settings, r: OutboxRow, now: int, outcome: Outcome, failedAt: int)
    requires r.status.Waiting? && r.attempts < c.maxAttempts
    ensures var r' := Finished(c, r, now, outcome, failedAt);
            && Weight(c, r') < Weight(c, r)
            && (r'.status.Waiting? ==> r'.attempts < c.maxAttempts)
  {
  }

  /** Every run spends at least one attempt for each row it claims, so a worker on a
      fixed table runs out of rows to claim. */
  lemma {:induction false} RunsMakeProgress(c: Settings, rows: seq<OutboxRow>, now: int,
                                            outcome: nat -> Outcome, failedAt: nat -> int)
    requires Sensible(c) && AttemptsLeft(c, rows)
    ensures var rows' := RunRows(c, rows, now, outcome, failedAt);
            && AttemptsLeft(c, rows')
            && 0 <= Potential(c, rows') <= Potential(c, rows) - |ClaimOf(rows, now, c.batchSize)|
    decreases |rows|
  {
    if rows != [] {
      var n := |rows| - 1;
      RunsMakeProgress(c, rows[..n], now, outcome, failedAt);
      RunOfTheLast(c, rows, now, outcome, failedAt);
      var before := RunRows(c, rows[..n], now, outcome, failedAt);
      var last := RunRows(c, rows, now, outcome, failedAt)[n];
      assert (before + [last])[..n] == before;
      if Taken(rows, now, c.batchSize, n) { SettlingSpendsAnAttempt(c, rows[n], now, outcome(n), failedAt(n)); }
    }
  }

  /** The rows an append commits are new in this sense. */
  lemma {:induction false} AppendCommitsNewRows(r: AppendRequest, before: nat, n: nat, now: int)
    ensures NewRows(before, NewOutbox(r, before, n, now))
  {
    if n > 0 { AppendCommitsNewRows(r, before, n - 1, now); }
  }

  datatype Deed =
    | Added(rows: seq<OutboxRow>)
    | Ran(now: int, outcome: nat -> Outcome, failedAt: nat -> int)

  /** A table with the number of claims made on it so far. */
  datatype Ledger = Ledger(rows: seq<OutboxRow>, claims: nat)

  function LedgerAfter(c: Settings, deeds: seq<Deed>): Ledger {
    if deeds == [] then Ledger([], 0)
    else
      var l := LedgerAfter(c, deeds[..|deeds| - 1]);
      match deeds[|deeds| - 1]
      case Added(rows) => if NewRows(|l.rows|, rows) then l.(rows := l.rows + rows) else l
      case Ran(now, outcome, failedAt) =>
        Ledger(RunRows(c, l.rows, now, outcome, failedAt), l.claims + |ClaimOf(l.rows, now, c.batchSize)|)
  }

  /** Over every sequence of commits and runs of one crash-free worker: every pending row
      has an attempt left, and claims are paid for: the attempts that are left, with all
      claims made, never exceed `maxAttempts` for each row ever committed. */
  lemma {:induction false} EveryClaimIsPaidFor(c: Settings, deeds: seq<Deed>)
    requires Sensible(c)
    ensures var l := LedgerAfter(c, deeds);
            && AttemptsLeft(c, l.rows) && 0 <= Potential(c, l.rows)
            && Potential(c, l.rows) + l.claims <= |l.rows| * c.maxAttempts
  {
    if deeds != [] {
      var l := LedgerAfter(c, deeds[..|deeds| - 1]);
      EveryClaimIsPaidFor(c, deeds[..|deeds| - 1]);
      match deeds[|deeds| - 1] {
        case Added(rows) => if NewRows(|l.rows|, rows) { MoreIsPaidFor(c, l.rows, rows, l.claims); }
        case Ran(now, outcome, failedAt) => RunsMakeProgress(c, l.rows, now, outcome, failedAt);
      }
    }
  }

  lemma OneTimesMore(n: nat, m: nat)
    ensures (n + 1) * m == n * m + m
  {
  }

  lemma {:induction false} MoreIsPaidFor(c: Settings, rows: seq<OutboxRow>, more: seq<OutboxRow>, claims: nat)
    requires Sensible(c) && AttemptsLeft(c, rows) && NewRows(|rows|, more)
    requires 0 <= Potential(c, rows) && Potential(c, rows) + claims <= |rows| * c.maxAttempts
    ensures AttemptsLeft(c, rows + more) && 0 <= Potential(c, rows + more)
    ensures Potential(c, rows + more) + claims <= |rows + more| * c.maxAttempts
    decreases |more|
  {
    if more == [] {
      assert rows + more == rows;
    } else {
      var n := |more| - 1;
      var before := rows + more[..n];
      assert (rows + more)[..|rows + more| - 1] == before;
      MoreIsPaidFor(c, rows, more[..n], claims);
      assert |rows + more| == |before| + 1 && (rows + more)[|before|] == more[n];
      OneTimesMore(|before|, c.maxAttempts);
    }
  }
}
