/** The per-stream hash chain: how an event is sealed, how a chain is verified,
    what every kind of tampering does to it, and how the repair job mends it.
    The hash is a free constructor over the hashed content and the previous
    hash, so that equal hashes mean equal inputs by construction. */
module HashChain {
  import opened Prelude
  import opened Events

  /** Event metadata without the two hash keys, which `Row` holds apart. */
  datatype Metadata = Metadata(correlation: Option<string>, causation: Option<nat>, extra: map<string, string>)

  /** Everything the canonical document of an event holds besides `previous_hash`. */
  datatype Content = Content(stream: string, position: nat, version: nat, event: Event, metadata: Metadata)

  datatype Hash = Genesis | Link(content: Content, previous: Hash)

  /** An `events` row: the content and the two hash fields, absent on legacy rows. */
  datatype Row = Row(content: Content, previousHash: Option<Hash>, integrityHash: Option<Hash>)

  function TailFrom(start: Hash, cs: seq<Content>): Hash {
    if cs == [] then start else Link(cs[|cs| - 1], TailFrom(start, cs[..|cs| - 1]))
  }

  function Tail(cs: seq<Content>): Hash { TailFrom(Genesis, cs) }

  function Contents(rows: seq<Row>): (cs: seq<Content>)
    ensures |cs| == |rows|
    ensures forall i | 0 <= i < |rows| :: cs[i] == rows[i].content
  {
    seq(|rows|, i requires 0 <= i < |rows| => rows[i].content)
  }

  /** The rows `append` writes for `cs` when the previous hash is `start`. */
  function Seal(start: Hash, cs: seq<Content>): (rows: seq<Row>)
    ensures |rows| == |cs|
  {
    if cs == [] then []
    else
      var before, last := cs[..|cs| - 1], cs[|cs| - 1];
      Seal(start, before) + [Row(last, Some(TailFrom(start, before)), Some(TailFrom(start, cs)))]
  }

  /** Row `i` fails verification: a hash field differs from the recomputed one. */
  predicate Bad(rows: seq<Row>, i: nat)
    requires i < |rows|
  {
    || rows[i].previousHash != Some(Tail(Contents(rows)[..i]))
    || rows[i].integrityHash != Some(Tail(Contents(rows)[..i + 1]))
  }

  predicate Verifies(rows: seq<Row>) {
    forall i | 0 <= i < |rows| :: !Bad(rows, i)
  }

  /* ---------- the chain as a function of its contents ---------- */

  lemma {:induction false} SealAt(start: Hash, cs: seq<Content>, i: nat)
    requires i < |cs|
    ensures Seal(start, cs)[i] == Row(cs[i], Some(TailFrom(start, cs[..i])), Some(TailFrom(start, cs[..i + 1])))
  {
    var before := cs[..|cs| - 1];
    if i < |cs| - 1 {
      SealAt(start, before, i);
      assert before[..i] == cs[..i] && before[..i + 1] == cs[..i + 1];
    } else {
      assert cs[..i + 1] == cs;
    }
  }

  lemma {:induction false} SealKeepsContents(start: Hash, cs: seq<Content>)
    ensures Contents(Seal(start, cs)) == cs
  {
    forall i | 0 <= i < |cs| ensures Seal(start, cs)[i].content == cs[i] { SealAt(start, cs, i); }
  }

  lemma {:induction false} TailFromConcat(start: Hash, a: seq<Content>, b: seq<Content>)
    ensures TailFrom(start, a + b) == TailFrom(TailFrom(start, a), b)
  {
    if b == [] {
      assert a + b == a;
    } else {
      var last := |b| - 1;
      assert (a + b)[..|a + b| - 1] == a + b[..last];
      TailFromConcat(start, a, b[..last]);
    }
  }

  lemma {:induction false} TailIsInjective(a: seq<Content>, b: seq<Content>)
    requires Tail(a) == Tail(b)
    ensures a == b
  {
    if a == [] || b == [] {
    } else {
      TailIsInjective(a[..|a| - 1], b[..|b| - 1]);
      assert a == a[..|a| - 1] + [a[|a| - 1]];
      assert b == b[..|b| - 1] + [b[|b| - 1]];
    }
  }

  lemma {:induction false} TailFromDistinguishesStarts(p: Hash, q: Hash, cs: seq<Content>)
    requires p != q
    ensures TailFrom(p, cs) != TailFrom(q, cs)
  {
    if cs != [] { TailFromDistinguishesStarts(p, q, cs[..|cs| - 1]); }
  }

  /** A chain verifies exactly when it is the sealing of its own contents. */
  lemma VerifiesIffSealed(rows: seq<Row>)
    ensures Verifies(rows) <==> rows == Seal(Genesis, Contents(rows))
  {
    var sealed := Seal(Genesis, Contents(rows));
    if Verifies(rows) {
      forall i | 0 <= i < |rows| ensures rows[i] == sealed[i] {
        assert !Bad(rows, i);
        SealAt(Genesis, Contents(rows), i);
      }
    }
    if rows == sealed {
      forall i | 0 <= i < |rows| ensures !Bad(rows, i) { SealAt(Genesis, Contents(rows), i); }
    }
  }

  /* ---------- appending ---------- */

  lemma OldRowsKeepTheirVerdict(rows: seq<Row>, more: seq<Row>, i: nat)
    requires i < |rows|
    ensures Bad(rows + more, i) <==> Bad(rows, i)
  {
    assert Contents(rows + more)[..i] == Contents(rows)[..i];
    assert Contents(rows + more)[..i + 1] == Contents(rows)[..i + 1];
  }

  lemma ContentsConcat(a: seq<Row>, b: seq<Row>)
    ensures Contents(a + b) == Contents(a) + Contents(b)
  {
  }

  lemma PrefixTail(a: seq<Content>, b: seq<Content>, j: nat)
    requires j <= |b|
    ensures Tail((a + b)[..|a| + j]) == TailFrom(Tail(a), b[..j])
  {
    assert (a + b)[..|a| + j] == a + b[..j];
    TailFromConcat(Genesis, a, b[..j]);
  }

  /** Which of the two fields of row `i` are as recomputed. */
  predicate FieldsAgree(rows: seq<Row>, i: nat, previous: bool, hash: bool)
    requires i < |rows|
  {
    && (previous <==> rows[i].previousHash == Some(Tail(Contents(rows)[..i])))
    && (hash <==> rows[i].integrityHash == Some(Tail(Contents(rows)[..i + 1])))
  }

  lemma NewRowIs(rows: seq<Row>, start: Hash, cs: seq<Content>, j: nat)
    requires j < |cs|
    ensures Contents(rows + Seal(start, cs)) == Contents(rows) + cs
    ensures (rows + Seal(start, cs))[|rows| + j]
            == Row(cs[j], Some(TailFrom(start, cs[..j])), Some(TailFrom(start, cs[..j + 1])))
  {
    SealKeepsContents(start, cs);
    ContentsConcat(rows, Seal(start, cs));
    SealAt(start, cs, j);
  }

  lemma NewRowFields(rows: seq<Row>, start: Hash, cs: seq<Content>, j: nat)
    requires j < |cs|
    ensures var tail := Tail(Contents(rows));
            FieldsAgree(rows + Seal(start, cs), |rows| + j, TailFrom(start, cs[..j]) == TailFrom(tail, cs[..j]),
                        TailFrom(start, cs[..j + 1]) == TailFrom(tail, cs[..j + 1]))
  {
    NewRowIs(rows, start, cs, j);
    PrefixTail(Contents(rows), cs, j);
    PrefixTail(Contents(rows), cs, j + 1);
  }

  lemma NewRowVerdict(rows: seq<Row>, start: Hash, cs: seq<Content>, j: nat)
    requires j < |cs|
    ensures Bad(rows + Seal(start, cs), |rows| + j) <==> start != Tail(Contents(rows))
  {
    NewRowFields(rows, start, cs, j);
    if start != Tail(Contents(rows)) { TailFromDistinguishesStarts(start, Tail(Contents(rows)), cs[..j]); }
  }

  /** Appending leaves the verdict on the old rows alone; chained from the right
      tail every new row is good, from any other hash every new row is bad. */
  lemma AppendVerdicts(rows: seq<Row>, start: Hash, cs: seq<Content>, i: nat)
    requires i < |rows| + |cs|
    ensures Bad(rows + Seal(start, cs), i) <==>
            if i < |rows| then Bad(rows, i) else start != Tail(Contents(rows))
  {
    if i < |rows| {
      OldRowsKeepTheirVerdict(rows, Seal(start, cs), i);
    } else {
      NewRowVerdict(rows, start, cs, i - |rows|);
    }
  }

  /** A batch keeps a valid stream valid iff it was chained from the true tail. */
  lemma AppendKeepsValidIff(rows: seq<Row>, start: Hash, cs: seq<Content>)
    requires Verifies(rows) && cs != []
    ensures Verifies(rows + Seal(start, cs)) <==> start == Tail(Contents(rows))
  {
    var after := rows + Seal(start, cs);
    forall i | 0 <= i < |after|
      ensures Bad(after, i) <==> if i < |rows| then Bad(rows, i) else start != Tail(Contents(rows))
    {
      AppendVerdicts(rows, start, cs, i);
    }
    assert Bad(after, |rows|) <==> start != Tail(Contents(rows));
    assert forall i | 0 <= i < |rows| :: !Bad(rows, i);
  }

  lemma SealingFromTheTail(rows: seq<Row>, cs: seq<Content>)
    requires Verifies(rows)
    ensures var after := rows + Seal(Tail(Contents(rows)), cs);
            Verifies(after) && Tail(Contents(after)) == TailFrom(Tail(Contents(rows)), cs)
  {
    var after := rows + Seal(Tail(Contents(rows)), cs);
    if cs == [] { assert after == rows; } else { AppendKeepsValidIff(rows, Tail(Contents(rows)), cs); }
    SealKeepsContents(Tail(Contents(rows)), cs);
    ContentsConcat(rows, Seal(Tail(Contents(rows)), cs));
    TailFromConcat(Genesis, Contents(rows), cs);
  }

  /* ---------- verification ---------- */

  datatype RollingHash = RollingStart | Roll(before: RollingHash, event: Hash)

  /** `final_hash`: the digest over the running digest and each computed hash. */
  function Rolling(cs: seq<Content>): RollingHash {
    if cs == [] then RollingStart else Roll(Rolling(cs[..|cs| - 1]), Tail(cs))
  }

  /** Equal final hashes come only from equal content sequences. */
  lemma {:induction false} FinalHashIdentifiesContents(a: seq<Content>, b: seq<Content>)
    requires Rolling(a) == Rolling(b)
    ensures a == b
  {
    if a != [] && b != [] { TailIsInjective(a, b); }
  }

  datatype Violation = Violation(position: nat, previousMismatch: bool, hashMismatch: bool)

  /** The violation `run_integrity_check` reports for row `i`. */
  function ViolationAt(rows: seq<Row>, i: nat): Violation
    requires i < |rows|
  {
    Violation(rows[i].content.position,
              rows[i].previousHash != Some(Tail(Contents(rows)[..i])),
              rows[i].integrityHash != Some(Tail(Contents(rows)[..i + 1])))
  }

  /** The violations of the first `n` rows, in stream order. */
  function Violations(rows: seq<Row>, n: nat): seq<Violation>
    requires n <= |rows|
  {
    if n == 0 then []
    else Violations(rows, n - 1) + if Bad(rows, n - 1) then [ViolationAt(rows, n - 1)] else []
  }

  /** `v` names row `i` by its position and says which of its two hash fields differ
      from the chain of the contents before and up to it. */
  predicate Tells(rows: seq<Row>, i: nat, v: Violation)
    requires i < |rows|
  {
    && v.position == rows[i].content.position
    && (v.previousMismatch <==> rows[i].previousHash != Some(Tail(Contents(rows)[..i])))
    && (v.hashMismatch <==> rows[i].integrityHash != Some(Tail(Contents(rows)[..i + 1])))
  }

  /** A violation is listed exactly for the rows with a field that differs. */
  lemma {:induction false} ViolationsAreTheBadRows(rows: seq<Row>, n: nat, v: Violation)
    requires n <= |rows|
    ensures v in Violations(rows, n)
            <==> (v.previousMismatch || v.hashMismatch) && exists i | 0 <= i < n :: Tells(rows, i, v)
  {
    if n > 0 {
      ViolationsAreTheBadRows(rows, n - 1, v);
      assert Tells(rows, n - 1, v) <==> v == ViolationAt(rows, n - 1);
    }
  }

  /** When exactly the rows from `k` on are bad, they are what is listed, in order. */
  lemma {:induction false} ListedFrom(rows: seq<Row>, k: nat, n: nat)
    requires k <= n <= |rows|
    requires forall i | 0 <= i < n :: Bad(rows, i) <==> k <= i
    ensures |Violations(rows, n)| == n - k
    ensures forall j | 0 <= j < n - k :: Tells(rows, k + j, Violations(rows, n)[j])
    decreases n
  {
    if n > k {
      ListedFrom(rows, k, n - 1);
    } else if n > 0 {
      NoViolationsIffVerifies(rows, n);
    }
  }

  lemma {:induction false} NoViolationsIffVerifies(rows: seq<Row>, n: nat)
    requires n <= |rows|
    ensures Violations(rows, n) == [] <==> forall i | 0 <= i < n :: !Bad(rows, i)
  {
    if n > 0 { NoViolationsIffVerifies(rows, n - 1); }
  }

  /** `run_integrity_check` from position 1. */
  method RunIntegrityCheck(rows: seq<Row>)
    returns (chainValid: bool, finalHash: RollingHash, violations: seq<Violation>)
    ensures chainValid <==> Verifies(rows)
    ensures finalHash == Rolling(Contents(rows))
    ensures violations == Violations(rows, |rows|)
  {
    var previous := Genesis;
    finalHash, violations := RollingStart, [];
    ghost var cs := Contents(rows);
    for i := 0 to |rows|
      invariant previous == Tail(cs[..i])
      invariant finalHash == Rolling(cs[..i])
      invariant violations == Violations(rows, i)
    {
      assert cs[..i + 1][..i] == cs[..i];
      var computed := Link(rows[i].content, previous);
      var prevOk := rows[i].previousHash == Some(previous);
      var hashOk := rows[i].integrityHash == Some(computed);
      if !(prevOk && hashOk) {
        violations := violations + [Violation(rows[i].content.position, !prevOk, !hashOk)];
      }
      previous := computed;
      finalHash := Roll(finalHash, computed);
    }
    assert cs[..|rows|] == cs;
    chainValid := violations == [];
    NoViolationsIffVerifies(rows, |rows|);
  }

  /* ---------- tampering ---------- */

  /** Changing the hashed content of one row of a valid chain is seen there and
      at every later row, and nowhere before. */
  lemma ContentTamperIsLocated(rows: seq<Row>, k: nat, forged: Content, i: nat)
    requires Verifies(rows) && k < |rows| && i < |rows|
    requires forged != rows[k].content
    ensures Bad(rows[k := rows[k].(content := forged)], i) <==> k <= i
  {
    var after := rows[k := rows[k].(content := forged)];
    var cs, cs' := Contents(rows), Contents(after);
    assert !Bad(rows, i);
    if i < k {
      assert cs'[..i] == cs[..i] && cs'[..i + 1] == cs[..i + 1];
    } else {
      assert cs'[..i + 1][k] != cs[..i + 1][k];
      if Tail(cs'[..i + 1]) == Tail(cs[..i + 1]) { TailIsInjective(cs'[..i + 1], cs[..i + 1]); }
    }
  }

  /** Overwriting only the two hash fields of a row is seen at that row alone. */
  lemma HashFieldTamperIsLocated(rows: seq<Row>, k: nat, p: Option<Hash>, h: Option<Hash>, i: nat)
    requires Verifies(rows) && k < |rows| && i < |rows|
    requires p != rows[k].previousHash || h != rows[k].integrityHash
    ensures Bad(rows[k := Row(rows[k].content, p, h)], i) <==> i == k
  {
    var after := rows[k := Row(rows[k].content, p, h)];
    assert Contents(after) == Contents(rows);
    assert !Bad(rows, i);
    assert !Bad(rows, k);
  }

  /** Deleting row `k` is seen at exactly the rows after it, so a cut at the very
      end of a stream leaves no trace in the chain. */
  lemma DeletionIsLocated(rows: seq<Row>, k: nat, i: nat)
    requires Verifies(rows) && k < |rows| && i < |rows| - 1
    ensures Bad(rows[..k] + rows[k + 1..], i) <==> k <= i
  {
    var after := rows[..k] + rows[k + 1..];
    var cs, cs' := Contents(rows), Contents(after);
    if i < k {
      assert !Bad(rows, i);
      assert cs'[..i] == cs[..i] && cs'[..i + 1] == cs[..i + 1];
    } else {
      assert !Bad(rows, i + 1);
      assert after[i] == rows[i + 1];
      if Tail(cs'[..i + 1]) == Tail(cs[..i + 2]) { TailIsInjective(cs'[..i + 1], cs[..i + 2]); }
    }
  }

  /* ---------- what the check reports of it ---------- */

  predicate Placed(rows: seq<Row>) {
    forall i | 0 <= i < |rows| :: rows[i].content.position == i + 1
  }

  /** After a content change at `k`: positions k+1 to n in order, the first with only
      its integrity hash in doubt, the later ones with both fields. */
  lemma ContentTamperReport(rows: seq<Row>, k: nat, forged: Content)
    requires Verifies(rows) && Placed(rows) && k < |rows|
    requires forged != rows[k].content && forged.position == k + 1
    ensures var vs := Violations(rows[k := rows[k].(content := forged)], |rows|);
            && |vs| == |rows| - k
            && (forall j | 0 <= j < |vs| :: vs[j].position == k + 1 + j)
            && vs[0].hashMismatch && !vs[0].previousMismatch
            && forall j | 0 < j < |vs| :: vs[j].hashMismatch && vs[j].previousMismatch
  {
    var after := rows[k := rows[k].(content := forged)];
    forall i | 0 <= i < |rows| ensures Bad(after, i) <==> k <= i { ContentTamperIsLocated(rows, k, forged, i); }
    ListedFrom(after, k, |rows|);
    var vs := Violations(after, |rows|);
    forall j: nat | j < |vs|
      ensures vs[j].position == k + 1 + j && vs[j].hashMismatch && (vs[j].previousMismatch <==> j > 0)
    {
      ForgedReport(rows, k, forged, j, vs[j]);
    }
  }

  lemma ForgedReport(rows: seq<Row>, k: nat, forged: Content, j: nat, v: Violation)
    requires Verifies(rows) && Placed(rows) && k + j < |rows|
    requires forged != rows[k].content && forged.position == k + 1
    requires Tells(rows[k := rows[k].(content := forged)], k + j, v)
    ensures v.position == k + 1 + j && v.hashMismatch && (v.previousMismatch <==> j > 0)
  {
    ForgedFields(rows, k, forged, k + j);
  }

  lemma ForgedFields(rows: seq<Row>, k: nat, forged: Content, i: nat)
    requires Verifies(rows) && k <= i < |rows| && forged != rows[k].content
    ensures FieldsAgree(rows[k := rows[k].(content := forged)], i, i == k, false)
  {
    var cs, cs' := Contents(rows), Contents(rows[k := rows[k].(content := forged)]);
    assert !Bad(rows, i);
    assert cs[..i + 1][k] != cs'[..i + 1][k];
    if Tail(cs'[..i + 1]) == Tail(cs[..i + 1]) { TailIsInjective(cs'[..i + 1], cs[..i + 1]); }
    if i == k {
      assert cs'[..i] == cs[..i];
    } else {
      assert cs[..i][k] != cs'[..i][k];
      if Tail(cs'[..i]) == Tail(cs[..i]) { TailIsInjective(cs'[..i], cs[..i]); }
    }
  }

  /** After a change of the hash fields of row `k`: its position alone, with the fields
      that were changed. */
  lemma HashFieldTamperReport(rows: seq<Row>, k: nat, p: Option<Hash>, h: Option<Hash>)
    requires Verifies(rows) && Placed(rows) && k < |rows|
    requires p != rows[k].previousHash || h != rows[k].integrityHash
    ensures var vs := Violations(rows[k := Row(rows[k].content, p, h)], |rows|);
            && |vs| == 1 && vs[0].position == k + 1
            && (vs[0].previousMismatch <==> p != rows[k].previousHash)
            && (vs[0].hashMismatch <==> h != rows[k].integrityHash)
  {
    var after := rows[k := Row(rows[k].content, p, h)];
    forall i | 0 <= i < |rows| ensures Bad(after, i) <==> i == k { HashFieldTamperIsLocated(rows, k, p, h, i); }
    ListedFrom(after, k, k + 1);
    NothingListed(after, k + 1, |rows|);
    assert Contents(after) == Contents(rows) && !Bad(rows, k);
    assert Tells(after, k + 0, Violations(after, k + 1)[0]);
  }

  lemma {:induction false} NothingListed(rows: seq<Row>, k: nat, n: nat)
    requires k <= n <= |rows| && forall i | k <= i < n :: !Bad(rows, i)
    ensures Violations(rows, n) == Violations(rows, k)
    decreases n
  {
    if n > k { NothingListed(rows, k, n - 1); }
  }

  /** After the deletion of row `k`: the stored positions k+2 to n in order, each with
      both fields. */
  lemma DeletionReport(rows: seq<Row>, k: nat)
    requires Verifies(rows) && Placed(rows) && k < |rows|
    ensures var vs := Violations(rows[..k] + rows[k + 1..], |rows| - 1);
            && |vs| == |rows| - 1 - k
            && forall j | 0 <= j < |vs| ::
                 vs[j].position == k + 2 + j && vs[j].hashMismatch && vs[j].previousMismatch
  {
    var after := rows[..k] + rows[k + 1..];
    forall i | 0 <= i < |after| ensures Bad(after, i) <==> k <= i { DeletionIsLocated(rows, k, i); }
    ListedFrom(after, k, |after|);
    var vs := Violations(after, |after|);
    forall j: nat | j < |vs|
      ensures vs[j].position == k + 2 + j && vs[j].hashMismatch && vs[j].previousMismatch
    {
      DeletedReport(rows, k, j, vs[j]);
    }
  }

  lemma DeletedReport(rows: seq<Row>, k: nat, j: nat, v: Violation)
    requires Verifies(rows) && Placed(rows) && k + j < |rows| - 1
    requires Tells(rows[..k] + rows[k + 1..], k + j, v)
    ensures v.position == k + 2 + j && v.hashMismatch && v.previousMismatch
  {
    FieldsAfterDeletion(rows, k, k + j);
    assert (rows[..k] + rows[k + 1..])[k + j] == rows[k + j + 1];
  }

  lemma FieldsAfterDeletion(rows: seq<Row>, k: nat, i: nat)
    requires Verifies(rows) && k <= i < |rows| - 1
    ensures FieldsAgree(rows[..k] + rows[k + 1..], i, false, false)
  {
    var after := rows[..k] + rows[k + 1..];
    var cs, cs' := Contents(rows), Contents(after);
    assert after[i] == rows[i + 1] && !Bad(rows, i + 1);
    if Tail(cs'[..i]) == Tail(cs[..i + 1]) { TailIsInjective(cs'[..i], cs[..i + 1]); }
    if Tail(cs'[..i + 1]) == Tail(cs[..i + 2]) { TailIsInjective(cs'[..i + 1], cs[..i + 2]); }
  }

  /* ---------- repair ---------- */

  datatype RepairMode = Missing | MissingOrInvalid

  predicate ShouldRepair(mode: RepairMode, rows: seq<Row>, i: nat)
    requires i < |rows|
  {
    match mode
    case Missing => rows[i].previousHash.None? || rows[i].integrityHash.None?
    case MissingOrInvalid => Bad(rows, i)
  }

  function Repaired(mode: RepairMode, rows: seq<Row>): (after: seq<Row>)
    ensures |after| == |rows|
    ensures forall i | 0 <= i < |rows| ::
              after[i] == if ShouldRepair(mode, rows, i)
                          then Row(rows[i].content, Some(Tail(Contents(rows)[..i])),
                                   Some(Tail(Contents(rows)[..i + 1])))
                          else rows[i]
  {
    seq(|rows|, i requires 0 <= i < |rows| =>
      if ShouldRepair(mode, rows, i)
      then Row(rows[i].content, Some(Tail(Contents(rows)[..i])), Some(Tail(Contents(rows)[..i + 1])))
      else rows[i])
  }

  /** What the repair job counts in one stream. */
  datatype Tally = Tally(scanned: nat, repaired: nat, violations: nat, unresolved: nat)

  function TallyOf(mode: RepairMode, rows: seq<Row>, n: nat): Tally
    requires n <= |rows|
  {
    if n == 0 then Tally(0, 0, 0, 0)
    else
      var t := TallyOf(mode, rows, n - 1);
      var bad, fix := Bad(rows, n - 1), ShouldRepair(mode, rows, n - 1);
      Tally(n,
            t.repaired + (if fix then 1 else 0),
            t.violations + (if bad then 1 else 0),
            t.unresolved + (if bad && !fix then 1 else 0))
  }

  /** Repairing leaves the hashed contents alone, and what still fails
      verification afterwards is exactly what was bad and not repaired. */
  lemma RepairVerdicts(mode: RepairMode, rows: seq<Row>, i: nat)
    requires i < |rows|
    ensures Contents(Repaired(mode, rows)) == Contents(rows)
    ensures Bad(Repaired(mode, rows), i) <==> Bad(rows, i) && !ShouldRepair(mode, rows, i)
  {
    assert Contents(Repaired(mode, rows)) == Contents(rows);
  }

  /** Row `i` as the repair of a mode leaves it: in the mode for missing hashes it changes
      only a row that lacks one, in the other mode only a row that fails verification,
      and what it changes it makes good. */
  lemma RepairTouches(mode: RepairMode, rows: seq<Row>, i: nat)
    requires i < |rows|
    ensures var r, r' := rows[i], Repaired(mode, rows)[i];
            && r'.content == r.content
            && (mode.Missing? ==>
                  if r.previousHash.None? || r.integrityHash.None? then !Bad(Repaired(mode, rows), i) else r' == r)
            && (mode.MissingOrInvalid? ==> !Bad(Repaired(mode, rows), i) && (!Bad(rows, i) ==> r' == r))
  {
    RepairVerdicts(mode, rows, i);
  }

  function HashesMissing(rows: seq<Row>, n: nat): nat
    requires n <= |rows|
  {
    if n == 0 then 0
    else HashesMissing(rows, n - 1)
         + if rows[n - 1].previousHash.None? || rows[n - 1].integrityHash.None? then 1 else 0
  }

  /** The counters against the integrity check: as many violations as it lists, and as
      many repairs as rows lack a hash or, in the other mode, as it lists. */
  lemma {:induction false} TallyCounts(mode: RepairMode, rows: seq<Row>, n: nat)
    requires n <= |rows|
    ensures var t := TallyOf(mode, rows, n);
            && t.scanned == n && t.violations == |Violations(rows, n)|
            && t.repaired == if mode.Missing? then HashesMissing(rows, n) else |Violations(rows, n)|
  {
    if n > 0 { TallyCounts(mode, rows, n - 1); }
  }

  /** In both modes every violation is either repaired or reported unresolved. */
  lemma {:induction false} TallyBalances(mode: RepairMode, rows: seq<Row>, n: nat)
    requires n <= |rows|
    ensures var t := TallyOf(mode, rows, n);
            && t.violations == t.repaired + t.unresolved
            && (mode.MissingOrInvalid? ==> t.unresolved == 0)
            && (t.unresolved == 0 <==> forall i | 0 <= i < n :: Bad(rows, i) ==> ShouldRepair(mode, rows, i))
            && (t.violations == 0 <==> forall i | 0 <= i < n :: !Bad(rows, i))
  {
    if n > 0 { TallyBalances(mode, rows, n - 1); }
  }

  /** A second run repairs nothing and finds only what the first left unresolved. */
  lemma {:induction false} SecondRunRepairsNothing(mode: RepairMode, rows: seq<Row>, n: nat)
    requires n <= |rows|
    ensures var again := TallyOf(mode, Repaired(mode, rows), n);
            again.repaired == 0 && again.violations == again.unresolved == TallyOf(mode, rows, n).unresolved
    ensures n == |rows| ==> Repaired(mode, Repaired(mode, rows)) == Repaired(mode, rows)
  {
    var after := Repaired(mode, rows);
    if n > 0 {
      SecondRunRepairsNothing(mode, rows, n - 1);
      RepairVerdicts(mode, rows, n - 1);
    }
    forall i | 0 <= i < |rows| ensures !ShouldRepair(mode, after, i) { RepairVerdicts(mode, rows, i); }
  }

  /** The counts of a run and the chain it leaves: the chain verifies iff
      nothing stayed unresolved. */
  lemma RepairedVerifiesIffNothingUnresolved(mode: RepairMode, rows: seq<Row>)
    ensures Verifies(Repaired(mode, rows)) <==> TallyOf(mode, rows, |rows|).unresolved == 0
  {
    TallyBalances(mode, rows, |rows|);
    forall i | 0 <= i < |rows|
      ensures Bad(Repaired(mode, rows), i) <==> Bad(rows, i) && !ShouldRepair(mode, rows, i)
    {
      RepairVerdicts(mode, rows, i);
    }
  }
}
