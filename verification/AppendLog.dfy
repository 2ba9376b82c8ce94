/** Optimistic appending under a unique (case, seq) index: the store, the retry loop, and any number
    of interleaved appenders (append_event in backend/app/after_sales/repository.py). */
module AppendLog {
  import opened Wrappers
  import opened EventChain

  const MAX_ATTEMPTS := 8

  // ---- the event table ----

  /** The rows of one case, in the order they were committed. */
  function CaseRows(rows: seq<Row>, caseId: string): seq<Row>
  {
    if rows == [] then []
    else
      var last := rows[|rows| - 1];
      CaseRows(rows[..|rows| - 1], caseId) + if last.event.caseId == caseId then [last] else []
  }

  /** The row with the greatest seq, as the reading query orders them. */
  function Top(rows: seq<Row>): Option<Row>
  {
    if rows == [] then None
    else
      var last := rows[|rows| - 1];
      match Top(rows[..|rows| - 1])
      case None => Some(last)
      case Some(r) => if r.position >= last.position then Some(r) else Some(last)
  }

  /** The unique index refuses a second row with the same case and seq. */
  predicate Accepts(rows: seq<Row>, row: Row) {
    forall i :: 0 <= i < |rows| ==> !(rows[i].event.caseId == row.event.caseId && rows[i].position == row.position)
  }

  /** What a read gives an appender: the hash to link to and the seq to claim. */
  datatype Claim = Claim(prevHash: string, position: nat)

  function ClaimAfter(rows: seq<Row>, caseId: string): Claim {
    match Top(CaseRows(rows, caseId))
    case None => Claim("", 1)
    case Some(r) => Claim(r.eventHash, r.position + 1)
  }

  function RowFor(hash: Hash, id: nat, e: Event, c: Claim): Row {
    Row(id, e, c.prevHash, hash(Encode(c.prevHash, e)), c.position)
  }

  /** Every case's rows are numbered 1..n in commit order and linked into one verifying chain. */
  ghost predicate Chained(hash: Hash, rows: seq<Row>) {
    forall caseId :: Numbered(CaseRows(rows, caseId)) && ValidChain(hash, CaseRows(rows, caseId))
  }

  ghost predicate Numbered(rows: seq<Row>) { forall i :: 0 <= i < |rows| ==> rows[i].position == i + 1 }

  // ---- reading a chained table ----

  lemma {:induction false} CaseRowsMember(rows: seq<Row>, caseId: string, r: Row)
    ensures r in CaseRows(rows, caseId) <==> r in rows && r.event.caseId == caseId
    decreases |rows|
  {
    if rows != [] {
      CaseRowsMember(rows[..|rows| - 1], caseId, r);
      assert rows == rows[..|rows| - 1] + [rows[|rows| - 1]];
    }
  }

  lemma {:induction false} TopOfNumbered(rows: seq<Row>)
    requires Numbered(rows)
    ensures Top(rows) == if rows == [] then None else Some(rows[|rows| - 1])
    decreases |rows|
  {
    if rows != [] {
      TopOfNumbered(rows[..|rows| - 1]);
    }
  }

  lemma ClaimIsNext(hash: Hash, rows: seq<Row>, caseId: string)
    requires Chained(hash, rows)
    ensures var mine := CaseRows(rows, caseId);
            ClaimAfter(rows, caseId) == Claim(HashBefore(mine, |mine|), |mine| + 1)
  {
    TopOfNumbered(CaseRows(rows, caseId));
  }

  lemma CaseRowsAppend(rows: seq<Row>, row: Row, caseId: string)
    ensures CaseRows(rows + [row], caseId) == if row.event.caseId == caseId
                                              then CaseRows(rows, caseId) + [row] else CaseRows(rows, caseId)
  {
    assert (rows + [row])[..|rows|] == rows;
  }

  /** A claim is refused exactly when the case already has that many rows. */
  lemma AcceptsExactly(hash: Hash, rows: seq<Row>, row: Row)
    requires Chained(hash, rows) && row.position >= 1
    ensures Accepts(rows, row) <==> |CaseRows(rows, row.event.caseId)| < row.position
  {
    var mine := CaseRows(rows, row.event.caseId);
    if row.position <= |mine| {
      var r := mine[row.position - 1];
      CaseRowsMember(rows, row.event.caseId, r);
      var i :| 0 <= i < |rows| && rows[i] == r;
    } else {
      forall i | 0 <= i < |rows|
        ensures !(rows[i].event.caseId == row.event.caseId && rows[i].position == row.position)
      {
        CaseRowsMember(rows, row.event.caseId, rows[i]);
        if rows[i].event.caseId == row.event.caseId {
          var j :| 0 <= j < |mine| && mine[j] == rows[i];
        }
      }
    }
  }

  /** The row that comes next on a case's chain. */
  ghost predicate Continues(hash: Hash, mine: seq<Row>, row: Row) {
    && row.position == |mine| + 1
    && row.prevHash == HashBefore(mine, |mine|)
    && row.eventHash == hash(Encode(row.prevHash, row.event))
  }

  lemma ChainGrows(hash: Hash, mine: seq<Row>, row: Row)
    requires Numbered(mine) && ValidChain(hash, mine) && Continues(hash, mine, row)
    ensures Numbered(mine + [row]) && ValidChain(hash, mine + [row])
  {
    var grown := mine + [row];
    forall i | 0 <= i < |grown| ensures Linked(hash, grown, i) {
      assert HashBefore(grown, i) == HashBefore(mine, i);
      if i < |mine| { assert Linked(hash, mine, i); }
    }
  }

  /** An accepted claim that was read from this chain no later than now extends the chain: no fork. */
  lemma InsertKeepsChained(hash: Hash, rows: seq<Row>, id: nat, e: Event, c: Claim)
    requires Chained(hash, rows) && Accepts(rows, RowFor(hash, id, e, c))
    requires var mine := CaseRows(rows, e.caseId);
             1 <= c.position <= |mine| + 1 && c.prevHash == HashBefore(mine, c.position - 1)
    ensures Chained(hash, rows + [RowFor(hash, id, e, c)])
  {
    var row := RowFor(hash, id, e, c);
    AcceptsExactly(hash, rows, row);
    forall caseId
      ensures Numbered(CaseRows(rows + [row], caseId)) && ValidChain(hash, CaseRows(rows + [row], caseId))
    {
      CaseRowsAppend(rows, row, caseId);
      if caseId == e.caseId { ChainGrows(hash, CaseRows(rows, caseId), row); }
    }
  }

  // ---- the verifier's ordered listing ----

  predicate SortedBySeq(rows: seq<Row>) {
    forall i, j :: 0 <= i < j < |rows| ==> rows[i].position <= rows[j].position
  }

  lemma LastsAgree(listing: seq<Row>, mine: seq<Row>)
    requires |listing| == |mine| > 0
    requires SortedBySeq(listing) && multiset(listing) == multiset(mine)
    requires Numbered(mine)
    ensures listing[|mine| - 1] == mine[|mine| - 1]
  {
    var n := |mine| - 1;
    assert mine[n] in multiset(listing) && listing[n] in multiset(mine);
    var i :| 0 <= i < |listing| && listing[i] == mine[n];
    var j :| 0 <= j < |mine| && mine[j] == listing[n];
    assert i < n ==> listing[i].position <= listing[n].position;
  }

  lemma MultisetWithoutLast(xs: seq<Row>)
    requires |xs| > 0
    ensures multiset(xs[..|xs| - 1]) == multiset(xs) - multiset{xs[|xs| - 1]}
  {
    assert xs == xs[..|xs| - 1] + [xs[|xs| - 1]];
  }

  lemma SameLength(xs: seq<Row>, ys: seq<Row>)
    requires multiset(xs) == multiset(ys)
    ensures |xs| == |ys|
  {
    assert |xs| == |multiset(xs)| == |multiset(ys)| == |ys|;
  }

  /** Ordering a case's rows by seq restores the order they were committed in. */
  lemma {:induction false} SortedListing(listing: seq<Row>, mine: seq<Row>)
    requires SortedBySeq(listing) && multiset(listing) == multiset(mine)
    requires Numbered(mine)
    ensures listing == mine
    decreases |mine|
  {
    SameLength(listing, mine);
    if mine != [] {
      var n := |mine| - 1;
      LastsAgree(listing, mine);
      MultisetWithoutLast(listing);
      MultisetWithoutLast(mine);
      SortedListing(listing[..n], mine[..n]);
      assert listing == listing[..n] + [listing[n]] && mine == mine[..n] + [mine[n]];
    }
  }

  /** On every chained table the verifier, reading the case's rows by seq, finds nothing broken. */
  lemma VerifierAccepts(hash: Hash, rows: seq<Row>, caseId: string, listing: seq<Row>)
    requires Chained(hash, rows)
    requires SortedBySeq(listing) && multiset(listing) == multiset(CaseRows(rows, caseId))
    ensures ValidChain(hash, listing) && listing == CaseRows(rows, caseId)
    ensures Numbered(listing)
  {
    SortedListing(listing, CaseRows(rows, caseId));
  }

  lemma PredecessorLinks(hash: Hash, rows: seq<Row>)
    requires ValidChain(hash, rows)
    ensures forall i :: 0 < i < |rows| ==> rows[i].prevHash == rows[i - 1].eventHash
  {
    forall i | 0 < i < |rows| ensures rows[i].prevHash == rows[i - 1].eventHash { assert Linked(hash, rows, i); }
  }

  // ---- any number of appenders, interleaved ----

  type WriterId = nat

  /** One append_event call: how many attempts were lost, and the claim it holds if it has read.
      before is the number of rows its case had when the call began. */
  datatype Writer =
    | Reading(event: Event, lost: nat, before: nat)
    | Writing(event: Event, lost: nat, before: nat, claim: Claim)
    | Committed(event: Event, lost: nat, before: nat)
    | GaveUp(event: Event, lost: nat, before: nat)

  datatype Log = Log(rows: seq<Row>, writers: map<WriterId, Writer>)

  datatype Move = Begin(w: WriterId, event: Event) | Read(w: WriterId) | Commit(w: WriterId)

  function Play(hash: Hash, s: Log, m: Move): Log {
    match m
    case Begin(w, e) =>
      if w in s.writers then s else s.(writers := s.writers[w := Reading(e, 0, |CaseRows(s.rows, e.caseId)|)])
    case Read(w) =>
      if w in s.writers && s.writers[w].Reading? then
        var r := s.writers[w];
        s.(writers := s.writers[w := Writing(r.event, r.lost, r.before, ClaimAfter(s.rows, r.event.caseId))])
      else s
    case Commit(w) =>
      if w in s.writers && s.writers[w].Writing? then
        var r := s.writers[w];
        var row := RowFor(hash, w, r.event, r.claim);
        if Accepts(s.rows, row) then Log(s.rows + [row], s.writers[w := Committed(r.event, r.lost, r.before)])
        else if r.lost == MAX_ATTEMPTS - 1 then s.(writers := s.writers[w := GaveUp(r.event, r.lost + 1, r.before)])
        else s.(writers := s.writers[w := Reading(r.event, r.lost + 1, r.before)])
      else s
  }

  function PlayAll(hash: Hash, s: Log, moves: seq<Move>): Log
    decreases |moves|
  {
    if moves == [] then s else PlayAll(hash, Play(hash, s, moves[0]), moves[1..])
  }

  /** A claim was read from a prefix of the case's present chain, and every lost attempt stands for a
      row that appeared on the case since the call began. */
  ghost predicate WriterOk(s: Log, w: WriterId)
    requires w in s.writers
  {
    var r := s.writers[w];
    var mine := CaseRows(s.rows, r.event.caseId);
    && r.before + r.lost <= |mine|
    && (r.Reading? || r.Writing? ==> r.lost < MAX_ATTEMPTS)
    && (r.GaveUp? ==> r.lost == MAX_ATTEMPTS)
    && (r.Writing? ==>
          && r.before + r.lost < r.claim.position <= |mine| + 1
          && r.claim.prevHash == HashBefore(mine, r.claim.position - 1))
    && (!r.Committed? ==> forall i :: 0 <= i < |s.rows| ==> s.rows[i].id != w)
  }

  ghost predicate LogOk(hash: Hash, s: Log) {
    && Chained(hash, s.rows)
    && (forall w :: w in s.writers ==> WriterOk(s, w))
    && (forall i :: 0 <= i < |s.rows| ==> s.rows[i].id in s.writers)
  }

  lemma OthersUnmoved(s: Log, t: Log, w: WriterId, row: Row)
    requires w in s.writers && WriterOk(s, w) && w in t.writers && t.writers[w] == s.writers[w]
    requires t.rows == s.rows + [row] && row.id != w
    ensures WriterOk(t, w)
  {
    CaseRowsAppend(s.rows, row, s.writers[w].event.caseId);
  }

  lemma AcceptedOk(hash: Hash, s: Log, w: WriterId, row: Row, t: Log)
    requires LogOk(hash, s) && w in s.writers && s.writers[w].Writing?
    requires row == RowFor(hash, w, s.writers[w].event, s.writers[w].claim) && Accepts(s.rows, row)
    requires var r := s.writers[w]; t == Log(s.rows + [row], s.writers[w := Committed(r.event, r.lost, r.before)])
    ensures LogOk(hash, t)
  {
    assert WriterOk(s, w);
    InsertKeepsChained(hash, s.rows, w, s.writers[w].event, s.writers[w].claim);
    CaseRowsAppend(s.rows, row, s.writers[w].event.caseId);
    forall v | v in t.writers ensures WriterOk(t, v) {
      if v != w { OthersUnmoved(s, t, v, row); }
    }
  }

  lemma RefusedOk(hash: Hash, s: Log, w: WriterId, row: Row, t: Log)
    requires LogOk(hash, s) && w in s.writers && s.writers[w].Writing?
    requires row == RowFor(hash, w, s.writers[w].event, s.writers[w].claim) && !Accepts(s.rows, row)
    requires var r := s.writers[w];
             t == s.(writers := s.writers[w := if r.lost == MAX_ATTEMPTS - 1 then GaveUp(r.event, r.lost + 1, r.before)
                                               else Reading(r.event, r.lost + 1, r.before)])
    ensures LogOk(hash, t)
  {
    assert WriterOk(s, w);
    AcceptsExactly(hash, s.rows, row);
    forall v | v in t.writers ensures WriterOk(t, v) {
      if v != w { assert WriterOk(s, v); }
    }
  }

  lemma CommitOk(hash: Hash, s: Log, w: WriterId)
    requires LogOk(hash, s) && w in s.writers && s.writers[w].Writing?
    ensures LogOk(hash, Play(hash, s, Commit(w)))
  {
    var row := RowFor(hash, w, s.writers[w].event, s.writers[w].claim);
    if Accepts(s.rows, row) {
      AcceptedOk(hash, s, w, row, Play(hash, s, Commit(w)));
    } else {
      RefusedOk(hash, s, w, row, Play(hash, s, Commit(w)));
    }
  }

  lemma BeginOk(hash: Hash, s: Log, w: WriterId, e: Event)
    requires LogOk(hash, s) && w !in s.writers
    ensures LogOk(hash, Play(hash, s, Begin(w, e)))
  {
    var t := Play(hash, s, Begin(w, e));
    forall v | v in t.writers ensures WriterOk(t, v) {
      if v != w { assert WriterOk(s, v); }
    }
  }

  lemma ReadOk(hash: Hash, s: Log, w: WriterId)
    requires LogOk(hash, s) && w in s.writers && s.writers[w].Reading?
    ensures LogOk(hash, Play(hash, s, Read(w)))
  {
    var t := Play(hash, s, Read(w));
    ClaimIsNext(hash, s.rows, s.writers[w].event.caseId);
    forall v | v in t.writers ensures WriterOk(t, v) { assert WriterOk(s, v); }
  }

  lemma PlayOk(hash: Hash, s: Log, m: Move)
    requires LogOk(hash, s)
    ensures LogOk(hash, Play(hash, s, m))
  {
    match m
    case Begin(w, e) => if w !in s.writers { BeginOk(hash, s, w, e); }
    case Read(w) => if w in s.writers && s.writers[w].Reading? { ReadOk(hash, s, w); }
    case Commit(w) => if w in s.writers && s.writers[w].Writing? { CommitOk(hash, s, w); }
  }

  lemma {:induction false} PlayAllOk(hash: Hash, s: Log, moves: seq<Move>)
    requires LogOk(hash, s)
    ensures LogOk(hash, PlayAll(hash, s, moves))
    decreases |moves|
  {
    if moves != [] {
      PlayOk(hash, s, moves[0]);
      PlayAllOk(hash, Play(hash, s, moves[0]), moves[1..]);
    }
  }

  /** A writer that has read commits exactly when its case has gained no row since its claim was fixed, and the
      row it commits carries its own event next on the chain; otherwise the attempt is lost, the rows stay, and
      the eighth lost attempt is the last. */
  lemma CommitExactly(hash: Hash, s: Log, w: WriterId)
    requires LogOk(hash, s) && w in s.writers && s.writers[w].Writing?
    ensures var r := s.writers[w];
            var t := Play(hash, s, Commit(w));
            var mine := CaseRows(s.rows, r.event.caseId);
            if |mine| + 1 == r.claim.position
            then && t.writers == s.writers[w := Committed(r.event, r.lost, r.before)]
                 && exists row :: && t.rows == s.rows + [row] && Continues(hash, mine, row)
                                  && row.event == r.event && row.id == w
            else && t.rows == s.rows
                 && t.writers == s.writers[w := if r.lost + 1 == 8 then GaveUp(r.event, r.lost + 1, r.before)
                                                else Reading(r.event, r.lost + 1, r.before)]
  {
    var r := s.writers[w];
    var row := RowFor(hash, w, r.event, r.claim);
    assert WriterOk(s, w);
    AcceptsExactly(hash, s.rows, row);
    if |CaseRows(s.rows, r.event.caseId)| + 1 == r.claim.position {
      assert Continues(hash, CaseRows(s.rows, r.event.caseId), row);
      assert Play(hash, s, Commit(w)).rows == s.rows + [row];
    }
  }

  /** A writer that begins, reads and commits with nobody in between commits at the first attempt. */
  lemma AloneCommitsAtOnce(hash: Hash, s: Log, w: WriterId, e: Event)
    requires LogOk(hash, s) && w !in s.writers
    ensures var t := Play(hash, Play(hash, Play(hash, s, Begin(w, e)), Read(w)), Commit(w));
            && t.writers == s.writers[w := Committed(e, 0, |CaseRows(s.rows, e.caseId)|)]
            && exists row :: t.rows == s.rows + [row] && Continues(hash, CaseRows(s.rows, e.caseId), row)
                             && row.event == e && row.id == w
  {
    var begun := Play(hash, s, Begin(w, e));
    var claimed := Play(hash, begun, Read(w));
    BeginOk(hash, s, w, e);
    ReadOk(hash, begun, w);
    ClaimIsNext(hash, s.rows, e.caseId);
    CommitExactly(hash, claimed, w);
    assert claimed.writers[w := Committed(e, 0, |CaseRows(s.rows, e.caseId)|)]
        == s.writers[w := Committed(e, 0, |CaseRows(s.rows, e.caseId)|)];
  }

  /** However many appenders interleave, each case's rows are numbered 1..n without gap or fork, each
      links to its predecessor, and the verifier's listing by seq is valid. */
  lemma InterleavedAppendsNeverFork(hash: Hash, moves: seq<Move>, caseId: string, listing: seq<Row>)
    requires var t := PlayAll(hash, Log([], map[]), moves);
             SortedBySeq(listing) && multiset(listing) == multiset(CaseRows(t.rows, caseId))
    ensures ValidChain(hash, listing)
    ensures Numbered(listing)
    ensures forall i :: 0 < i < |listing| ==> listing[i].prevHash == listing[i - 1].eventHash
  {
    PlayAllOk(hash, Log([], map[]), moves);
    var t := PlayAll(hash, Log([], map[]), moves);
    VerifierAccepts(hash, t.rows, caseId, listing);
    PredecessorLinks(hash, listing);
  }

  /** A call that exhausts its attempts has seen at least that many rows committed on its case since it
      began, none of them its own: with at most seven competing commits it cannot give up. */
  lemma GivingUpTakesEightRivals(hash: Hash, moves: seq<Move>, w: WriterId)
    requires var t := PlayAll(hash, Log([], map[]), moves);
             w in t.writers && t.writers[w].GaveUp?
    ensures var t := PlayAll(hash, Log([], map[]), moves);
            var mine := CaseRows(t.rows, t.writers[w].event.caseId);
            && t.writers[w].before <= |mine|
            && var rivals := mine[t.writers[w].before..];
            && |rivals| >= 8
            && (forall i :: 0 <= i < |rivals| ==> rivals[i].id != w)
            && (forall i, j :: 0 <= i < j < |rivals| ==> rivals[i] != rivals[j])
  {
    PlayAllOk(hash, Log([], map[]), moves);
    var t := PlayAll(hash, Log([], map[]), moves);
    assert WriterOk(t, w);
    var mine := CaseRows(t.rows, t.writers[w].event.caseId);
    forall i | 0 <= i < |mine| ensures mine[i].id != w {
      CaseRowsMember(t.rows, t.writers[w].event.caseId, mine[i]);
    }
  }

  // ---- the retry loop of one call, rivals committing between its reads and its inserts ----

  /** Rivals appending one whole event after another. */
  function Extend(hash: Hash, rows: seq<Row>, rivals: seq<Event>): seq<Row>
    decreases |rivals|
  {
    if rivals == [] then rows
    else Extend(hash, rows + [RowFor(hash, 0, rivals[0], ClaimAfter(rows, rivals[0].caseId))], rivals[1..])
  }

  predicate Touches(rivals: seq<Event>, caseId: string) {
    rivals != [] && (rivals[0].caseId == caseId || Touches(rivals[1..], caseId))
  }

  /** The table after the rivals of the first k rounds. */
  function ExtendRounds(hash: Hash, rows: seq<Row>, rounds: seq<seq<Event>>, k: nat): seq<Row>
    requires k <= |rounds|
  {
    if k == 0 then rows else Extend(hash, ExtendRounds(hash, rows, rounds, k - 1), rounds[k - 1])
  }

  /** In each of the first k rounds somebody else touches the case. */
  predicate Contested(rounds: seq<seq<Event>>, caseId: string, k: nat)
    requires k <= |rounds|
  {
    k == 0 || (Contested(rounds, caseId, k - 1) && Touches(rounds[k - 1], caseId))
  }

  /** Round k is the first in which nobody else touches the case, and its row lands on top of all
      the rows appended up to then. */
  ghost predicate LandsIn(hash: Hash, before: seq<Row>, rounds: seq<seq<Event>>, k: nat, row: Row, after: seq<Row>)
    requires k < |rounds|
  {
    && Contested(rounds, row.event.caseId, k) && !Touches(rounds[k], row.event.caseId)
    && after == ExtendRounds(hash, before, rounds, k + 1) + [row]
  }

  lemma OneRival(hash: Hash, rows: seq<Row>, e: Event, caseId: string)
    requires Chained(hash, rows)
    ensures var row := RowFor(hash, 0, e, ClaimAfter(rows, e.caseId));
            && Chained(hash, rows + [row])
            && CaseRows(rows + [row], caseId) == if e.caseId == caseId
                                                 then CaseRows(rows, caseId) + [row] else CaseRows(rows, caseId)
  {
    var c := ClaimAfter(rows, e.caseId);
    var row := RowFor(hash, 0, e, c);
    ClaimIsNext(hash, rows, e.caseId);
    AcceptsExactly(hash, rows, row);
    InsertKeepsChained(hash, rows, 0, e, c);
    CaseRowsAppend(rows, row, caseId);
  }

  /** Rivals only ever extend the chain of a case, and do so exactly when one of them touches it. */
  lemma {:induction false} ExtendFacts(hash: Hash, rows: seq<Row>, rivals: seq<Event>, caseId: string)
    requires Chained(hash, rows)
    ensures Chained(hash, Extend(hash, rows, rivals))
    ensures CaseRows(rows, caseId) <= CaseRows(Extend(hash, rows, rivals), caseId)
    ensures Touches(rivals, caseId) <==> |CaseRows(rows, caseId)| < |CaseRows(Extend(hash, rows, rivals), caseId)|
    decreases |rivals|
  {
    if rivals != [] {
      var row := RowFor(hash, 0, rivals[0], ClaimAfter(rows, rivals[0].caseId));
      OneRival(hash, rows, rivals[0], caseId);
      ExtendFacts(hash, rows + [row], rivals[1..], caseId);
    }
  }

  /** The event table as the repository updates it. */
  class EventStore {
    var rows: seq<Row>

    constructor ()
      ensures rows == []
    {
      rows := [];
    }

    method Insert(row: Row) returns (ok: bool)
      modifies this
      ensures ok <==> Accepts(old(rows), row)
      ensures rows == if ok then old(rows) + [row] else old(rows)
    {
      ok := forall i | 0 <= i < |rows| ::
          !(rows[i].event.caseId == row.event.caseId && rows[i].position == row.position);
      if ok { rows := rows + [row]; }
    }

    /** One round: read, recompute, and insert after the given rivals landed. It succeeds exactly when
        none of them touched this case, and then the row directly continues the case's chain. */
    method TryAppend(hash: Hash, id: nat, event: Event, rivals: seq<Event>) returns (committed: Option<Row>)
      requires Chained(hash, rows)
      modifies this
      ensures Chained(hash, rows)
      ensures committed.None? <==> Touches(rivals, event.caseId)
      ensures committed.None? ==> rows == Extend(hash, old(rows), rivals)
      ensures committed.Some? ==>
                && committed.value.event == event && committed.value.id == id
                && rows == Extend(hash, old(rows), rivals) + [committed.value]
                && Continues(hash, CaseRows(old(rows), event.caseId), committed.value)
    {
      var claim := ClaimAfter(rows, event.caseId);
      var row := RowFor(hash, id, event, claim);
      ClaimIsNext(hash, rows, event.caseId);
      ExtendFacts(hash, rows, rivals, event.caseId);
      rows := Extend(hash, rows, rivals);
      AcceptsExactly(hash, rows, row);
      ghost var between := rows;
      var ok := Insert(row);
      if ok { InsertKeepsChained(hash, between, id, event, claim); }
      committed := if ok then Some(row) else None;
    }

    /** Round k of a call that began at the given table and was contested in every round before. */
    method PlayRound(hash: Hash, id: nat, event: Event, rivals: seq<seq<Event>>, k: nat, ghost start: seq<Row>)
      returns (committed: Option<Row>)
      requires k < |rivals| && Chained(hash, rows)
      requires rows == ExtendRounds(hash, start, rivals, k) && Contested(rivals, event.caseId, k)
      modifies this
      ensures Chained(hash, rows)
      ensures committed.None? ==>
                rows == ExtendRounds(hash, start, rivals, k + 1) && Contested(rivals, event.caseId, k + 1)
      ensures committed.Some? ==>
                && committed.value.event == event && committed.value.id == id
                && LandsIn(hash, start, rivals, k, committed.value, rows)
    {
      committed := TryAppend(hash, id, event, rivals[k]);
    }

    /** Eight rounds at most; rivals[k] land between the read and the insert of round k. The call
        commits in the first round in which no rival touched its case, and fails exactly when rivals
        touched its case in all eight. */
    method AppendEvent(hash: Hash, id: nat, event: Event, rivals: seq<seq<Event>>) returns (committed: Option<Row>)
      requires |rivals| == MAX_ATTEMPTS
      requires Chained(hash, rows)
      modifies this
      ensures Chained(hash, rows)
      ensures committed.None? ==>
                && Contested(rivals, event.caseId, MAX_ATTEMPTS)
                && rows == ExtendRounds(hash, old(rows), rivals, MAX_ATTEMPTS)
      ensures committed.Some? ==>
                && committed.value.event == event && committed.value.id == id
                && exists k :: 0 <= k < MAX_ATTEMPTS && LandsIn(hash, old(rows), rivals, k, committed.value, rows)
    {
      var attempt := 0;
      while attempt < MAX_ATTEMPTS
        invariant 0 <= attempt <= MAX_ATTEMPTS
        invariant Chained(hash, rows)
        invariant rows == ExtendRounds(hash, old(rows), rivals, attempt)
        invariant Contested(rivals, event.caseId, attempt)
      {
        committed := PlayRound(hash, id, event, rivals, attempt, old(rows));
        if committed.Some? { return; }
        attempt := attempt + 1;
      }
      committed := None;
    }
  }
}
