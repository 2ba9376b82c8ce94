/** The tamper-evident event chain: encoding, verification and what a matching head hash proves
    (append_event and verify_event_chain in backend/app/after_sales/repository.py). */
module EventChain {
  import opened Wrappers

  type Hash = string -> string

  /** The audited fields; metadata is its canonical JSON text. */
  datatype Event = Event(
    caseId: string,
    eventType: string,
    actor: string,
    runId: Option<string>,
    traceId: Option<string>,
    metadata: string)

  datatype Row = Row(id: nat, event: Event, prevHash: string, eventHash: string, position: nat)

  function OrEmpty(s: Option<string>): string { if s.Some? then s.value else "" }

  /** The text that is hashed: six colon-terminated fields and the metadata. */
  function Encode(prev: string, e: Event): string {
    prev + (":" + (e.caseId + (":" + (e.eventType + (":" + (e.actor + (":" +
      (OrEmpty(e.runId) + (":" + (OrEmpty(e.traceId) + (":" + e.metadata)))))))))))
  }

  // ---- verification ----

  function HashBefore(rows: seq<Row>, i: nat): string
    requires i <= |rows|
  {
    if i == 0 then "" else rows[i - 1].eventHash
  }

  predicate Linked(hash: Hash, rows: seq<Row>, i: nat)
    requires i < |rows|
  {
    && rows[i].prevHash == HashBefore(rows, i)
    && rows[i].eventHash == hash(Encode(HashBefore(rows, i), rows[i].event))
  }

  ghost predicate ValidChain(hash: Hash, rows: seq<Row>) {
    forall i :: 0 <= i < |rows| ==> Linked(hash, rows, i)
  }

  datatype Verdict = Verdict(valid: bool, brokenAt: Option<nat>, count: nat)

  /** The verifier accepts exactly the valid chains, and otherwise points at the first broken row. */
  method VerifyEventChain(hash: Hash, rows: seq<Row>) returns (v: Verdict)
    ensures v.count == |rows|
    ensures v.valid <==> ValidChain(hash, rows)
    ensures v.valid <==> v.brokenAt == None
    ensures !v.valid ==> var k := v.brokenAt.value;
                         && k < |rows| && !Linked(hash, rows, k)
                         && (forall i :: 0 <= i < k ==> Linked(hash, rows, i))
  {
    var prev := "";
    var index := 0;
    while index < |rows|
      invariant 0 <= index <= |rows|
      invariant prev == HashBefore(rows, index)
      invariant forall i :: 0 <= i < index ==> Linked(hash, rows, i)
    {
      var row := rows[index];
      var expected := hash(Encode(prev, row.event));
      if row.prevHash != prev || row.eventHash != expected {
        assert !Linked(hash, rows, index);
        return Verdict(false, Some(index), |rows|);
      }
      prev := row.eventHash;
      index := index + 1;
    }
    v := Verdict(true, None, |rows|);
  }

  // ---- the encoding is injective on colon-free fields ----

  predicate Plain(s: string) { ':' !in s }

  predicate PlainFields(e: Event) {
    Plain(e.caseId) && Plain(e.eventType) && Plain(e.actor) && Plain(OrEmpty(e.runId)) && Plain(OrEmpty(e.traceId))
  }

  /** Equal on everything that is hashed; an absent run or trace id is the empty one. */
  predicate SameEvent(d: Event, e: Event) {
    && d.caseId == e.caseId && d.eventType == e.eventType && d.actor == e.actor
    && OrEmpty(d.runId) == OrEmpty(e.runId) && OrEmpty(d.traceId) == OrEmpty(e.traceId)
    && d.metadata == e.metadata
  }

  /** In a text made of a plain part, a colon and a rest, the first colon marks the cut. */
  lemma CutAtColon(t: string, a: string, x: string)
    requires Plain(a) && t == a + (":" + x)
    ensures |a| < |t| && t[|a|] == ':' && a == t[..|a|] && x == t[|a| + 1..]
    ensures forall i :: 0 <= i < |a| ==> t[i] != ':'
  {
    forall i | 0 <= i < |a| ensures t[i] != ':' {
      assert t[i] == a[i] && a[i] in a;
    }
  }

  lemma SplitAtColon(a: string, x: string, b: string, y: string)
    requires Plain(a) && Plain(b) && a + (":" + x) == b + (":" + y)
    ensures a == b && x == y
  {
    var t := a + (":" + x);
    CutAtColon(t, a, x);
    CutAtColon(t, b, y);
    assert |a| == |b|;
  }

  lemma EncodeInjective(p: string, d: Event, q: string, e: Event)
    requires Plain(p) && Plain(q) && PlainFields(d) && PlainFields(e)
    requires Encode(p, d) == Encode(q, e)
    ensures p == q && SameEvent(d, e)
  {
    var d5, e5 := OrEmpty(d.traceId) + (":" + d.metadata), OrEmpty(e.traceId) + (":" + e.metadata);
    var d4, e4 := OrEmpty(d.runId) + (":" + d5), OrEmpty(e.runId) + (":" + e5);
    var d3, e3 := d.actor + (":" + d4), e.actor + (":" + e4);
    var d2, e2 := d.eventType + (":" + d3), e.eventType + (":" + e3);
    var d1, e1 := d.caseId + (":" + d2), e.caseId + (":" + e2);
    SplitAtColon(p, d1, q, e1);
    SplitAtColon(d.caseId, d2, e.caseId, e2);
    SplitAtColon(d.eventType, d3, e.eventType, e3);
    SplitAtColon(d.actor, d4, e.actor, e4);
    SplitAtColon(OrEmpty(d.runId), d5, OrEmpty(e.runId), e5);
    SplitAtColon(OrEmpty(d.traceId), d.metadata, OrEmpty(e.traceId), e.metadata);
  }

  // ---- what the encoding lets through when fields do contain colons ----

  function Colons(s: string): nat {
    if s == "" then 0 else (if s[0] == ':' then 1 else 0) + Colons(s[1..])
  }

  lemma {:induction false} ColonsOfJoin(a: string, b: string)
    ensures Colons(a + b) == Colons(a) + Colons(b)
    decreases |a|
  {
    if a == "" {
      assert a + b == b;
    } else {
      assert (a + b)[1..] == a[1..] + b;
      ColonsOfJoin(a[1..], b);
    }
  }

  lemma {:induction false} PlainHasNone(s: string)
    ensures Colons(s) == 0 <==> Plain(s)
  {
    if s != "" {
      PlainHasNone(s[1..]);
      assert s == [s[0]] + s[1..];
    }
  }

  lemma ColonsOfPair(a: string, b: string)
    ensures Colons(a + (":" + b)) == Colons(a) + 1 + Colons(b)
  {
    ColonsOfJoin(a, ":" + b);
    ColonsOfJoin(":", b);
    assert ":"[1..] == "";
  }

  lemma CutLeft(a: string, x: string, y: string)
    requires a + (":" + x) == a + (":" + y)
    ensures x == y
  {
    assert x == (a + (":" + x))[|a| + 1..] && y == (a + (":" + y))[|a| + 1..];
  }

  lemma CutRight(a: string, b: string, x: string)
    requires a + (":" + x) == b + (":" + x)
    ensures a == b
  {
    assert |a| == |b|;
    assert a == (a + (":" + x))[..|a|] && b == (b + (":" + x))[..|b|];
  }

  /** The hashed text from the event type, the actor, the run id and the trace id on. */
  function FromTrace(e: Event): string { OrEmpty(e.traceId) + (":" + e.metadata) }
  function FromRun(e: Event): string { OrEmpty(e.runId) + (":" + FromTrace(e)) }
  function FromActor(e: Event): string { e.actor + (":" + FromRun(e)) }
  function FromType(e: Event): string { e.eventType + (":" + FromActor(e)) }

  predicate DifferInOneField(d: Event, e: Event) {
    || e == d.(caseId := e.caseId) || e == d.(eventType := e.eventType) || e == d.(actor := e.actor)
    || e == d.(runId := e.runId) || e == d.(traceId := e.traceId) || e == d.(metadata := e.metadata)
  }

  /** A rewrite of one field always shows in the text, colons or not. */
  lemma OneFieldShows(prev: string, d: Event, e: Event)
    requires DifferInOneField(d, e)
    ensures Encode(prev, d) == Encode(prev, e) <==> SameEvent(d, e)
  {
    if Encode(prev, d) == Encode(prev, e) {
      CutLeft(prev, d.caseId + (":" + FromType(d)), e.caseId + (":" + FromType(e)));
      if d.caseId != e.caseId {
        CutRight(d.caseId, e.caseId, FromType(d));
      } else {
        CutLeft(d.caseId, FromType(d), FromType(e));
        OneFieldFromType(d, e);
      }
    }
  }

  lemma OneFieldFromType(d: Event, e: Event)
    requires DifferInOneField(d, e) && d.caseId == e.caseId && FromType(d) == FromType(e)
    ensures SameEvent(d, e)
  {
    if d.eventType != e.eventType {
      CutRight(d.eventType, e.eventType, FromActor(d));
    } else {
      CutLeft(d.eventType, FromActor(d), FromActor(e));
      if d.actor != e.actor {
        CutRight(d.actor, e.actor, FromRun(d));
      } else {
        CutLeft(d.actor, FromRun(d), FromRun(e));
        OneFieldFromRun(d, e);
      }
    }
  }

  lemma OneFieldFromRun(d: Event, e: Event)
    requires DifferInOneField(d, e) && d.caseId == e.caseId && d.eventType == e.eventType && d.actor == e.actor
    requires FromRun(d) == FromRun(e)
    ensures SameEvent(d, e)
  {
    if d.runId != e.runId {
      CutRight(OrEmpty(d.runId), OrEmpty(e.runId), FromTrace(d));
    } else {
      CutLeft(OrEmpty(d.runId), FromTrace(d), FromTrace(e));
      if d.traceId != e.traceId {
        CutRight(OrEmpty(d.traceId), OrEmpty(e.traceId), d.metadata);
      } else {
        CutLeft(OrEmpty(d.traceId), d.metadata, e.metadata);
      }
    }
  }

  /** A colon that moves from one field to the next leaves the text as it was. */
  lemma ColonMoves(x: string, y: string, z: string, rest: string)
    ensures (x + (":" + y)) + (":" + (z + rest)) == x + (":" + ((y + (":" + z)) + rest))
  {
  }

  lemma CutAtFirstColon(s: string) returns (x: string, y: string)
    requires !Plain(s)
    ensures s == x + (":" + y)
  {
    var i :| 0 <= i < |s| && s[i] == ':';
    x, y := s[..i], s[i + 1..];
    assert s == s[..i] + ([s[i]] + s[i + 1..]);
  }

  predicate Unnoticed(prev: string, d: Event, e: Event) { Encode(prev, d) == Encode(prev, e) && !SameEvent(d, e) }

  /** Rewriting the run and trace ids of an event can go unnoticed exactly when one of them holds a colon. */
  lemma IdRewriteUnnoticedExactly(prev: string, d: Event)
    ensures (exists r, t :: Unnoticed(prev, d, d.(runId := r, traceId := t)))
       <==> !(Plain(OrEmpty(d.runId)) && Plain(OrEmpty(d.traceId)))
  {
    if Plain(OrEmpty(d.runId)) && Plain(OrEmpty(d.traceId)) {
      forall r, t ensures !Unnoticed(prev, d, d.(runId := r, traceId := t)) {
        if Encode(prev, d) == Encode(prev, d.(runId := r, traceId := t)) {
          PlainIdsShow(prev, d, d.(runId := r, traceId := t));
        }
      }
    } else {
      var r, t := MovedColon(prev, d);
    }
  }

  lemma PlainIdsShow(prev: string, d: Event, e: Event)
    requires e == d.(runId := e.runId, traceId := e.traceId)
    requires Plain(OrEmpty(d.runId)) && Plain(OrEmpty(d.traceId)) && Encode(prev, d) == Encode(prev, e)
    ensures SameEvent(d, e)
  {
    CutLeft(prev, d.caseId + (":" + FromType(d)), e.caseId + (":" + FromType(e)));
    CutLeft(d.caseId, FromType(d), FromType(e));
    CutLeft(d.eventType, FromActor(d), FromActor(e));
    CutLeft(d.actor, FromRun(d), FromRun(e));
    ColonsOfPair(OrEmpty(d.runId), FromTrace(d));
    ColonsOfPair(OrEmpty(d.traceId), d.metadata);
    ColonsOfPair(OrEmpty(e.runId), FromTrace(e));
    ColonsOfPair(OrEmpty(e.traceId), e.metadata);
    PlainHasNone(OrEmpty(d.runId));
    PlainHasNone(OrEmpty(d.traceId));
    PlainHasNone(OrEmpty(e.runId));
    PlainHasNone(OrEmpty(e.traceId));
    SplitAtColon(OrEmpty(d.runId), FromTrace(d), OrEmpty(e.runId), FromTrace(e));
    CutRight(OrEmpty(d.traceId), OrEmpty(e.traceId), d.metadata);
  }

  lemma MovedColon(prev: string, d: Event) returns (r: Option<string>, t: Option<string>)
    requires !(Plain(OrEmpty(d.runId)) && Plain(OrEmpty(d.traceId)))
    ensures Unnoticed(prev, d, d.(runId := r, traceId := t))
  {
    var rest := ":" + d.metadata;
    if !Plain(OrEmpty(d.runId)) {
      var x, y := CutAtFirstColon(OrEmpty(d.runId));
      r, t := Some(x), Some(y + (":" + OrEmpty(d.traceId)));
      ColonMoves(x, y, OrEmpty(d.traceId), rest);
    } else {
      var x, y := CutAtFirstColon(OrEmpty(d.traceId));
      r, t := Some(OrEmpty(d.runId) + (":" + x)), Some(y);
      ColonMoves(OrEmpty(d.runId), x, y, rest);
    }
    assert FromRun(d) == FromRun(d.(runId := r, traceId := t));
  }

  /** Rewriting any of the fields before the metadata can go unnoticed exactly when one of them holds a colon. */
  lemma RewriteUnnoticedExactly(prev: string, d: Event)
    ensures (exists e: Event :: e.metadata == d.metadata && Unnoticed(prev, d, e)) <==> !PlainFields(d)
  {
    if PlainFields(d) {
      forall e: Event | e.metadata == d.metadata ensures !Unnoticed(prev, d, e) {
        if Encode(prev, d) == Encode(prev, e) { PlainFieldsShow(prev, d, e); }
      }
    } else {
      var e := MovedFieldColon(prev, d);
    }
  }

  lemma FieldColons(e: Event)
    ensures Colons(e.caseId + (":" + FromType(e)))
         == Colons(e.caseId) + Colons(e.eventType) + Colons(e.actor)
            + Colons(OrEmpty(e.runId)) + Colons(OrEmpty(e.traceId)) + Colons(e.metadata) + 5
  {
    ColonsOfPair(e.caseId, FromType(e));
    ColonsOfPair(e.eventType, FromActor(e));
    ColonsOfPair(e.actor, FromRun(e));
    ColonsOfPair(OrEmpty(e.runId), FromTrace(e));
    ColonsOfPair(OrEmpty(e.traceId), e.metadata);
  }

  lemma PlainFieldsHaveNone(e: Event)
    ensures PlainFields(e) <==>
      Colons(e.caseId) + Colons(e.eventType) + Colons(e.actor)
      + Colons(OrEmpty(e.runId)) + Colons(OrEmpty(e.traceId)) == 0
  {
    PlainHasNone(e.caseId);
    PlainHasNone(e.eventType);
    PlainHasNone(e.actor);
    PlainHasNone(OrEmpty(e.runId));
    PlainHasNone(OrEmpty(e.traceId));
  }

  lemma PlainFieldsShow(prev: string, d: Event, e: Event)
    requires PlainFields(d) && e.metadata == d.metadata && Encode(prev, d) == Encode(prev, e)
    ensures SameEvent(d, e)
  {
    CutLeft(prev, d.caseId + (":" + FromType(d)), e.caseId + (":" + FromType(e)));
    FieldColons(d);
    FieldColons(e);
    PlainFieldsHaveNone(d);
    PlainFieldsHaveNone(e);
    SplitAtColon(d.caseId, FromType(d), e.caseId, FromType(e));
    SplitAtColon(d.eventType, FromActor(d), e.eventType, FromActor(e));
    SplitAtColon(d.actor, FromRun(d), e.actor, FromRun(e));
    SplitAtColon(OrEmpty(d.runId), FromTrace(d), OrEmpty(e.runId), FromTrace(e));
    CutRight(OrEmpty(d.traceId), OrEmpty(e.traceId), d.metadata);
  }

  /** The first colon of a field given to the next field, or the last field's to the one before it. */
  lemma MovedFieldColon(prev: string, d: Event) returns (e: Event)
    requires !PlainFields(d)
    ensures e.metadata == d.metadata && Unnoticed(prev, d, e)
  {
    if !Plain(d.caseId) {
      var x, y := CutAtFirstColon(d.caseId);
      e := d.(caseId := x, eventType := y + (":" + d.eventType));
      ColonMoves(x, y, d.eventType, ":" + FromActor(d));
    } else if !Plain(d.eventType) {
      var x, y := CutAtFirstColon(d.eventType);
      e := d.(eventType := x, actor := y + (":" + d.actor));
      ColonMoves(x, y, d.actor, ":" + FromRun(d));
      assert FromType(d) == FromType(e);
    } else if !Plain(d.actor) {
      var x, y := CutAtFirstColon(d.actor);
      e := d.(actor := x, runId := Some(y + (":" + OrEmpty(d.runId))));
      ColonMoves(x, y, OrEmpty(d.runId), ":" + FromTrace(d));
      assert FromActor(d) == FromActor(e);
    } else {
      var r, t := MovedColon(prev, d);
      e := d.(runId := r, traceId := t);
    }
  }

  /** Two such events, with the metadata of an event that carries none. */
  lemma ColonsDefeatTheEncoding(prev: string, caseId: string, eventType: string, actor: string)
    ensures Unnoticed(prev, Event(caseId, eventType, actor, Some("x:y"), Some("z"), "{}"),
                            Event(caseId, eventType, actor, Some("x"), Some("y:z"), "{}"))
  {
    var d := Event(caseId, eventType, actor, Some("x:y"), Some("z"), "{}");
    var e := Event(caseId, eventType, actor, Some("x"), Some("y:z"), "{}");
    assert FromRun(d) == "x:y:z:{}" && FromRun(e) == "x:y:z:{}";
  }

  // ---- tamper evidence ----

  /** Digests are non-empty and contain no colon, as hexadecimal ones do. */
  ghost predicate DigestShaped(hash: Hash) {
    forall x :: hash(x) != "" && Plain(hash(x))
  }

  ghost predicate Agree(xs: seq<Row>, ys: seq<Row>) {
    && |xs| == |ys|
    && (forall i :: 0 <= i < |xs| ==>
          && SameEvent(xs[i].event, ys[i].event)
          && xs[i].prevHash == ys[i].prevHash && xs[i].eventHash == ys[i].eventHash)
  }

  ghost predicate Collision(hash: Hash, x: string, y: string) { x != y && hash(x) == hash(y) }

  /** The text row i was hashed from. */
  function TextAt(rows: seq<Row>, i: nat): string
    requires i < |rows|
  {
    Encode(rows[i].prevHash, rows[i].event)
  }

  /** A row of each chain whose texts differ and have the same digest. */
  ghost predicate Clash(hash: Hash, xs: seq<Row>, ys: seq<Row>, i: nat, j: nat) {
    i < |xs| && j < |ys| && Collision(hash, TextAt(xs, i), TextAt(ys, j))
  }

  lemma ClashStays(hash: Hash, xs: seq<Row>, ys: seq<Row>, i: nat, j: nat)
    requires xs != [] && ys != [] && Clash(hash, xs[..|xs| - 1], ys[..|ys| - 1], i, j)
    ensures Clash(hash, xs, ys, i, j)
  {
    assert xs[..|xs| - 1][i] == xs[i] && ys[..|ys| - 1][j] == ys[j];
  }

  lemma ValidPrefix(hash: Hash, rows: seq<Row>, n: nat)
    requires ValidChain(hash, rows) && n <= |rows|
    ensures ValidChain(hash, rows[..n])
  {
    forall i | 0 <= i < n ensures Linked(hash, rows[..n], i) {
      assert Linked(hash, rows, i);
      assert HashBefore(rows[..n], i) == HashBefore(rows, i);
    }
  }

  lemma HeadIsPlain(hash: Hash, rows: seq<Row>)
    requires ValidChain(hash, rows) && DigestShaped(hash)
    ensures Plain(HashBefore(rows, |rows|))
    ensures HashBefore(rows, |rows|) == "" <==> rows == []
  {
    if rows != [] { assert Linked(hash, rows, |rows| - 1); }
  }

  lemma AgreeOnOneMore(xs: seq<Row>, ys: seq<Row>)
    requires xs != [] && ys != [] && Agree(xs[..|xs| - 1], ys[..|ys| - 1])
    requires var x, y := xs[|xs| - 1], ys[|ys| - 1];
             SameEvent(x.event, y.event) && x.prevHash == y.prevHash && x.eventHash == y.eventHash
    ensures Agree(xs, ys)
  {
    var m := |xs| - 1;
    assert |ys| == |xs|;
    forall i | 0 <= i < |xs|
      ensures && SameEvent(xs[i].event, ys[i].event)
              && xs[i].prevHash == ys[i].prevHash && xs[i].eventHash == ys[i].eventHash
    {
      if i < m { assert xs[..m][i] == xs[i] && ys[..m][i] == ys[i]; }
    }
  }

  /** A chain without its last row still verifies, and ends in the hash that row linked to. */
  lemma DropLast(hash: Hash, rows: seq<Row>)
    requires DigestShaped(hash) && ValidChain(hash, rows) && rows != []
    ensures var n := |rows| - 1;
            && ValidChain(hash, rows[..n]) && HashBefore(rows[..n], n) == rows[n].prevHash && Plain(rows[n].prevHash)
            && rows[n].eventHash == hash(Encode(rows[n].prevHash, rows[n].event))
  {
    var n := |rows| - 1;
    assert Linked(hash, rows, n);
    ValidPrefix(hash, rows, n);
    HeadIsPlain(hash, rows[..n]);
  }

  /** Tamper evidence: two verifying chains with the same head hash have the same length and agree on
      every hashed field, or else two of the texts they were built from differ and have the same digest. */
  lemma {:induction false} SameHeadSameHistory(hash: Hash, xs: seq<Row>, ys: seq<Row>)
    returns (clash: Option<(nat, nat)>)
    requires DigestShaped(hash) && ValidChain(hash, xs) && ValidChain(hash, ys)
    requires forall r :: r in xs || r in ys ==> PlainFields(r.event)
    requires HashBefore(xs, |xs|) == HashBefore(ys, |ys|)
    ensures clash.None? ==> Agree(xs, ys)
    ensures clash.Some? ==> Clash(hash, xs, ys, clash.value.0, clash.value.1)
    decreases |xs|
  {
    HeadIsPlain(hash, xs);
    HeadIsPlain(hash, ys);
    clash := None;
    if xs != [] {
      var m, n := |xs| - 1, |ys| - 1;
      var x, y := xs[m], ys[n];
      DropLast(hash, xs);
      DropLast(hash, ys);
      if TextAt(xs, m) != TextAt(ys, n) {
        clash := Some((m, n));
      } else {
        assert x in xs && y in ys;
        EncodeInjective(x.prevHash, x.event, y.prevHash, y.event);
        clash := SameHeadSameHistory(hash, xs[..m], ys[..n]);
        if clash.None? { AgreeOnOneMore(xs, ys); } else { ClashStays(hash, xs, ys, clash.value.0, clash.value.1); }
      }
    }
  }

  /** Any rewrite of a hashed field anywhere in a chain that still verifies changes the head hash
      (or exhibits a collision). */
  lemma RewriteChangesHead(hash: Hash, xs: seq<Row>, ys: seq<Row>, k: nat) returns (clash: Option<(nat, nat)>)
    requires DigestShaped(hash) && ValidChain(hash, xs) && ValidChain(hash, ys)
    requires forall r :: r in xs || r in ys ==> PlainFields(r.event)
    requires k < |xs| == |ys| && !SameEvent(xs[k].event, ys[k].event)
    ensures clash.None? ==> xs[|xs| - 1].eventHash != ys[|ys| - 1].eventHash
    ensures clash.Some? ==> Clash(hash, xs, ys, clash.value.0, clash.value.1)
  {
    clash := None;
    if xs[|xs| - 1].eventHash == ys[|ys| - 1].eventHash {
      clash := SameHeadSameHistory(hash, xs, ys);
    }
  }

  // ---- a rewrite of one field, whatever the fields contain ----

  lemma SameEventSameText(prev: string, d: Event, e: Event)
    requires SameEvent(d, e)
    ensures Encode(prev, d) == Encode(prev, e)
  {
  }

  lemma PrevShows(p: string, q: string, d: Event, e: Event)
    requires SameEvent(d, e) && Encode(p, d) == Encode(q, e)
    ensures p == q
  {
    CutRight(p, q, d.caseId + (":" + FromType(d)));
  }

  /** Chains on the same events have the same hashes. */
  lemma {:induction false} SameEventsSameHash(hash: Hash, xs: seq<Row>, ys: seq<Row>, n: nat)
    requires ValidChain(hash, xs) && ValidChain(hash, ys) && n <= |xs| == |ys|
    requires forall i :: 0 <= i < n ==> SameEvent(xs[i].event, ys[i].event)
    ensures HashBefore(xs, n) == HashBefore(ys, n)
  {
    if n > 0 {
      SameEventsSameHash(hash, xs, ys, n - 1);
      assert Linked(hash, xs, n - 1) && Linked(hash, ys, n - 1);
      SameEventSameText(HashBefore(xs, n - 1), xs[n - 1].event, ys[n - 1].event);
    }
  }

  /** From the rewritten row on, the hashes differ, or some row's texts clash. */
  lemma {:induction false} HashesDiffer(hash: Hash, xs: seq<Row>, ys: seq<Row>, k: nat, n: nat)
    returns (clash: Option<nat>)
    requires ValidChain(hash, xs) && ValidChain(hash, ys) && k < n <= |xs| == |ys|
    requires forall i :: 0 <= i < |xs| && i != k ==> SameEvent(xs[i].event, ys[i].event)
    requires DifferInOneField(xs[k].event, ys[k].event) && !SameEvent(xs[k].event, ys[k].event)
    ensures clash.None? ==> xs[n - 1].eventHash != ys[n - 1].eventHash
    ensures clash.Some? ==> Clash(hash, xs, ys, clash.value, clash.value)
    decreases n
  {
    clash := None;
    assert Linked(hash, xs, n - 1) && Linked(hash, ys, n - 1);
    if n == k + 1 {
      SameEventsSameHash(hash, xs, ys, k);
      OneFieldShows(HashBefore(xs, k), xs[k].event, ys[k].event);
      assert TextAt(xs, k) != TextAt(ys, k);
    } else {
      clash := HashesDiffer(hash, xs, ys, k, n - 1);
      if clash.None? && TextAt(xs, n - 1) == TextAt(ys, n - 1) {
        PrevShows(xs[n - 1].prevHash, ys[n - 1].prevHash, xs[n - 1].event, ys[n - 1].event);
      }
    }
    if clash.None? && xs[n - 1].eventHash == ys[n - 1].eventHash { clash := Some(n - 1); }
  }

  /** Rewriting one field of one event changes the head hash of the chain, or the texts of some row of
      the two chains clash; no field needs to be free of colons. */
  lemma OneFieldRewriteChangesHead(hash: Hash, xs: seq<Row>, ys: seq<Row>, k: nat) returns (clash: Option<nat>)
    requires ValidChain(hash, xs) && ValidChain(hash, ys) && k < |xs| == |ys|
    requires forall i :: 0 <= i < |xs| && i != k ==> SameEvent(xs[i].event, ys[i].event)
    requires DifferInOneField(xs[k].event, ys[k].event) && !SameEvent(xs[k].event, ys[k].event)
    ensures clash.None? ==> xs[|xs| - 1].eventHash != ys[|ys| - 1].eventHash
    ensures clash.Some? ==> Clash(hash, xs, ys, clash.value, clash.value)
  {
    clash := HashesDiffer(hash, xs, ys, k, |xs|);
  }
}
