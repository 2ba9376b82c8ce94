/** Idempotency-Key replay: run once, then replay for one TTL
    (backend/app/after_sales/idempotency.py and _idem_replay_or_run in routers/after_sales.py). */
module Idempotency {
  import opened Wrappers

  /** Scoped endpoint (actor, role and path) and key. */
  datatype Scope = Scope(endpoint: string, key: string)

  datatype Response = Response(body: string, statusCode: nat)

  datatype Record = Record(fingerprint: string, response: Response, createdAt: int, expiresAt: int)

  type Fingerprint = string -> string

  datatype Lookup = Miss | Hit(response: Response) | Conflict

  datatype Outcome =
    | Replayed(response: Response)
    | Refused // the key was used for another body
    | Ran(response: Response)
    | Failed // the handler raised

  function Find(records: map<Scope, Record>, fp: Fingerprint, scope: Scope, body: string, now: int): Lookup {
    if scope !in records || now >= records[scope].expiresAt then Miss
    else if records[scope].fingerprint != fp(body) then Conflict
    else Hit(records[scope].response)
  }

  /** An expired record is forgotten when it is looked up. */
  function Forget(records: map<Scope, Record>, scope: Scope, now: int): map<Scope, Record> {
    if scope in records && now >= records[scope].expiresAt then records - {scope} else records
  }

  /** The first response stored under a scope stays; later ones are dropped. */
  function Keep(records: map<Scope, Record>, fp: Fingerprint, ttl: int, scope: Scope, body: string, r: Response,
                now: int): map<Scope, Record> {
    if scope in records then records else records[scope := Record(fp(body), r, now, now + ttl)]
  }

  predicate Keyed(scope: Scope) { scope.key != "" }

  function Answer(run: Option<Response>): Outcome { if run.Some? then Ran(run.value) else Failed }

  /** The first response stored under a scope is never replaced, and storing one touches no other scope. */
  lemma FirstStoredStays(records: map<Scope, Record>, fp: Fingerprint, ttl: int, scope: Scope, body: string,
                         r: Response,
                         now: int, other: Scope)
    ensures var kept := Keep(records, fp, ttl, scope, body, r, now);
            && scope in kept
            && (scope in records ==> kept == records)
            && (scope !in records ==> kept[scope] == Record(fp(body), r, now, now + ttl))
            && (other != scope ==> (other in kept <==> other in records))
            && (other != scope && other in records ==> kept[other] == records[other])
  {
  }

  /** One request from lookup to answer: the records it leaves and what it is told. */
  function Request(records: map<Scope, Record>, fp: Fingerprint, ttl: int, scope: Scope, body: string,
                   run: Option<Response>, started: int, finished: int): (map<Scope, Record>, Outcome)
  {
    if !Keyed(scope) then (records, Answer(run))
    else
      match Find(records, fp, scope, body, started)
      case Hit(r) => (records, Replayed(r))
      case Conflict => (records, Refused)
      case Miss =>
        var kept := Forget(records, scope, started);
        match run
        case None => (kept, Failed)
        case Some(r) => (Keep(kept, fp, ttl, scope, body, r, finished), Ran(r))
  }

  class InMemoryIdempotencyStore {
    var records: map<Scope, Record>
    const ttl: int

    constructor (ttl: int)
      ensures records == map[] && this.ttl == ttl
    {
      this.ttl := ttl;
      records := map[];
    }

    method LookUp(fp: Fingerprint, scope: Scope, body: string, now: int) returns (found: Lookup)
      modifies this
      ensures found == Find(old(records), fp, scope, body, now)
      ensures records == Forget(old(records), scope, now)
    {
      if scope !in records { return Miss; }
      var record := records[scope];
      if now >= record.expiresAt {
        records := records - {scope};
        return Miss;
      }
      if record.fingerprint != fp(body) { return Conflict; }
      found := Hit(record.response);
    }

    method Store(fp: Fingerprint, scope: Scope, body: string, response: Response, now: int)
      modifies this
      ensures records == Keep(old(records), fp, ttl, scope, body, response, now)
    {
      if scope in records { return; }
      records := records[scope := Record(fp(body), response, now, now + ttl)];
    }

    /** One request holding the scope's lock; run is what its handler would answer, None if it raises. */
    method ReplayOrRun(fp: Fingerprint, scope: Scope, body: string, run: Option<Response>, started: int, finished: int)
      returns (outcome: Outcome, executed: bool)
      requires started <= finished
      modifies this
      ensures (records, outcome) == Request(old(records), fp, ttl, scope, body, run, started, finished)
      // without a key nothing is looked up or remembered
      ensures scope.key == "" ==> executed && records == old(records)
      ensures scope.key != "" ==> (executed <==> Find(old(records), fp, scope, body, started).Miss?)
      ensures executed ==> outcome == if run.Some? then Ran(run.value) else Failed
      ensures !executed ==> outcome == (match Find(old(records), fp, scope, body, started)
                                        case Hit(r) => Replayed(r)
                                        case _ => Refused)
      ensures scope.key != "" && executed && run.Some?
              ==> scope in records && records[scope] == Record(fp(body), run.value, finished, finished + ttl)
      ensures scope.key != "" && (!executed || run.None?) ==> records == Forget(old(records), scope, started)
      ensures forall other :: other != scope ==> (other in records <==> other in old(records))
      ensures forall other :: other != scope && other in records ==> records[other] == old(records)[other]
    {
      if scope.key == "" {
        return if run.Some? then Ran(run.value) else Failed, true;
      }
      var found := LookUp(fp, scope, body, started);
      match found
      case Conflict => return Refused, false;
      case Hit(r) => return Replayed(r), false;
      case Miss =>
        if run.None? { return Failed, true; }
        Store(fp, scope, body, run.value, finished);
        return Ran(run.value), true;
    }
  }

  // ---- many requests, one lock per scope, one clock ----

  datatype Running = Running(body: string, started: int)

  /** A finished request: when it got its lock, when it answered, and how. */
  datatype Entry = Entry(scope: Scope, body: string, started: int, ended: int, outcome: Outcome)

  datatype Server = Server(records: map<Scope, Record>, running: map<Scope, Running>, clock: int, log: seq<Entry>)

  /** Arrive takes the lock if it is free (a request that must wait arrives again later). A request without
      a key takes no lock and leaves no record; it is logged when it answers, having lasted some time. */
  datatype Move =
    | Arrive(wait: nat, scope: Scope, body: string)
    | Finish(wait: nat, scope: Scope, run: Option<Response>)
    | Keyless(wait: nat, endpoint: string, body: string, lasted: nat, run: Option<Response>)

  function Play(fp: Fingerprint, ttl: int, s: Server, m: Move): Server {
    Serve(fp, ttl, s.(clock := s.clock + m.wait), m)
  }

  function Serve(fp: Fingerprint, ttl: int, s: Server, m: Move): Server {
    match m
    case Arrive(_, scope, body) =>
      if !Keyed(scope) || scope in s.running then s
      else
        var kept := Forget(s.records, scope, s.clock);
        (match Find(s.records, fp, scope, body, s.clock)
         case Miss => s.(records := kept, running := s.running[scope := Running(body, s.clock)])
         case Hit(r) => s.(log := s.log + [Entry(scope, body, s.clock, s.clock, Replayed(r))])
         case Conflict => s.(log := s.log + [Entry(scope, body, s.clock, s.clock, Refused)]))
    case Finish(_, scope, run) =>
      if scope !in s.running then s
      else
        var r := s.running[scope];
        (match run
         case None =>
           s.(running := s.running - {scope},
              log := s.log + [Entry(scope, r.body, r.started, s.clock, Failed)])
         case Some(response) =>
           s.(records := Keep(s.records, fp, ttl, scope, r.body, response, s.clock), running := s.running - {scope},
              log := s.log + [Entry(scope, r.body, r.started, s.clock, Ran(response))]))
    case Keyless(_, endpoint, body, lasted, run) =>
      s.(log := s.log + [Entry(Scope(endpoint, ""), body, s.clock - lasted, s.clock, Answer(run))])
  }

  function PlayAll(fp: Fingerprint, ttl: int, s: Server, moves: seq<Move>): Server
    decreases |moves|
  {
    if moves == [] then s else PlayAll(fp, ttl, Play(fp, ttl, s, moves[0]), moves[1..])
  }

  /** Entry i is a success whose answer is still fresh when entry j takes the lock. */
  predicate Fresh(ttl: int, log: seq<Entry>, i: nat, j: nat)
    requires i < |log| && j < |log|
  {
    && i < j && Keyed(log[i].scope) && log[i].scope == log[j].scope && log[i].outcome.Ran?
    && log[j].started < log[i].ended + ttl
  }

  /** What the contract promises of every request, given the history before it. */
  ghost predicate Honoured(fp: Fingerprint, ttl: int, log: seq<Entry>, j: nat)
    requires j < |log|
  {
    match log[j].outcome
    case Ran(_) => forall i :: 0 <= i < j ==> !Fresh(ttl, log, i, j)
    case Failed => forall i :: 0 <= i < j ==> !Fresh(ttl, log, i, j)
    case Replayed(r) =>
      && (exists i :: 0 <= i < j && Fresh(ttl, log, i, j))
      && (forall i :: 0 <= i < j && Fresh(ttl, log, i, j) ==>
            fp(log[i].body) == fp(log[j].body) && log[i].outcome == Ran(r))
    case Refused =>
      && (exists i :: 0 <= i < j && Fresh(ttl, log, i, j))
      && (forall i :: 0 <= i < j && Fresh(ttl, log, i, j) ==> fp(log[i].body) != fp(log[j].body))
  }

  /** A record is the memory of one success. */
  predicate Remembers(fp: Fingerprint, ttl: int, s: Server, scope: Scope, i: nat)
    requires scope in s.records
  {
    && i < |s.log| && s.log[i].scope == scope
    && s.log[i].outcome == Ran(s.records[scope].response)
    && s.records[scope] == Record(fp(s.log[i].body), s.records[scope].response, s.log[i].ended, s.log[i].ended + ttl)
  }

  ghost predicate RecordsOk(fp: Fingerprint, ttl: int, s: Server) {
    forall scope :: scope in s.records ==> exists i :: Remembers(fp, ttl, s, scope, i)
  }

  /** A success without a record has outlived its TTL. */
  ghost predicate SuccessesOk(fp: Fingerprint, ttl: int, s: Server) {
    forall i :: 0 <= i < |s.log| && Keyed(s.log[i].scope) && s.log[i].outcome.Ran? ==>
      || s.log[i].ended + ttl <= s.clock
      || (s.log[i].scope in s.records && Remembers(fp, ttl, s, s.log[i].scope, i))
  }

  /** While a handler runs, its scope has no record, and no success was fresh when it started. */
  ghost predicate RunningOk(ttl: int, s: Server) {
    && (forall scope :: scope in s.running ==>
          Keyed(scope) && scope !in s.records && s.running[scope].started <= s.clock)
    && (forall scope, i :: && scope in s.running
                           && 0 <= i < |s.log| && s.log[i].scope == scope && s.log[i].outcome.Ran? ==>
          s.log[i].ended + ttl <= s.running[scope].started)
  }

  /** Requests of one scope are logged one after the other: each got its lock after the earlier had answered. */
  ghost predicate InOrder(s: Server) {
    && (forall i :: 0 <= i < |s.log| ==> s.log[i].started <= s.log[i].ended <= s.clock)
    && (forall scope, i :: scope in s.running && 0 <= i < |s.log| && s.log[i].scope == scope ==>
          s.log[i].ended <= s.running[scope].started)
    && (forall scope :: scope in s.running ==> Keyed(scope) && s.running[scope].started <= s.clock)
    && (forall i, j :: 0 <= i < j < |s.log| && Keyed(s.log[i].scope) && s.log[i].scope == s.log[j].scope ==>
          s.log[i].ended <= s.log[j].started)
  }

  lemma LoggedInOrder(s: Server, e: Entry, t: Server)
    requires InOrder(s) && t.clock == s.clock && t.log == s.log + [e] && e.started <= e.ended == s.clock
    requires Keyed(e.scope) ==> forall i :: 0 <= i < |s.log| && s.log[i].scope == e.scope ==>
             s.log[i].ended <= e.started
    requires t.running == s.running - {e.scope}
    ensures InOrder(t)
  {
  }

  lemma PlayInOrder(fp: Fingerprint, ttl: int, before: Server, m: Move)
    requires InOrder(before)
    ensures InOrder(Play(fp, ttl, before, m))
  {
    var s, t := before.(clock := before.clock + m.wait), Play(fp, ttl, before, m);
    assert InOrder(s);
    if t.log != s.log { LoggedInOrder(s, t.log[|s.log|], t); }
  }

  lemma {:induction false} PlayAllInOrder(fp: Fingerprint, ttl: int, s: Server, moves: seq<Move>)
    requires InOrder(s)
    ensures InOrder(PlayAll(fp, ttl, s, moves))
    decreases |moves|
  {
    if moves != [] {
      PlayInOrder(fp, ttl, s, moves[0]);
      PlayAllInOrder(fp, ttl, Play(fp, ttl, s, moves[0]), moves[1..]);
    }
  }

  ghost predicate HistoryOk(fp: Fingerprint, ttl: int, log: seq<Entry>) {
    forall j :: 0 <= j < |log| ==> Honoured(fp, ttl, log, j)
  }

  ghost predicate ServerOk(fp: Fingerprint, ttl: int, s: Server) {
    RecordsOk(fp, ttl, s) && SuccessesOk(fp, ttl, s) && RunningOk(ttl, s) && HistoryOk(fp, ttl, s.log)
  }

  lemma HonouredStays(fp: Fingerprint, ttl: int, log: seq<Entry>, e: Entry, j: nat)
    requires j < |log| && Honoured(fp, ttl, log, j)
    ensures Honoured(fp, ttl, log + [e], j)
  {
    var longer := log + [e];
    assert forall i :: 0 <= i < |log| ==> longer[i] == log[i];
    assert forall i :: 0 <= i < j ==> Fresh(ttl, longer, i, j) == Fresh(ttl, log, i, j);
  }

  lemma TimePasses(fp: Fingerprint, ttl: int, s: Server, wait: nat)
    requires ServerOk(fp, ttl, s)
    ensures ServerOk(fp, ttl, s.(clock := s.clock + wait))
  {
    var t := s.(clock := s.clock + wait);
    forall scope | scope in t.records ensures exists i :: Remembers(fp, ttl, t, scope, i) {
      var i :| Remembers(fp, ttl, s, scope, i);
      assert Remembers(fp, ttl, t, scope, i);
    }
    forall i | 0 <= i < |t.log| && Keyed(t.log[i].scope) && t.log[i].outcome.Ran?
      ensures || t.log[i].ended + ttl <= t.clock
              || (t.log[i].scope in t.records && Remembers(fp, ttl, t, t.log[i].scope, i))
    {
      assert s.log[i].ended + ttl <= s.clock || Remembers(fp, ttl, s, s.log[i].scope, i);
    }
  }

  /** Logging an answered request that touched no record. */
  lemma AnswerOk(fp: Fingerprint, ttl: int, s: Server, e: Entry)
    requires ServerOk(fp, ttl, s) && (Keyed(e.scope) ==> !e.outcome.Ran?) && Honoured(fp, ttl, s.log + [e], |s.log|)
    ensures ServerOk(fp, ttl, s.(log := s.log + [e]))
  {
    var t := s.(log := s.log + [e]);
    forall scope | scope in t.records ensures exists i :: Remembers(fp, ttl, t, scope, i) {
      var i :| Remembers(fp, ttl, s, scope, i);
      assert Remembers(fp, ttl, t, scope, i);
    }
    forall i | 0 <= i < |t.log| && Keyed(t.log[i].scope) && t.log[i].outcome.Ran?
      ensures || t.log[i].ended + ttl <= t.clock
              || (t.log[i].scope in t.records && Remembers(fp, ttl, t, t.log[i].scope, i))
    {
      assert i < |s.log| && t.log[i] == s.log[i];
    }
    forall j | 0 <= j < |t.log| ensures Honoured(fp, ttl, t.log, j) {
      if j < |s.log| { HonouredStays(fp, ttl, s.log, e, j); }
    }
  }

  /** Forgetting an expired record loses no fresh success. */
  lemma ForgetOk(fp: Fingerprint, ttl: int, s: Server, scope: Scope, t: Server)
    requires RecordsOk(fp, ttl, s) && SuccessesOk(fp, ttl, s)
    requires scope in s.records ==> s.clock >= s.records[scope].expiresAt
    requires t.records == s.records - {scope} && t.clock == s.clock && t.log == s.log
    ensures RecordsOk(fp, ttl, t) && SuccessesOk(fp, ttl, t)
  {
    forall other | other in t.records ensures exists i :: Remembers(fp, ttl, t, other, i) {
      var i :| Remembers(fp, ttl, s, other, i);
      assert Remembers(fp, ttl, t, other, i);
    }
    forall i | 0 <= i < |t.log| && Keyed(t.log[i].scope) && t.log[i].outcome.Ran?
      ensures || t.log[i].ended + ttl <= t.clock
              || (t.log[i].scope in t.records && Remembers(fp, ttl, t, t.log[i].scope, i))
    {
      assert s.log[i].ended + ttl <= s.clock || Remembers(fp, ttl, s, s.log[i].scope, i);
    }
  }

  lemma StartOk(fp: Fingerprint, ttl: int, s: Server, scope: Scope, body: string)
    requires ServerOk(fp, ttl, s) && Keyed(scope) && scope !in s.running
             && Find(s.records, fp, scope, body, s.clock).Miss?
    ensures ServerOk(fp, ttl, s.(records := Forget(s.records, scope, s.clock),
            running := s.running[scope := Running(body, s.clock)]))
  {
    var t := s.(records := Forget(s.records, scope, s.clock), running := s.running[scope := Running(body, s.clock)]);
    assert t.records == s.records - {scope};
    ForgetOk(fp, ttl, s, scope, t);
    assert RunningOk(ttl, t) by {
      assert scope !in t.records;
      assert forall i :: 0 <= i < |t.log| && t.log[i].scope == scope && t.log[i].outcome.Ran? ==>
          t.log[i].ended + ttl <= t.clock;
    }
  }

  lemma HitOk(fp: Fingerprint, ttl: int, s: Server, e: Entry)
    requires ServerOk(fp, ttl, s) && Keyed(e.scope) && e.started == s.clock
    requires match Find(s.records, fp, e.scope, e.body, s.clock)
             case Miss => false
             case Hit(r) => e.outcome == Replayed(r)
             case Conflict => e.outcome == Refused
    ensures ServerOk(fp, ttl, s.(log := s.log + [e]))
  {
    var i :| Remembers(fp, ttl, s, e.scope, i);
    var longer := s.log + [e];
    assert Fresh(ttl, longer, i, |s.log|);
    forall k | 0 <= k < |s.log| && Fresh(ttl, longer, k, |s.log|) ensures Remembers(fp, ttl, s, e.scope, k) {
      assert longer[k] == s.log[k];
    }
    AnswerOk(fp, ttl, s, e);
  }

  lemma ArriveOk(fp: Fingerprint, ttl: int, s: Server, wait: nat, scope: Scope, body: string)
    requires ServerOk(fp, ttl, s)
    ensures ServerOk(fp, ttl, Serve(fp, ttl, s, Arrive(wait, scope, body)))
  {
    if Keyed(scope) && scope !in s.running {
      match Find(s.records, fp, scope, body, s.clock)
      case Miss => StartOk(fp, ttl, s, scope, body);
      case Hit(r) => HitOk(fp, ttl, s, Entry(scope, body, s.clock, s.clock, Replayed(r)));
      case Conflict => HitOk(fp, ttl, s, Entry(scope, body, s.clock, s.clock, Refused));
    }
  }

  lemma FinishOk(fp: Fingerprint, ttl: int, s: Server, wait: nat, scope: Scope, run: Option<Response>)
    requires ServerOk(fp, ttl, s) && scope in s.running
    ensures ServerOk(fp, ttl, Serve(fp, ttl, s, Finish(wait, scope, run)))
  {
    var t := Serve(fp, ttl, s, Finish(wait, scope, run));
    var e := t.log[|s.log|];
    assert t.log == s.log + [e];
    FinishRecords(fp, ttl, s, scope, e, t);
    assert Honoured(fp, ttl, t.log, |s.log|);
    forall j | 0 <= j < |t.log| ensures Honoured(fp, ttl, t.log, j) {
      if j < |s.log| { HonouredStays(fp, ttl, s.log, e, j); }
    }
  }

  /** A finished run leaves a record of itself if it succeeded, and the other records as they were. */
  lemma FinishRecords(fp: Fingerprint, ttl: int, s: Server, scope: Scope, e: Entry, t: Server)
    requires RecordsOk(fp, ttl, s) && SuccessesOk(fp, ttl, s) && scope !in s.records
    requires t.log == s.log + [e] && t.clock == s.clock && e.scope == scope && e.ended == s.clock
             && !e.outcome.Replayed?
    requires if e.outcome.Ran?
             then t.records == s.records[scope := Record(fp(e.body), e.outcome.response, e.ended, e.ended + ttl)]
             else t.records == s.records
    ensures RecordsOk(fp, ttl, t) && SuccessesOk(fp, ttl, t)
  {
    forall other | other in t.records ensures exists i :: Remembers(fp, ttl, t, other, i) {
      if other == scope {
        assert Remembers(fp, ttl, t, other, |s.log|);
      } else {
        var i :| Remembers(fp, ttl, s, other, i);
        assert Remembers(fp, ttl, t, other, i);
      }
    }
    forall i | 0 <= i < |t.log| && Keyed(t.log[i].scope) && t.log[i].outcome.Ran?
      ensures || t.log[i].ended + ttl <= t.clock
              || (t.log[i].scope in t.records && Remembers(fp, ttl, t, t.log[i].scope, i))
    {
      if i < |s.log| {
        assert s.log[i].ended + ttl <= s.clock || Remembers(fp, ttl, s, s.log[i].scope, i);
      } else {
        assert Remembers(fp, ttl, t, scope, i);
      }
    }
  }

  lemma PlayOk(fp: Fingerprint, ttl: int, s: Server, m: Move)
    requires ServerOk(fp, ttl, s)
    ensures ServerOk(fp, ttl, Play(fp, ttl, s, m))
  {
    ServeOk(fp, ttl, s, s.(clock := s.clock + m.wait), m, Play(fp, ttl, s, m));
  }

  lemma ServeOk(fp: Fingerprint, ttl: int, before: Server, s: Server, m: Move, t: Server)
    requires ServerOk(fp, ttl, before) && s == before.(clock := before.clock + m.wait) && t == Serve(fp, ttl, s, m)
    ensures ServerOk(fp, ttl, t)
  {
    TimePasses(fp, ttl, before, m.wait);
    match m
    case Arrive(wait, scope, body) => ArriveOk(fp, ttl, s, wait, scope, body);
    case Finish(wait, scope, run) => if scope in s.running { FinishOk(fp, ttl, s, wait, scope, run); }
    case Keyless(_, endpoint, body, lasted, run) =>
      AnswerOk(fp, ttl, s, Entry(Scope(endpoint, ""), body, s.clock - lasted, s.clock, Answer(run)));
  }

  lemma {:induction false} PlayAllOk(fp: Fingerprint, ttl: int, s: Server, moves: seq<Move>)
    requires ServerOk(fp, ttl, s)
    ensures ServerOk(fp, ttl, PlayAll(fp, ttl, s, moves))
    decreases |moves|
  {
    if moves != [] {
      PlayOk(fp, ttl, s, moves[0]);
      PlayAllOk(fp, ttl, Play(fp, ttl, s, moves[0]), moves[1..]);
    }
  }

  /** Arriving and finishing with nothing in between on the clock but the run itself is one request. */
  lemma ArriveThenFinish(fp: Fingerprint, ttl: int, s: Server, scope: Scope, body: string, run: Option<Response>,
                         wait: nat)
    requires Keyed(scope) && scope !in s.running
    ensures var t := Play(fp, ttl, Serve(fp, ttl, s, Arrive(0, scope, body)), Finish(wait, scope, run));
            && |t.log| == |s.log| + 1 && t.log[..|s.log|] == s.log && t.running == s.running
            && t.log[|s.log|].scope == scope && t.log[|s.log|].started == s.clock
            && (t.records, t.log[|s.log|].outcome)
               == Request(s.records, fp, ttl, scope, body, run, s.clock, s.clock + wait)
  {
    var mid := Serve(fp, ttl, s, Arrive(0, scope, body));
    if Find(s.records, fp, scope, body, s.clock).Miss? {
      assert mid.running - {scope} == s.running;
    }
  }

  /** Run once, then replay. However requests on all scopes interleave: requests of one key follow one
      another; its successes are at least a TTL apart; every request that gets the lock while a success is
      fresh is answered with that success's response if its body matches and refused if it does not, and
      runs nothing either way; every other request runs, and so does every request without a key. */
  lemma RunOnceThenReplay(fp: Fingerprint, ttl: int, clock: int, moves: seq<Move>)
    ensures var log := PlayAll(fp, ttl, Server(map[], map[], clock, []), moves).log;
            && (forall i, j :: 0 <= i < j < |log| && Keyed(log[i].scope) && log[i].scope == log[j].scope ==>
                  log[i].ended <= log[j].started <= log[j].ended)
            && (forall i, j :: 0 <= i < j < |log| && Keyed(log[i].scope) && log[i].scope == log[j].scope
                               && log[i].outcome.Ran? && log[j].outcome.Ran? ==>
                  log[j].started >= log[i].ended + ttl)
            && (forall i, j :: 0 <= i < j < |log| && Fresh(ttl, log, i, j) ==>
                  log[j].outcome == if fp(log[i].body) == fp(log[j].body)
                                    then Replayed(log[i].outcome.response) else Refused)
            && (forall j :: 0 <= j < |log| && (forall i :: 0 <= i < j ==> !Fresh(ttl, log, i, j)) ==>
                  log[j].outcome.Ran? || log[j].outcome.Failed?)
            && (forall j :: 0 <= j < |log| && !Keyed(log[j].scope) ==> log[j].outcome.Ran? || log[j].outcome.Failed?)
  {
    var start := Server(map[], map[], clock, []);
    PlayAllOk(fp, ttl, start, moves);
    PlayAllInOrder(fp, ttl, start, moves);
    var log := PlayAll(fp, ttl, start, moves).log;
    forall i, j | 0 <= i < j < |log| && Keyed(log[i].scope) && log[i].scope == log[j].scope
                  && log[i].outcome.Ran? && log[j].outcome.Ran?
      ensures log[j].started >= log[i].ended + ttl
    {
      assert Honoured(fp, ttl, log, j);
      assert !Fresh(ttl, log, i, j);
    }
    forall i, j | 0 <= i < j < |log| && Fresh(ttl, log, i, j)
      ensures log[j].outcome == if fp(log[i].body) == fp(log[j].body)
                                  then Replayed(log[i].outcome.response) else Refused
    {
      assert Honoured(fp, ttl, log, j);
    }
    forall j | 0 <= j < |log| && !Keyed(log[j].scope) ensures log[j].outcome.Ran? || log[j].outcome.Failed? {
      assert Honoured(fp, ttl, log, j);
      assert forall i :: 0 <= i < j ==> !Fresh(ttl, log, i, j);
    }
    forall j | 0 <= j < |log| && (forall i :: 0 <= i < j ==> !Fresh(ttl, log, i, j))
      ensures log[j].outcome.Ran? || log[j].outcome.Failed?
    {
      assert Honoured(fp, ttl, log, j);
    }
  }
}
