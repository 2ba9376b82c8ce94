/** The per-address login limiter (_check_rate_limit, _record_login_failure, _record_login_success and
    login_local in backend/app/gateway/routers/auth.py). */
module LoginLimiter {
  import opened Wrappers

  const MAX_ATTEMPTS := 5
  const LOCKOUT := 300.0
  const MAX_TRACKED := 10000

  type Address = string

  datatype Record = Record(count: nat, lockUntil: real)

  type Table = map<Address, Record>

  datatype Outcome = Blocked | LoggedIn | Refused // Refused: the credentials were checked and wrong

  function Find(t: Table, ip: Address): Option<Record> { if ip in t then Some(t[ip]) else None }

  predicate Locked(r: Option<Record>, now: real) { r.Some? && r.value.count >= MAX_ATTEMPTS && now < r.value.lockUntil }

  /** A lockout that has run out is forgotten, and the count starts over. */
  function Lapse(r: Option<Record>): Option<Record> {
    if r.Some? && r.value.count >= MAX_ATTEMPTS then None else r
  }

  function OneMore(r: Option<Record>, now: real): Record {
    match r
    case None => Record(1, 0.0)
    case Some(p) => Record(p.count + 1, if p.count + 1 >= MAX_ATTEMPTS then now + LOCKOUT else 0.0)
  }

  /** One attempt, seen from its own address while nothing is evicted. */
  function Attempt(r: Option<Record>, now: real, correct: bool): (Outcome, Option<Record>) {
    if Locked(r, now) then (Blocked, r)
    else if correct then (LoggedIn, None)
    else (Refused, Some(OneMore(Lapse(r), now)))
  }

  function Expired(t: Table, now: real): set<Address> {
    set ip | ip in t && t[ip].count >= MAX_ATTEMPTS && now >= t[ip].lockUntil
  }

  /** What eviction may leave: nothing is touched below the cap; at the cap expired lockouts go, and if
      that is not enough the half with the earliest lock times. */
  ghost predicate Evicts(t: Table, u: Table, now: real) {
    if |t| < MAX_TRACKED then u == t
    else
      var live := t - Expired(t, now);
      if |live| < MAX_TRACKED then u == live
      else
        && u.Keys <= live.Keys && (forall ip :: ip in u ==> u[ip] == live[ip])
        && |u| == |live| - |live| / 2
        && (forall gone, kept :: gone in live && gone !in u && kept in u ==>
              live[gone].lockUntil <= live[kept].lockUntil)
  }

  class LoginAttempts {
    var attempts: Table

    constructor ()
      ensures attempts == map[]
    {
      attempts := map[];
    }

    method CheckRateLimit(ip: Address, now: real) returns (blocked: bool)
      modifies this
      ensures blocked <==> Locked(Find(old(attempts), ip), now)
      ensures blocked ==> attempts == old(attempts)
      ensures !blocked ==> Find(attempts, ip) == Lapse(Find(old(attempts), ip))
      ensures !blocked ==> attempts == (if Find(attempts, ip).None? then old(attempts) - {ip} else old(attempts))
    {
      if ip !in attempts {
        assert attempts - {ip} == attempts;
        return false;
      }
      var record := attempts[ip];
      if record.count >= MAX_ATTEMPTS {
        if now < record.lockUntil { return true; }
        attempts := attempts - {ip};
      }
      blocked := false;
    }

    /** Drop the earliest-locking entries one by one until half are gone. */
    method EvictHalf()
      modifies this
      ensures attempts.Keys <= old(attempts).Keys
      ensures forall ip :: ip in attempts ==> attempts[ip] == old(attempts)[ip]
      ensures |attempts| == |old(attempts)| - |old(attempts)| / 2
      ensures forall gone, kept :: gone in old(attempts) && gone !in attempts && kept in attempts
                ==> old(attempts)[gone].lockUntil <= old(attempts)[kept].lockUntil
    {
      var left := |attempts| / 2;
      while left > 0
        invariant 0 <= left <= |attempts|
        invariant attempts.Keys <= old(attempts).Keys
        invariant forall ip :: ip in attempts ==> attempts[ip] == old(attempts)[ip]
        invariant |attempts| == |old(attempts)| - |old(attempts)| / 2 + left
        invariant forall gone, kept :: gone in old(attempts) && gone !in attempts && kept in attempts
                    ==> old(attempts)[gone].lockUntil <= old(attempts)[kept].lockUntil
      {
        var first := Earliest(attempts);
        attempts := attempts - {first};
        left := left - 1;
      }
    }

    method Evict(now: real)
      modifies this
      ensures Evicts(old(attempts), attempts, now)
    {
      if |attempts| >= MAX_TRACKED {
        attempts := attempts - Expired(attempts, now);
        if |attempts| >= MAX_TRACKED { EvictHalf(); }
      }
    }

    method RecordFailure(ip: Address, now: real)
      modifies this
      ensures exists kept :: Evicts(old(attempts), kept, now) && attempts == kept[ip := OneMore(Find(kept, ip), now)]
    {
      Evict(now);
      var record := if ip in attempts then Some(attempts[ip]) else None;
      attempts := attempts[ip := OneMore(record, now)];
    }

    method RecordSuccess(ip: Address)
      modifies this
      ensures attempts == old(attempts) - {ip}
    {
      attempts := attempts - {ip};
    }

    /** Check, authenticate, record: the login handler. The table never outgrows its cap, and below the
        cap the attempt is exactly Attempt on the address's own record and touches no other. */
    method Login(ip: Address, now: real, correct: bool) returns (outcome: Outcome)
      requires |attempts| <= MAX_TRACKED
      modifies this
      ensures |attempts| <= MAX_TRACKED
      ensures outcome == Attempt(Find(old(attempts), ip), now, correct).0
      ensures outcome.Blocked? ==> attempts == old(attempts)
      ensures outcome.LoggedIn? ==> attempts == old(attempts) - {ip}
      ensures |old(attempts)| < MAX_TRACKED ==> attempts == After(old(attempts), ip, now, correct)
    {
      var blocked := CheckRateLimit(ip, now);
      if blocked {
        BlockedStays(old(attempts), ip, now, correct);
        return Blocked;
      }
      ghost var checked := attempts;
      SmallerTable(old(attempts), checked);
      if correct {
        RecordSuccess(ip);
        SmallerTable(checked, attempts);
        return LoggedIn;
      }
      RecordFailure(ip, now);
      RoomForOne(checked, attempts, ip, now);
      CountedAfter(old(attempts), checked, ip, now);
      outcome := Refused;
    }
  }

  lemma BlockedStays(t: Table, ip: Address, now: real, correct: bool)
    requires Locked(Find(t, ip), now)
    ensures After(t, ip, now, correct) == t
  {
  }

  /** Counting one more on what the check left is what the whole attempt does. */
  lemma CountedAfter(t: Table, checked: Table, ip: Address, now: real)
    requires !Locked(Find(t, ip), now)
    requires Find(checked, ip) == Lapse(Find(t, ip)) && checked == (if Find(checked, ip).None? then t - {ip} else t)
    ensures checked[ip := OneMore(Find(checked, ip), now)] == After(t, ip, now, false)
  {
  }

  /** The entry that sorts first by lock time. */
  method Earliest(t: Table) returns (first: Address)
    requires |t| > 0
    ensures first in t && forall ip :: ip in t ==> t[first].lockUntil <= t[ip].lockUntil
  {
    var some :| some in t;
    first := some;
    var left := t.Keys - {some};
    while left != {}
      invariant first in t && left <= t.Keys
      invariant forall ip :: ip in t && ip !in left ==> t[first].lockUntil <= t[ip].lockUntil
      decreases |left|
    {
      var ip :| ip in left;
      if t[ip].lockUntil < t[first].lockUntil { first := ip; }
      left := left - {ip};
    }
  }

  lemma SmallerTable(t: Table, u: Table)
    requires u.Keys <= t.Keys
    ensures |u| <= |t|
  {
    assert |u| == |u.Keys| && |t| == |t.Keys|;
    SubsetSize(u.Keys, t.Keys);
  }

  lemma SubsetSize(a: set<Address>, b: set<Address>)
    requires a <= b
    ensures |a| <= |b|
  {
    assert b == a + (b - a);
    assert |a + (b - a)| == |a| + |b - a|;
  }

  lemma RoomForOne(t: Table, u: Table, ip: Address, now: real)
    requires |t| <= MAX_TRACKED
    requires exists kept :: Evicts(t, kept, now) && u == kept[ip := OneMore(Find(kept, ip), now)]
    ensures |u| <= MAX_TRACKED
    ensures |t| < MAX_TRACKED ==> u == t[ip := OneMore(Find(t, ip), now)]
  {
    var kept :| Evicts(t, kept, now) && u == kept[ip := OneMore(Find(kept, ip), now)];
    SmallerTable(t, t - Expired(t, now));
    assert |u.Keys| <= |kept.Keys| + 1 by {
      assert u.Keys == kept.Keys + {ip};
    }
  }

  // ---- any interleaving of addresses below the cap ----

  function After(t: Table, ip: Address, now: real, correct: bool): Table {
    match Attempt(Find(t, ip), now, correct).1
    case None => t - {ip}
    case Some(r) => t[ip := r]
  }

  datatype Try = Try(ip: Address, now: real, correct: bool)

  function OutcomeOf(t: Table, a: Try): Outcome { Attempt(Find(t, a.ip), a.now, a.correct).0 }

  /** How many of an address's attempts had their credentials checked and refused. */
  function Guesses(t: Table, tries: seq<Try>, ip: Address): nat
    decreases |tries|
  {
    if tries == [] then 0
    else
      (if tries[0].ip == ip && OutcomeOf(t, tries[0]).Refused? then 1 else 0)
      + Guesses(After(t, tries[0].ip, tries[0].now, tries[0].correct), tries[1..], ip)
  }

  /** How many more guesses a record can allow inside one window. */
  function Allowance(r: Option<Record>, windowEnd: real): nat {
    match r
    case None => MAX_ATTEMPTS
    case Some(p) =>
      if p.count < MAX_ATTEMPTS then MAX_ATTEMPTS - p.count
      else if p.lockUntil >= windowEnd then 0 else MAX_ATTEMPTS
  }

  lemma {:induction false} GuessesWithinAllowance(t: Table, tries: seq<Try>, ip: Address, start: real)
    requires forall k :: 0 <= k < |tries| && tries[k].ip == ip ==>
             start <= tries[k].now < start + LOCKOUT && !tries[k].correct
    ensures Guesses(t, tries, ip) <= Allowance(Find(t, ip), start + LOCKOUT)
    decreases |tries|
  {
    if tries != [] {
      var a := tries[0];
      var u := After(t, a.ip, a.now, a.correct);
      GuessesWithinAllowance(u, tries[1..], ip, start);
      if a.ip != ip {
        assert Find(u, ip) == Find(t, ip);
      }
    }
  }

  /** Whatever the address did before and whatever other addresses do meanwhile, in any window shorter
      than the lockout it gets at most five guesses, as long as it does not log in. */
  lemma FiveGuessesPerWindow(before: Table, tries: seq<Try>, ip: Address, start: real)
    requires forall k :: 0 <= k < |tries| && tries[k].ip == ip ==>
             start <= tries[k].now < start + LOCKOUT && !tries[k].correct
    ensures Guesses(before, tries, ip) <= MAX_ATTEMPTS
  {
    GuessesWithinAllowance(before, tries, ip, start);
  }

  // ---- the bound is met ----

  function AfterAll(t: Table, tries: seq<Try>): Table
    decreases |tries|
  {
    if tries == [] then t else AfterAll(After(t, tries[0].ip, tries[0].now, tries[0].correct), tries[1..])
  }

  /** How many of the attempts are the address's own, and when the last of them was made. */
  function Own(tries: seq<Try>, ip: Address): nat {
    if tries == [] then 0 else (if tries[0].ip == ip then 1 else 0) + Own(tries[1..], ip)
  }

  function LastOwn(tries: seq<Try>, ip: Address): real
    requires Own(tries, ip) > 0
  {
    if Own(tries[1..], ip) > 0 then LastOwn(tries[1..], ip) else tries[0].now
  }

  lemma OthersLeaveIt(t: Table, a: Try, ip: Address)
    requires a.ip != ip
    ensures Find(After(t, a.ip, a.now, a.correct), ip) == Find(t, ip)
  {
  }

  lemma {:induction false} OnlyOthers(t: Table, tries: seq<Try>, ip: Address)
    requires Own(tries, ip) == 0
    ensures Find(AfterAll(t, tries), ip) == Find(t, ip) && Guesses(t, tries, ip) == 0
    decreases |tries|
  {
    if tries != [] {
      OthersLeaveIt(t, tries[0], ip);
      OnlyOthers(After(t, tries[0].ip, tries[0].now, tries[0].correct), tries[1..], ip);
    }
  }

  function Counted(n: nat): Option<Record> { if n == 0 then None else Some(Record(n, 0.0)) }

  /** Failures below the limit add up one by one, whoever else tries meanwhile; the fifth sets the lock. */
  lemma {:induction false} FailuresAddUp(t: Table, tries: seq<Try>, ip: Address, n: nat)
    requires Find(t, ip) == Counted(n) && n < MAX_ATTEMPTS && n + Own(tries, ip) <= MAX_ATTEMPTS
    requires forall k :: 0 <= k < |tries| && tries[k].ip == ip ==> !tries[k].correct
    ensures Guesses(t, tries, ip) == Own(tries, ip)
    ensures Find(AfterAll(t, tries), ip)
         == if n + Own(tries, ip) < MAX_ATTEMPTS then Counted(n + Own(tries, ip))
            else Some(Record(MAX_ATTEMPTS, LastOwn(tries, ip) + LOCKOUT))
    decreases |tries|
  {
    if tries != [] {
      var a := tries[0];
      var u := After(t, a.ip, a.now, a.correct);
      if a.ip != ip {
        OthersLeaveIt(t, a, ip);
        FailuresAddUp(u, tries[1..], ip, n);
      } else if n + 1 < MAX_ATTEMPTS {
        FailuresAddUp(u, tries[1..], ip, n + 1);
      } else {
        OnlyOthers(u, tries[1..], ip);
      }
    }
  }

  /** Five failures of an address without a record are all evaluated, whoever else tries meanwhile, and then
      nothing more is evaluated, right or wrong, until 300 seconds after the fifth. */
  lemma SixthIsBlocked(before: Table, tries: seq<Try>, ip: Address, later: real, correct: bool)
    requires Find(before, ip).None? && Own(tries, ip) == MAX_ATTEMPTS
    requires forall k :: 0 <= k < |tries| && tries[k].ip == ip ==> !tries[k].correct
    ensures Guesses(before, tries, ip) == MAX_ATTEMPTS
    ensures OutcomeOf(AfterAll(before, tries), Try(ip, later, correct)).Blocked?
            <==> later < LastOwn(tries, ip) + 300.0
  {
    FailuresAddUp(before, tries, ip, 0);
  }

  // ---- after the lockout, and what eviction spares ----

  predicate LockedOnce(r: Option<Record>, until: real) { r.Some? && r.value.count >= 5 && r.value.lockUntil == until }

  /** Once a lockout has run out the count starts over: five more failures are evaluated, whoever else tries
      meanwhile, and then the address is locked again until 300 seconds after the fifth. */
  lemma {:induction false} LockoutStartsOver(t: Table, tries: seq<Try>, ip: Address, until: real, later: real,
                                             correct: bool)
    requires LockedOnce(Find(t, ip), until) && Own(tries, ip) == 5
    requires forall k :: 0 <= k < |tries| && tries[k].ip == ip ==> !tries[k].correct && tries[k].now >= until
    ensures Guesses(t, tries, ip) == 5
    ensures OutcomeOf(AfterAll(t, tries), Try(ip, later, correct)).Blocked? <==> later < LastOwn(tries, ip) + 300.0
    decreases |tries|
  {
    var a := tries[0];
    var u := After(t, a.ip, a.now, a.correct);
    if a.ip != ip {
      OthersLeaveIt(t, a, ip);
      LockoutStartsOver(u, tries[1..], ip, until, later, correct);
    } else {
      FailuresAddUp(u, tries[1..], ip, 1);
    }
  }

  /** During a lockout nothing is evaluated and nothing changes; after it, and without one, every attempt is
      evaluated, and a right password clears the record. */
  lemma AttemptExactly(r: Option<Record>, now: real, correct: bool)
    ensures Attempt(r, now, correct).0 == (if r.Some? && r.value.count >= 5 && now < r.value.lockUntil then Blocked
                                           else if correct then LoggedIn else Refused)
    ensures Attempt(r, now, correct).0.Blocked? ==> Attempt(r, now, correct).1 == r
    ensures Attempt(r, now, correct).0.LoggedIn? ==> Attempt(r, now, correct).1 == None
    ensures Attempt(r, now, correct).0.Refused? ==>
              var n := if r.Some? && r.value.count < 5 then r.value.count + 1 else 1;
              Attempt(r, now, correct).1 == Some(Record(n, if n >= 5 then now + 300.0 else 0.0))
  {
  }

  /** The entries that are not lockouts that have run out. */
  function Live(t: Table, now: real): Table {
    map k | k in t && !(t[k].count >= 5 && now >= t[k].lockUntil) :: t[k]
  }

  lemma LiveIsUnexpired(t: Table, now: real)
    ensures Live(t, now) == t - Expired(t, now)
  {
  }

  /** Eviction touches nothing below ten thousand entries; at that size it drops every lockout that has run
      out, and goes on to others only if ten thousand remain, and then to half of them. */
  lemma EvictionExactly(t: Table, u: Table, now: real)
    requires Evicts(t, u, now)
    ensures |t| < 10_000 ==> u == t
    ensures |t| >= 10_000 && |Live(t, now)| < 10_000 ==> u == Live(t, now)
    ensures |t| >= 10_000 && |Live(t, now)| >= 10_000 ==>
              && |u| == |Live(t, now)| - |Live(t, now)| / 2
              && (forall ip :: ip in u ==> ip in Live(t, now) && u[ip] == t[ip])
  {
    LiveIsUnexpired(t, now);
  }
}
