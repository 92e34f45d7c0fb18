/** Telegram alerts: one message per cache key and time to live. */
module Alerts {
  import opened Wrappers
  import opened Users

  /** A message that went to the sender, whether or not the sender delivered it. */
  datatype Attempt = Attempt(key: string, at: int)

  datatype Request = Request(key: string, now: int, ttl: int)

  datatype Cache = Cache(deliveredUntil: map<string, int>, attempts: seq<Attempt>)

  const EMPTY := Cache(map[], [])

  predicate Suppressed(c: Cache, r: Request) {
    r.key in c.deliveredUntil && r.now < c.deliveredUntil[r.key]
  }

  function Serve(c: Cache, r: Request): Cache {
    if Suppressed(c, r) then c
    else Cache(c.deliveredUntil[r.key := r.now + r.ttl], c.attempts + [Attempt(r.key, r.now)])
  }

  function ServeAll(c: Cache, rs: seq<Request>): Cache {
    if rs == [] then c else Serve(ServeAll(c, rs[..|rs| - 1]), rs[|rs| - 1])
  }

  // ---------------------------------------------------------------- the service

  predicate WantsAlerts(user: Option<User>) {
    user.Some? && user.value.telegramChatID != 0 && user.value.notificationsEnabled
  }

  predicate IsLinked(user: Option<User>) {
    user.Some? && user.value.telegramChatID != 0
  }

  function AdminRequest(admin: User, key: string, ttl: int, now: int): Request {
    Request("admin:" + admin.id + ":" + key, now, ttl)
  }

  /** The requests of one system alert: one for each administrator with a chat. */
  function SystemRequests(found: seq<Option<User>>, key: string, ttl: int, clock: nat -> int): seq<Request> {
    if found == [] then []
    else
      var i := |found| - 1;
      var front := SystemRequests(found[..i], key, ttl, clock);
      if IsLinked(found[i]) then front + [AdminRequest(found[i].value, key, ttl, clock(i))] else front
  }

  /** What the lookups of all names may have found. */
  ghost predicate AreTelegramMatches(byID: map<string, User>, names: seq<string>, found: seq<Option<User>>) {
    && |found| == |names|
    && (names != [] ==>
          var n := |names| - 1;
          AreTelegramMatches(byID, names[..n], found[..n]) && IsTelegramMatch(byID, TelegramName(names[n]), found[n]))
  }

  lemma OneMoreMatch(byID: map<string, User>, names: seq<string>, i: nat, found: seq<Option<User>>, user: Option<User>)
    requires i < |names| && AreTelegramMatches(byID, names[..i], found) && IsTelegramMatch(byID, TelegramName(names[i]), user)
    ensures AreTelegramMatches(byID, names[..i + 1], found + [user])
  {
    assert names[..i + 1][..i] == names[..i] && (found + [user])[..i] == found;
  }

  lemma ServeOneMore(c: Cache, rs: seq<Request>, r: Request)
    ensures ServeAll(c, rs + [r]) == Serve(ServeAll(c, rs), r)
  {
    assert (rs + [r])[..|rs|] == rs;
  }

  lemma OneMoreAdmin(c: Cache, found: seq<Option<User>>, user: Option<User>, key: string, ttl: int, clock: nat -> int)
    ensures ServeAll(c, SystemRequests(found + [user], key, ttl, clock))
         == if IsLinked(user) then Serve(ServeAll(c, SystemRequests(found, key, ttl, clock)), AdminRequest(user.value, key, ttl, clock(|found|)))
            else ServeAll(c, SystemRequests(found, key, ttl, clock))
  {
    assert (found + [user])[..|found|] == found;
    if IsLinked(user) {
      ServeOneMore(c, SystemRequests(found, key, ttl, clock), AdminRequest(user.value, key, ttl, clock(|found|)));
    }
  }

  class NotificationService {
    const users: UserStore
    const hasSender: bool
    var adminTelegramUsers: seq<string>
    var deliveredUntil: map<string, int>
    ghost var attempts: seq<Attempt>

    ghost function View(): Cache
      reads this
    {
      Cache(deliveredUntil, attempts)
    }

    constructor (users: UserStore, hasSender: bool)
      ensures View() == EMPTY && this.users == users && this.hasSender == hasSender && adminTelegramUsers == []
    {
      this.users, this.hasSender, adminTelegramUsers := users, hasSender, [];
      deliveredUntil, attempts := map[], [];
    }

    method SendUserAlert(userID: string, key: string, ttl: int, now: int) returns (sent: bool)
      modifies this`deliveredUntil, this`attempts
      ensures var user := if userID in users.byID then Some(users.byID[userID]) else None;
        View() == if hasSender && WantsAlerts(user) then Serve(old(View()), Request(userID + ":" + key, now, ttl)) else old(View())
      ensures sent <==>
        && hasSender && userID in users.byID && users.byID[userID].telegramChatID != 0 && users.byID[userID].notificationsEnabled
        && (userID + ":" + key in old(deliveredUntil) ==> now >= old(deliveredUntil)[userID + ":" + key])
      ensures attempts == if sent then old(attempts) + [Attempt(userID + ":" + key, now)] else old(attempts)
      ensures deliveredUntil == if sent then old(deliveredUntil)[userID + ":" + key := now + ttl] else old(deliveredUntil)
    {
      if !hasSender {
        return false;
      }
      var user := users.GetByID(userID);
      if user.None? || user.value.telegramChatID == 0 || !user.value.notificationsEnabled {
        return false;
      }
      sent := Deliver(userID + ":" + key, ttl, now);
    }

    /** The part under the lock, and the hand-over to the sender. */
    method Deliver(cacheKey: string, ttl: int, now: int) returns (sent: bool)
      modifies this`deliveredUntil, this`attempts
      ensures sent == !Suppressed(old(View()), Request(cacheKey, now, ttl))
      ensures View() == Serve(old(View()), Request(cacheKey, now, ttl))
    {
      if cacheKey in deliveredUntil && now < deliveredUntil[cacheKey] {
        return false;
      }
      deliveredUntil := deliveredUntil[cacheKey := now + ttl];
      attempts := attempts + [Attempt(cacheKey, now)];
      sent := true;
    }

    /** `clock(i)` is the time read for the i-th administrator. */
    method SendSystemAlert(key: string, ttl: int, clock: nat -> int) returns (ghost found: seq<Option<User>>)
      modifies this`deliveredUntil, this`attempts
      ensures hasSender ==> AreTelegramMatches(users.byID, adminTelegramUsers, found)
      ensures View() == if hasSender then ServeAll(old(View()), SystemRequests(found, key, ttl, clock)) else old(View())
      ensures hasSender ==> Reaches(old(View()), View(), Due(old(deliveredUntil), found, key, clock), key, Brief(clock, |found|, ttl))
    {
      ghost var start := View();
      found := [];
      if !hasSender || |adminTelegramUsers| == 0 {
        AlertIsReached(start, found, key, ttl, clock);
        return;
      }
      for i := 0 to |adminTelegramUsers|
        invariant AreTelegramMatches(users.byID, adminTelegramUsers[..i], found)
        invariant View() == ServeAll(start, SystemRequests(found, key, ttl, clock))
      {
        ghost var user := AlertAdmin(adminTelegramUsers[i], key, ttl, clock(i));
        OneMoreAdmin(start, found, user, key, ttl, clock);
        OneMoreMatch(users.byID, adminTelegramUsers, i, found, user);
        found := found + [user];
      }
      assert adminTelegramUsers[..|adminTelegramUsers|] == adminTelegramUsers;
      AlertIsReached(start, found, key, ttl, clock);
    }

    method AlertAdmin(username: string, key: string, ttl: int, now: int) returns (ghost found: Option<User>)
      modifies this`deliveredUntil, this`attempts
      ensures IsTelegramMatch(users.byID, TelegramName(username), found)
      ensures View() == if IsLinked(found) then Serve(old(View()), AdminRequest(found.value, key, ttl, now)) else old(View())
      ensures attempts
           == if && found.Some? && found.value.telegramChatID != 0
                 && ("admin:" + found.value.id + ":" + key in old(deliveredUntil) ==>
                       now >= old(deliveredUntil)["admin:" + found.value.id + ":" + key])
              then old(attempts) + [Attempt("admin:" + found.value.id + ":" + key, now)] else old(attempts)
    {
      var user := users.GetByTelegramUsername(username);
      found := user;
      if user.None? || user.value.telegramChatID == 0 {
        return;
      }
      var sent := Deliver("admin:" + user.value.id + ":" + key, ttl, now);
    }
  }

  // ---------------------------------------------------------------- who a system alert reaches

  /** The administrators found that have a chat and for whom nothing is shut when their turn comes. */
  ghost function Due(deliveredUntil: map<string, int>, found: seq<Option<User>>, key: string, clock: nat -> int): set<string> {
    set i | 0 <= i < |found| && found[i].Some? && found[i].value.telegramChatID != 0
            && ("admin:" + found[i].value.id + ":" + key in deliveredUntil ==>
                  clock(i) >= deliveredUntil["admin:" + found[i].value.id + ":" + key]) :: found[i].value.id
  }

  function Times(attempts: seq<Attempt>, key: string): nat {
    if attempts == [] then 0
    else Times(attempts[..|attempts| - 1], key) + if attempts[|attempts| - 1].key == key then 1 else 0
  }

  predicate RightCount(times: nat, due: bool, once: bool) {
    if due then times >= 1 && (once ==> times == 1) else times == 0
  }

  /** Attempts for everyone who is due, under a key of the user's own, just one if it says `once`, and none for anyone else. */
  ghost predicate Reaches(c: Cache, c': Cache, due: set<string>, key: string, once: bool) {
    && c.attempts <= c'.attempts && (once ==> |c'.attempts| == |c.attempts| + |due|)
    && forall id :: RightCount(Times(c'.attempts[|c.attempts|..], "admin:" + id + ":" + key), id in due, once)
  }

  /** The clock readings of one alert, in whatever order, are less than the time to live apart. */
  ghost predicate Brief(clock: nat -> int, n: nat, ttl: int) {
    forall i, j :: 0 <= i < j < n ==> clock(j) < clock(i) + ttl
  }

  lemma KeysDiffer(a: string, b: string, key: string)
    requires "admin:" + a + ":" + key == "admin:" + b + ":" + key
    ensures a == b
  {
    var p, x, y := "admin:", "admin:" + a + ":" + key, "admin:" + b + ":" + key;
    assert x[|p|..|p| + |a|] == a && y[|p|..|p| + |b|] == b;
  }

  lemma OneMoreTime(attempts: seq<Attempt>, a: Attempt, key: string)
    ensures Times(attempts + [a], key) == Times(attempts, key) + if a.key == key then 1 else 0
  {
    assert (attempts + [a])[..|attempts|] == attempts;
  }

  /** A key is shut since the alert if it was due, and as it was before if not. */
  ghost predicate ShutSince(before: map<string, int>, after: map<string, int>, due: bool, k: string, ttl: int, clock: nat -> int, n: nat) {
    if due then k in after && exists i :: 0 <= i < n && after[k] == clock(i) + ttl
    else (k in after <==> k in before) && (k in after ==> after[k] == before[k])
  }

  ghost predicate AllShutSince(
    before: map<string, int>, after: map<string, int>, due: set<string>, key: string, ttl: int, clock: nat -> int, n: nat)
  {
    forall id :: ShutSince(before, after, id in due, "admin:" + id + ":" + key, ttl, clock, n)
  }

  lemma DueOneMore(before: map<string, int>, found: seq<Option<User>>, user: Option<User>, key: string, clock: nat -> int)
    ensures var due := Due(before, found, key, clock);
      Due(before, found + [user], key, clock)
        == if && user.Some? && user.value.telegramChatID != 0
              && ("admin:" + user.value.id + ":" + key in before ==> clock(|found|) >= before["admin:" + user.value.id + ":" + key])
           then due + {user.value.id} else due
  {
    var all := found + [user];
    assert forall i :: 0 <= i < |found| ==> all[i] == found[i];
    assert all[|found|] == user;
  }

  lemma {:induction false} AlertsInTurn(c: Cache, found: seq<Option<User>>, key: string, ttl: int, clock: nat -> int)
    ensures var c' := ServeAll(c, SystemRequests(found, key, ttl, clock)); var due := Due(c.deliveredUntil, found, key, clock);
      Reaches(c, c', due, key, Brief(clock, |found|, ttl)) && AllShutSince(c.deliveredUntil, c'.deliveredUntil, due, key, ttl, clock, |found|)
  {
    if found != [] {
      var n := |found| - 1;
      var user, due := found[n], Due(c.deliveredUntil, found[..n], key, clock);
      var mid := ServeAll(c, SystemRequests(found[..n], key, ttl, clock));
      assert found == found[..n] + [user];
      AlertsInTurn(c, found[..n], key, ttl, clock);
      DueOneMore(c.deliveredUntil, found[..n], user, key, clock);
      OneMoreAdmin(c, found[..n], user, key, ttl, clock);
      if user.Some? && user.value.telegramChatID != 0 {
        NextAdmin(c, mid, due, key, ttl, clock, n, user.value.id, Brief(clock, n + 1, ttl));
      }
    }
  }

  lemma AlertIsReached(c: Cache, found: seq<Option<User>>, key: string, ttl: int, clock: nat -> int)
    ensures Reaches(c, ServeAll(c, SystemRequests(found, key, ttl, clock)), Due(c.deliveredUntil, found, key, clock), key,
                    Brief(clock, |found|, ttl))
  {
    AlertsInTurn(c, found, key, ttl, clock);
  }

  lemma NextAdmin(c: Cache, mid: Cache, due: set<string>, key: string, ttl: int, clock: nat -> int, n: nat, id: string, once: bool)
    requires (once ==> Brief(clock, n + 1, ttl)) && Reaches(c, mid, due, key, once)
    requires AllShutSince(c.deliveredUntil, mid.deliveredUntil, due, key, ttl, clock, n)
    ensures var k := "admin:" + id + ":" + key;
      var due' := if k in c.deliveredUntil ==> clock(n) >= c.deliveredUntil[k] then due + {id} else due;
      var c' := Serve(mid, Request(k, clock(n), ttl));
      Reaches(c, c', due', key, once) && AllShutSince(c.deliveredUntil, c'.deliveredUntil, due', key, ttl, clock, n + 1)
  {
    var k := "admin:" + id + ":" + key;
    assert ShutSince(c.deliveredUntil, mid.deliveredUntil, id in due, "admin:" + id + ":" + key, ttl, clock, n);
    var due', c' := NextTurn(c.deliveredUntil, mid, due, k, ttl, clock, n, id, once);
    if c' == mid {
      StillShut(c.deliveredUntil, mid.deliveredUntil, due, key, ttl, clock, n);
    } else {
      OneMoreIsServed(c, mid, due, key, id, clock(n), once);
      OneMoreIsShut(c.deliveredUntil, mid.deliveredUntil, due, key, ttl, clock, n, id);
    }
  }

  /** The turn of one administrator: nothing happens, or an attempt is made and the key is shut. */
  lemma NextTurn(
    before: map<string, int>, mid: Cache, due: set<string>, k: string, ttl: int, clock: nat -> int, n: nat, id: string, once: bool)
    returns (due': set<string>, c': Cache)
    requires (once ==> Brief(clock, n + 1, ttl)) && ShutSince(before, mid.deliveredUntil, id in due, k, ttl, clock, n)
    ensures due' == (if k in before ==> clock(n) >= before[k] then due + {id} else due) && c' == Serve(mid, Request(k, clock(n), ttl))
    ensures if c' == mid then due' == due
            else && due' == due + {id} && (once ==> id !in due)
                 && c' == Cache(mid.deliveredUntil[k := clock(n) + ttl], mid.attempts + [Attempt(k, clock(n))])
  {
    HeldBack(before, mid, id in due, k, ttl, clock, n, once);
    due' := if k in before ==> clock(n) >= before[k] then due + {id} else due;
    c' := Serve(mid, Request(k, clock(n), ttl));
    assert id in due ==> due + {id} == due;
    assert |(mid.attempts + [Attempt(k, clock(n))])| != |mid.attempts|;
  }

  lemma HeldBack(before: map<string, int>, mid: Cache, due: bool, k: string, ttl: int, clock: nat -> int, n: nat, once: bool)
    requires (once ==> Brief(clock, n + 1, ttl)) && ShutSince(before, mid.deliveredUntil, due, k, ttl, clock, n)
    ensures !due ==> (Suppressed(mid, Request(k, clock(n), ttl)) <==> k in before && clock(n) < before[k])
    ensures due && once ==> Suppressed(mid, Request(k, clock(n), ttl))
  {
  }

  lemma StillShut(before: map<string, int>, after: map<string, int>, due: set<string>, key: string, ttl: int, clock: nat -> int, n: nat)
    requires AllShutSince(before, after, due, key, ttl, clock, n)
    ensures AllShutSince(before, after, due, key, ttl, clock, n + 1)
  {
    forall id
      ensures ShutSince(before, after, id in due, "admin:" + id + ":" + key, ttl, clock, n + 1)
    {
      assert ShutSince(before, after, id in due, "admin:" + id + ":" + key, ttl, clock, n);
    }
  }

  lemma OneMoreIsServed(c: Cache, mid: Cache, due: set<string>, key: string, id: string, now: int, once: bool)
    requires Reaches(c, mid, due, key, once) && (once ==> id !in due)
    ensures Reaches(c, mid.(attempts := mid.attempts + [Attempt("admin:" + id + ":" + key, now)]), due + {id}, key, once)
  {
    var a, added := Attempt("admin:" + id + ":" + key, now), mid.attempts[|c.attempts|..];
    assert (mid.attempts + [a])[|c.attempts|..] == added + [a];
    forall other
      ensures RightCount(Times(added + [a], "admin:" + other + ":" + key), other in due + {id}, once)
    {
      assert RightCount(Times(added, "admin:" + other + ":" + key), other in due, once);
      OneMoreCounted(added, key, id, other, now);
    }
  }

  lemma OneMoreCounted(added: seq<Attempt>, key: string, id: string, other: string, now: int)
    ensures Times(added + [Attempt("admin:" + id + ":" + key, now)], "admin:" + other + ":" + key)
         == Times(added, "admin:" + other + ":" + key) + if other == id then 1 else 0
  {
    OneMoreTime(added, Attempt("admin:" + id + ":" + key, now), "admin:" + other + ":" + key);
    if "admin:" + id + ":" + key == "admin:" + other + ":" + key {
      KeysDiffer(id, other, key);
    }
  }

  lemma OneMoreIsShut(
    before: map<string, int>, after: map<string, int>, due: set<string>, key: string, ttl: int, clock: nat -> int, n: nat, id: string)
    requires AllShutSince(before, after, due, key, ttl, clock, n)
    ensures AllShutSince(before, after["admin:" + id + ":" + key := clock(n) + ttl], due + {id}, key, ttl, clock, n + 1)
  {
    var after' := after["admin:" + id + ":" + key := clock(n) + ttl];
    forall other
      ensures ShutSince(before, after', other in due + {id}, "admin:" + other + ":" + key, ttl, clock, n + 1)
    {
      assert ShutSince(before, after, other in due, "admin:" + other + ":" + key, ttl, clock, n);
      if "admin:" + other + ":" + key == "admin:" + id + ":" + key {
        KeysDiffer(other, id, key);
      }
    }
  }

  // ---------------------------------------------------------------- the rate

  /** Attempts for the key in the half-open window. */
  function CountIn(attempts: seq<Attempt>, key: string, from: int, to: int): nat {
    if attempts == [] then 0
    else
      var last := attempts[|attempts| - 1];
      CountIn(attempts[..|attempts| - 1], key, from, to) + if last.key == key && from <= last.at < to then 1 else 0
  }

  /** Requests for the key ask for at least this time to live. */
  ghost predicate TtlAtLeast(rs: seq<Request>, key: string, ttl: int) {
    forall i :: 0 <= i < |rs| && rs[i].key == key ==> rs[i].ttl >= ttl
  }

  /** The cache shuts the key out for at least `ttl` after each attempt. */
  ghost predicate ShutAfter(c: Cache, key: string, ttl: int) {
    forall i :: 0 <= i < |c.attempts| && c.attempts[i].key == key ==>
      key in c.deliveredUntil && c.attempts[i].at + ttl <= c.deliveredUntil[key]
  }

  lemma {:induction false} ServingShuts(rs: seq<Request>, key: string, ttl: int)
    requires TtlAtLeast(rs, key, ttl) && ttl > 0
    ensures ShutAfter(ServeAll(EMPTY, rs), key, ttl)
  {
    if rs != [] {
      ServingShuts(rs[..|rs| - 1], key, ttl);
    }
  }

  /** The time that `n` attempts need between the first and the last. */
  function Span(n: nat, ttl: int): int {
    if n <= 1 then 0 else Span(n - 1, ttl) + ttl
  }

  lemma {:induction false} SpanIsProduct(n: nat, ttl: int)
    requires n > 0
    ensures Span(n, ttl) == (n - 1) * ttl
  {
    if n > 1 {
      SpanIsProduct(n - 1, ttl);
      assert (n - 1) * ttl == (n - 2) * ttl + ttl;
    }
  }

  /** Some attempt for the key lies in the window, and at least `span` into it. */
  ghost predicate ReachesInto(attempts: seq<Attempt>, key: string, from: int, to: int, span: int) {
    exists i :: 0 <= i < |attempts| && attempts[i].key == key && attempts[i].at < to && span <= attempts[i].at - from
  }

  lemma OneMoreAttempt(attempts: seq<Attempt>, a: Attempt, key: string, from: int, to: int, span: int)
    ensures CountIn(attempts + [a], key, from, to) == CountIn(attempts, key, from, to) + if a.key == key && from <= a.at < to then 1 else 0
    ensures ReachesInto(attempts, key, from, to, span) ==> ReachesInto(attempts + [a], key, from, to, span)
    ensures a.key == key && a.at < to && span <= a.at - from ==> ReachesInto(attempts + [a], key, from, to, span)
  {
    assert (attempts + [a])[..|attempts|] == attempts && (attempts + [a])[|attempts|] == a;
    if ReachesInto(attempts, key, from, to, span) {
      var i :| 0 <= i < |attempts| && attempts[i].key == key && attempts[i].at < to && span <= attempts[i].at - from;
      assert (attempts + [a])[i] == attempts[i];
    }
  }

  /** If the window holds attempts at all, one of them lies as far into it as all the others need for their time to live. */
  lemma {:induction false} AttemptsAreSpaced(rs: seq<Request>, key: string, ttl: int, from: int, to: int)
    requires TtlAtLeast(rs, key, ttl) && ttl > 0
    ensures var attempts := ServeAll(EMPTY, rs).attempts;
      var n := CountIn(attempts, key, from, to);
      n > 0 ==> ReachesInto(attempts, key, from, to, Span(n, ttl))
  {
    if rs != [] {
      var front, r := rs[..|rs| - 1], rs[|rs| - 1];
      var c := ServeAll(EMPTY, front);
      AttemptsAreSpaced(front, key, ttl, from, to);
      ServingShuts(front, key, ttl);
      if !Suppressed(c, r) {
        SpacingGoesOn(c, r, key, ttl, from, to);
      }
    }
  }

  lemma SpacingGoesOn(c: Cache, r: Request, key: string, ttl: int, from: int, to: int)
    requires ShutAfter(c, key, ttl) && !Suppressed(c, r) && ttl > 0
    requires var n := CountIn(c.attempts, key, from, to); n > 0 ==> ReachesInto(c.attempts, key, from, to, Span(n, ttl))
    ensures var attempts := c.attempts + [Attempt(r.key, r.now)];
      var n := CountIn(attempts, key, from, to);
      n > 0 ==> ReachesInto(attempts, key, from, to, Span(n, ttl))
  {
    var n := CountIn(c.attempts, key, from, to);
    OneMoreAttempt(c.attempts, Attempt(r.key, r.now), key, from, to, Span(n, ttl));
    OneMoreAttempt(c.attempts, Attempt(r.key, r.now), key, from, to, Span(n + 1, ttl));
  }

  function CeilDiv(a: int, b: int): int
    requires b > 0
  {
    (a + b - 1) / b
  }

  /** Over every run of user and system alerts, and even if the clock jumps. */
  lemma RateLimit(rs: seq<Request>, key: string, ttl: int, from: int, width: int)
    requires TtlAtLeast(rs, key, ttl) && ttl > 0 && width > 0
    ensures CountIn(ServeAll(EMPTY, rs).attempts, key, from, from + width) <= CeilDiv(width, ttl)
  {
    WindowHoldsTheSpan(rs, key, ttl, from, width);
    SpanFits(CountIn(ServeAll(EMPTY, rs).attempts, key, from, from + width), ttl, width);
  }

  lemma WindowHoldsTheSpan(rs: seq<Request>, key: string, ttl: int, from: int, width: int)
    requires TtlAtLeast(rs, key, ttl) && ttl > 0
    ensures var n := CountIn(ServeAll(EMPTY, rs).attempts, key, from, from + width); n > 0 ==> Span(n, ttl) < width
  {
    AttemptsAreSpaced(rs, key, ttl, from, from + width);
  }

  lemma SpanFits(n: nat, ttl: int, width: int)
    requires ttl > 0 && width > 0 && (n > 0 ==> Span(n, ttl) < width)
    ensures n <= CeilDiv(width, ttl)
  {
    if n > 0 {
      SpanIsProduct(n, ttl);
      assert n * ttl == (n - 1) * ttl + ttl;
      FitsIn(n, ttl, width + ttl - 1);
    } else {
      FitsIn(0, ttl, width + ttl - 1);
    }
  }

  lemma DivBounds(x: int, d: int)
    requires d > 0
    ensures (x / d) * d <= x < (x / d) * d + d
  {
  }

  lemma {:induction false} MoreTimes(b: int, k: nat, d: int)
    requires d > 0 && k > 0
    ensures (b + k) * d >= b * d + d
  {
    if k > 1 {
      MoreTimes(b, k - 1, d);
      assert (b + k) * d == (b + k - 1) * d + d;
    }
  }

  lemma FewerTimes(a: int, b: int, d: int)
    requires d > 0 && a * d < b * d + d
    ensures a <= b
  {
    if a > b {
      MoreTimes(b, a - b, d);
    }
  }

  lemma FitsIn(n: int, d: int, x: int)
    requires d > 0 && n * d <= x
    ensures n <= x / d
  {
    DivBounds(x, d);
    FewerTimes(n, x / d, d);
  }

  /** Requests exactly one time to live apart. */
  function Spaced(key: string, ttl: int, n: nat): seq<Request> {
    if n == 0 then [] else Spaced(key, ttl, n - 1) + [Request(key, Span(n, ttl), ttl)]
  }

  lemma {:induction false} SpacedShut(key: string, ttl: int, n: nat)
    requires ttl > 0
    ensures var c := ServeAll(EMPTY, Spaced(key, ttl, n));
      (key in c.deliveredUntil <==> n > 0) && (n > 0 ==> c.deliveredUntil[key] == Span(n + 1, ttl))
  {
    if n > 0 {
      SpacedShut(key, ttl, n - 1);
      ServeOneMore(EMPTY, Spaced(key, ttl, n - 1), Request(key, Span(n, ttl), ttl));
    }
  }

  lemma {:induction false} SpacedAllGoOut(key: string, ttl: int, n: nat, to: int)
    requires ttl > 0 && Span(n, ttl) < to
    ensures CountIn(ServeAll(EMPTY, Spaced(key, ttl, n)).attempts, key, 0, to) == n && Span(n, ttl) >= 0
  {
    if n > 0 {
      SpacedAllGoOut(key, ttl, n - 1, to);
      SpacedShut(key, ttl, n - 1);
      var front, r := Spaced(key, ttl, n - 1), Request(key, Span(n, ttl), ttl);
      ServeOneMore(EMPTY, front, r);
      OneMoreAttempt(ServeAll(EMPTY, front).attempts, Attempt(key, r.now), key, 0, to, 0);
    }
  }

  /** The bound of RateLimit is met, for every time to live and every number of requests. */
  lemma RateLimitIsTight(key: string, ttl: int, n: nat)
    requires ttl > 0 && n > 0
    ensures CountIn(ServeAll(EMPTY, Spaced(key, ttl, n)).attempts, key, 0, Span(n, ttl) + 1) == n == CeilDiv(Span(n, ttl) + 1, ttl)
  {
    SpacedAllGoOut(key, ttl, n, Span(n, ttl) + 1);
    SpanIsProduct(n, ttl);
    CeilOfTight(n - 1, ttl);
  }

  lemma CeilOfTight(k: nat, ttl: int)
    requires ttl > 0
    ensures CeilDiv(k * ttl + 1, ttl) == k + 1
  {
    var x := k * ttl + ttl;
    assert x == (k + 1) * ttl;
    FitsIn(k + 1, ttl, x);
    DivBounds(x, ttl);
    FewerTimes(x / ttl, k + 1, ttl);
    assert k * ttl + 1 + ttl - 1 == x;
  }

  /** Every request for the key asks for the same time to live. */
  ghost predicate TtlIs(rs: seq<Request>, key: string, ttl: int) {
    forall i :: 0 <= i < |rs| && rs[i].key == key ==> rs[i].ttl == ttl
  }

  ghost predicate RecentAttempt(attempts: seq<Attempt>, key: string, after: int) {
    exists i :: 0 <= i < |attempts| && attempts[i].key == key && attempts[i].at > after
  }

  /** Nothing is lost either: an alert is held back exactly if the key was used within the last time to live. */
  lemma HeldBackIffRecent(rs: seq<Request>, r: Request)
    requires TtlIs(rs + [r], r.key, r.ttl) && r.ttl > 0
    ensures ServeAll(EMPTY, rs + [r]).attempts
         == if RecentAttempt(ServeAll(EMPTY, rs).attempts, r.key, r.now - r.ttl)
            then ServeAll(EMPTY, rs).attempts
            else ServeAll(EMPTY, rs).attempts + [Attempt(r.key, r.now)]
  {
    assert forall i :: 0 <= i < |rs| ==> (rs + [r])[i] == rs[i];
    ServeOneMore(EMPTY, rs, r);
    ServingShuts(rs, r.key, r.ttl);
    ShutOnlyByAttempts(rs, r.key, r.ttl);
  }

  lemma {:induction false} ShutOnlyByAttempts(rs: seq<Request>, key: string, ttl: int)
    requires TtlIs(rs, key, ttl)
    ensures var c := ServeAll(EMPTY, rs);
      key in c.deliveredUntil ==>
        exists i :: 0 <= i < |c.attempts| && c.attempts[i].key == key && c.attempts[i].at + ttl == c.deliveredUntil[key]
  {
    if rs != [] {
      var front, r := rs[..|rs| - 1], rs[|rs| - 1];
      var c, c' := ServeAll(EMPTY, front), ServeAll(EMPTY, rs);
      ShutOnlyByAttempts(front, key, ttl);
      if c' != c {
        assert c'.attempts[|c.attempts|] == Attempt(r.key, r.now);
        if r.key != key && key in c.deliveredUntil {
          var i :| 0 <= i < |c.attempts| && c.attempts[i].key == key && c.attempts[i].at + ttl == c.deliveredUntil[key];
          assert c'.attempts[i] == c.attempts[i];
        }
      }
    }
  }

  // ---------------------------------------------------------------- system alerts after any history

  /** A key lets an alert through exactly if it was not attempted within the time to live. */
  lemma OpenIffNotRecent(rs: seq<Request>, key: string, ttl: int, now: int)
    requires TtlIs(rs, key, ttl) && ttl > 0
    ensures var c := ServeAll(EMPTY, rs);
      (key in c.deliveredUntil ==> now >= c.deliveredUntil[key]) <==> !RecentAttempt(c.attempts, key, now - ttl)
  {
    ServingShuts(rs, key, ttl);
    ShutOnlyByAttempts(rs, key, ttl);
  }

  /**
   After any history of alerts, a system alert is attempted for exactly those administrators with a chat for whom it was not
   attempted within the time to live, under a key of the administrator's own; just once for each, however often one is listed,
   if the loop takes less than the time to live.
   */
  lemma SystemAlertReaches(rs: seq<Request>, found: seq<Option<User>>, key: string, ttl: int, clock: nat -> int)
    requires ttl > 0 && forall id :: TtlIs(rs, "admin:" + id + ":" + key, ttl)
    ensures var c := ServeAll(EMPTY, rs); var c' := ServeAll(c, SystemRequests(found, key, ttl, clock));
      var due := set i | 0 <= i < |found| && found[i].Some? && found[i].value.telegramChatID != 0
                         && !RecentAttempt(c.attempts, "admin:" + found[i].value.id + ":" + key, clock(i) - ttl) :: found[i].value.id;
      && c.attempts <= c'.attempts
      && (forall id :: id in due <==> Times(c'.attempts[|c.attempts|..], "admin:" + id + ":" + key) > 0)
      && (Brief(clock, |found|, ttl) ==>
            && |c'.attempts| == |c.attempts| + |due|
            && forall id :: Times(c'.attempts[|c.attempts|..], "admin:" + id + ":" + key) == if id in due then 1 else 0)
  {
    var c := ServeAll(EMPTY, rs);
    AlertsInTurn(c, found, key, ttl, clock);
    var due := set i | 0 <= i < |found| && found[i].Some? && found[i].value.telegramChatID != 0
                       && !RecentAttempt(c.attempts, "admin:" + found[i].value.id + ":" + key, clock(i) - ttl) :: found[i].value.id;
    assert due == Due(c.deliveredUntil, found, key, clock) by {
      forall i | 0 <= i < |found| && found[i].Some?
        ensures var k := "admin:" + found[i].value.id + ":" + key;
          (k in c.deliveredUntil ==> clock(i) >= c.deliveredUntil[k]) <==> !RecentAttempt(c.attempts, k, clock(i) - ttl)
      {
        OpenIffNotRecent(rs, "admin:" + found[i].value.id + ":" + key, ttl, clock(i));
      }
    }
  }

  /** The first system alert reaches every administrator with a chat, each once, however often one is listed. */
  lemma FirstSystemAlert(found: seq<Option<User>>, key: string, ttl: int, clock: nat -> int)
    requires Brief(clock, |found|, ttl)
    ensures |ServeAll(EMPTY, SystemRequests(found, key, ttl, clock)).attempts|
         == |set i | 0 <= i < |found| && found[i].Some? && found[i].value.telegramChatID != 0 :: found[i].value.id|
  {
    AlertsInTurn(EMPTY, found, key, ttl, clock);
    assert Due(map[], found, key, clock) == set i | 0 <= i < |found| && found[i].Some? && found[i].value.telegramChatID != 0 :: found[i].value.id;
  }
}
