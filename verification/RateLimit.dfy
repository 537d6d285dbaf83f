/** The failure limiter: fixed windows kept in a map that is swept lazily, against the
    log of what it was told; and the password-reset throttle built on it. */
module RateLimit {
  import opened Prelude

  datatype FailureWindow = FailureWindow(failures: nat, windowEnd: Time)

  datatype Kind = Failure | Success
  datatype Event = Event(key: string, at: Time, kind: Kind)

  // ------------------------------------------------------------- by the log alone

  /** A key's window as the log determines it, when nothing is ever swept. */
  function WindowOf(log: seq<Event>, key: string, window: int): Option<FailureWindow> {
    if log == [] then None
    else
      var before := WindowOf(log[..|log| - 1], key, window);
      var e := log[|log| - 1];
      if e.key != key then before
      else if e.kind == Success then None
      else if before.None? || e.at > before.value.windowEnd then Some(FailureWindow(1, e.at + window))
      else Some(before.value.(failures := before.value.failures + 1))
  }

  /** Whether an attempt is permitted by a window that may be none. */
  predicate Permits(w: Option<FailureWindow>, maxFailures: int, now: Time) {
    maxFailures <= 0 || w.None? || now > w.value.windowEnd || w.value.failures < maxFailures
  }

  predicate AllowedByLog(log: seq<Event>, key: string, maxFailures: int, window: int, now: Time) {
    Permits(WindowOf(log, key, window), maxFailures, now)
  }

  /** The event times of a log never go back. */
  ghost predicate InOrder(log: seq<Event>) {
    forall i, j :: 0 <= i < j < |log| ==> log[i].at <= log[j].at
  }

  // ------------------------------------------------------------------ the limiter

  /** A key's entry is the log's window, unless that is none or closed and swept. */
  ghost predicate EntryFits(
    entries: map<string, FailureWindow>, log: seq<Event>, key: string, window: int, clock: Time)
  {
    var w := WindowOf(log, key, window);
    if key in entries then w == Some(entries[key]) && entries[key].windowEnd <= clock + window
    else w.Some? ==> w.value.windowEnd < clock
  }

  ghost predicate Tracks(
    entries: map<string, FailureWindow>, log: seq<Event>, maxFailures: int, window: int, clock: Time)
  {
    && InOrder(log) && (forall i :: 0 <= i < |log| ==> log[i].at <= clock)
    && if maxFailures <= 0 then entries == map[] else forall key :: EntryFits(entries, log, key, window, clock)
  }

  /** The entry after one more failure. */
  function Bumped(entries: map<string, FailureWindow>, key: string, now: Time, window: int): FailureWindow {
    var e := if key !in entries || now > entries[key].windowEnd then FailureWindow(0, now + window) else entries[key];
    e.(failures := e.failures + 1)
  }

  lemma FailureTracked(
    entries: map<string, FailureWindow>, log: seq<Event>, maxFailures: int, window: int, clock: Time,
    key: string, now: Time)
    requires Tracks(entries, log, maxFailures, window, clock) && clock <= now && maxFailures > 0
    ensures var entries' := entries[key := Bumped(entries, key, now, window)];
            Tracks(entries', log + [Event(key, now, Failure)], maxFailures, window, now)
  {
    var log' := log + [Event(key, now, Failure)];
    assert log'[..|log|] == log;
    var entries' := entries[key := Bumped(entries, key, now, window)];
    forall k ensures EntryFits(entries', log', k, window, now) {
      assert EntryFits(entries, log, k, window, clock);
    }
  }

  lemma SweptTracked(
    entries: map<string, FailureWindow>, left: map<string, FailureWindow>, log: seq<Event>, maxFailures: int,
    window: int, clock: Time)
    requires Tracks(entries, log, maxFailures, window, clock) && maxFailures > 0
    requires forall k :: k in left ==> k in entries && left[k] == entries[k]
    requires forall k :: k in entries && k !in left ==> clock > entries[k].windowEnd
    ensures Tracks(left, log, maxFailures, window, clock)
  {
    forall k ensures EntryFits(left, log, k, window, clock) {
      assert EntryFits(entries, log, k, window, clock);
    }
  }

  lemma SuccessTracked(
    entries: map<string, FailureWindow>, log: seq<Event>, maxFailures: int, window: int, clock: Time,
    key: string, now: Time)
    requires Tracks(entries, log, maxFailures, window, clock) && clock <= now
    ensures Tracks(entries - {key}, log + [Event(key, now, Success)], maxFailures, window, now)
  {
    var log' := log + [Event(key, now, Success)];
    assert log'[..|log|] == log;
    if maxFailures > 0 {
      var entries' := entries - {key};
      forall k ensures EntryFits(entries', log', k, window, now) {
        assert EntryFits(entries, log, k, window, clock);
      }
    }
  }

  class Limiter {
    const maxFailures: int
    const window: int
    var entries: map<string, FailureWindow>
    var lastSweep: Time
    /** What the limiter was told, and the latest clock reading. */
    ghost var log: seq<Event>
    ghost var clock: Time

    ghost predicate Faithful()
      reads this
    {
      lastSweep <= clock && Tracks(entries, log, maxFailures, window, clock)
    }

    /** The entries follow the log, and none was already closed at the last sweep. */
    ghost predicate Valid()
      reads this
    {
      Faithful() && forall key :: key in entries ==> lastSweep <= entries[key].windowEnd
    }

    constructor (maxFailures: int, window: int, now: Time)
      ensures Valid() && log == [] && clock == now
      ensures this.maxFailures == maxFailures && this.window == window
    {
      this.maxFailures, this.window := maxFailures, window;
      this.entries, this.lastSweep := map[], now;
      this.log, this.clock := [], now;
    }

    /** The answer is the one the whole log gives: sweeping is invisible. */
    method Allow(key: string, now: Time) returns (allowed: bool)
      requires Valid() && clock <= now
      ensures allowed <==> AllowedByLog(log, key, maxFailures, window, now)
    {
      assert maxFailures > 0 ==> EntryFits(entries, log, key, window, clock);
      if maxFailures <= 0 {
        return true;
      }
      if key !in entries || now > entries[key].windowEnd {
        return true;
      }
      allowed := entries[key].failures < maxFailures;
    }

    /** After a recorded failure every tracked entry was opened less than two windows
        ago, however many keys there have been. */
    method RecordFailure(key: string, now: Time)
      requires Valid() && clock <= now
      modifies this
      ensures Valid() && clock == now
      ensures log == old(log) + [Event(key, now, Failure)]
      ensures window > 0 ==> forall k :: k in entries ==> now - (entries[k].windowEnd - window) < 2 * window
    {
      if maxFailures > 0 {
        FailureTracked(entries, log, maxFailures, window, clock, key, now);
      }
      log := log + [Event(key, now, Failure)];
      clock := now;
      if maxFailures <= 0 {
        return;
      }
      if key !in entries || now > entries[key].windowEnd {
        entries := entries[key := FailureWindow(0, now + window)];
      }
      entries := entries[key := entries[key].(failures := entries[key].failures + 1)];
      assert entries == old(entries)[key := Bumped(old(entries), key, now, window)];
      SweepLocked(now);
    }

    /** Dropping the closed windows, at most once per window. */
    method SweepLocked(now: Time)
      requires Faithful() && clock == now && maxFailures > 0
      requires window >= 0 ==> Valid()
      modifies this`entries, this`lastSweep
      ensures Valid()
      ensures window > 0 ==> now - lastSweep < window
      ensures now - old(lastSweep) < window ==> entries == old(entries) && lastSweep == old(lastSweep)
      ensures now - old(lastSweep) >= window ==>
                && lastSweep == now
                && entries == map k | k in old(entries) && now <= old(entries)[k].windowEnd :: old(entries)[k]
    {
      if now - lastSweep < window {
        return;
      }
      lastSweep := now;
      var todo := entries.Keys;
      while todo != {}
        invariant lastSweep == now && todo <= entries.Keys <= old(entries).Keys
        invariant forall k :: k in entries ==> entries[k] == old(entries)[k]
        invariant forall k :: k in entries && k !in todo ==> now <= entries[k].windowEnd
        invariant forall k :: k in old(entries) && k !in entries ==> now > old(entries)[k].windowEnd
        decreases todo
      {
        var k :| k in todo;
        todo := todo - {k};
        if now > entries[k].windowEnd {
          entries := entries - {k};
        }
      }
      SweptTracked(old(entries), entries, log, maxFailures, window, clock);
    }

    method RecordSuccess(key: string, now: Time)
      requires Valid() && clock <= now
      modifies this
      ensures Valid() && clock == now
      ensures log == old(log) + [Event(key, now, Success)]
    {
      SuccessTracked(entries, log, maxFailures, window, clock, key, now);
      log := log + [Event(key, now, Success)];
      clock := now;
      entries := entries - {key};
    }
  }

  // ---------------------------------------------------- the reset-request throttle

  /** Reset requests and logins share one limiter, under separate keys. */
  function ResetKeys(ip: string, tenant: string, identifier: string): (string, string) {
    ("pwreset:ip:" + ip, "pwreset:id:" + tenant + ":" + identifier)
  }

  function LoginKeys(ip: string, scope: string, username: string): (string, string) {
    ("ip:" + ip, "id:" + scope + ":" + username)
  }

  lemma KeysApart(ip: string, tenant: string, identifier: string, ip': string, scope: string, username: string)
    ensures var (reset, login) := (ResetKeys(ip, tenant, identifier), LoginKeys(ip', scope, username));
            reset.0 != reset.1 && reset.0 !in {login.0, login.1} && reset.1 !in {login.0, login.1}
  {
    var reset, login := ResetKeys(ip, tenant, identifier), LoginKeys(ip', scope, username);
    assert reset.0[8] == 'i' && reset.0[9] == 'p' && reset.1[9] == 'd';
    assert reset.0[0] == reset.1[0] == 'p' && login.0[0] == login.1[0] == 'i';
  }

  /** Each address has a key of its own, and so has each identifier of a tenant or scope. */
  lemma KeysTellApart(ip: string, ip': string, tenant: string, identifier: string, identifier': string)
    ensures ResetKeys(ip, tenant, identifier).0 == ResetKeys(ip', tenant, identifier').0 <==> ip == ip'
    ensures ResetKeys(ip, tenant, identifier).1 == ResetKeys(ip', tenant, identifier').1 <==> identifier == identifier'
    ensures LoginKeys(ip, tenant, identifier).0 == LoginKeys(ip', tenant, identifier').0 <==> ip == ip'
    ensures LoginKeys(ip, tenant, identifier).1 == LoginKeys(ip', tenant, identifier').1 <==> identifier == identifier'
  {
    SamePrefix("pwreset:ip:", ip, ip');
    SamePrefix("pwreset:id:" + tenant + ":", identifier, identifier');
    SamePrefix("ip:", ip, ip');
    SamePrefix("id:" + tenant + ":", identifier, identifier');
  }

  lemma SamePrefix(prefix: string, a: string, b: string)
    ensures prefix + a == prefix + b <==> a == b
  {
    assert (prefix + a)[|prefix|..] == a && (prefix + b)[|prefix|..] == b;
  }

  /** A log throttled on a key: each event of the key is a failure that the events before
      it permitted. The events of other keys are unrestricted. */
  ghost predicate Throttled(log: seq<Event>, key: string, maxFailures: int, window: int) {
    && InOrder(log)
    && forall i :: 0 <= i < |log| && log[i].key == key ==>
         log[i].kind == Failure && AllowedByLog(log[..i], key, maxFailures, window, log[i].at)
  }

  /** A use of the limiter: a reset request, or a login attempt that was recorded. */
  datatype Call =
    | ResetCall(ip: string, tenant: string, identifier: string, at: Time)
    | LoginCall(ip: string, scope: string, username: string, success: bool, at: Time)

  function KeysOf(c: Call): (string, string) {
    match c
    case ResetCall(ip, tenant, identifier, _) => ResetKeys(ip, tenant, identifier)
    case LoginCall(ip, scope, username, _, _) => LoginKeys(ip, scope, username)
  }

  /** A reset request passes when both its keys are under their limits. */
  predicate Accepts(log: seq<Event>, c: Call, maxFailures: int, window: int) {
    && c.ResetCall?
    && AllowedByLog(log, KeysOf(c).0, maxFailures, window, c.at)
    && AllowedByLog(log, KeysOf(c).1, maxFailures, window, c.at)
  }

  /** Both keys' events, for a request that passes and for any login. */
  function Recorded(log: seq<Event>, c: Call, maxFailures: int, window: int): seq<Event> {
    var kind := if c.LoginCall? && c.success then Success else Failure;
    if c.LoginCall? || Accepts(log, c, maxFailures, window)
    then log + [Event(KeysOf(c).0, c.at, kind), Event(KeysOf(c).1, c.at, kind)]
    else log
  }

  /** A reset request counts against its address and its identifier when both are
      under their limits, and counts against neither otherwise; so it leaves every
      throttled key throttled. */
  method RequestReset(limiter: Limiter, ip: string, tenant: string, identifier: string, now: Time)
    returns (accepted: bool)
    requires limiter.Valid() && limiter.clock <= now
    modifies limiter
    ensures limiter.Valid() && limiter.clock <= now
    ensures var call := ResetCall(ip, tenant, identifier, now);
            && (accepted <==> Accepts(old(limiter.log), call, limiter.maxFailures, limiter.window))
            && limiter.log == Recorded(old(limiter.log), call, limiter.maxFailures, limiter.window)
    ensures forall key :: old(Throttled(limiter.log, key, limiter.maxFailures, limiter.window)) ==>
                            Throttled(limiter.log, key, limiter.maxFailures, limiter.window)
  {
    var (ipKey, idKey) := ResetKeys(ip, tenant, identifier);
    KeysApart(ip, tenant, identifier, "", "", "");
    ghost var log := limiter.log;
    accepted := limiter.Allow(ipKey, now);
    if accepted {
      accepted := limiter.Allow(idKey, now);
    }
    if accepted {
      limiter.RecordFailure(ipKey, now);
      limiter.RecordFailure(idKey, now);
      assert limiter.log == log + [Event(ipKey, now, Failure), Event(idKey, now, Failure)];
      forall key | Throttled(log, key, limiter.maxFailures, limiter.window)
        ensures Throttled(limiter.log, key, limiter.maxFailures, limiter.window)
      {
        RequestKeepsThrottled(log, key, ipKey, idKey, limiter.maxFailures, limiter.window, now);
      }
    }
  }

  /** Whatever a login attempt records, no key of a reset request is affected. */
  method RecordLogin(limiter: Limiter, ip: string, scope: string, username: string, success: bool, now: Time)
    requires limiter.Valid() && limiter.clock <= now
    modifies limiter
    ensures limiter.Valid() && limiter.clock <= now
    ensures var call := LoginCall(ip, scope, username, success, now);
            limiter.log == Recorded(old(limiter.log), call, limiter.maxFailures, limiter.window)
    ensures forall ip, tenant, identifier, key ::
              && key in {ResetKeys(ip, tenant, identifier).0, ResetKeys(ip, tenant, identifier).1}
              && old(Throttled(limiter.log, key, limiter.maxFailures, limiter.window)) ==>
                Throttled(limiter.log, key, limiter.maxFailures, limiter.window)
  {
    var (ipKey, idKey) := LoginKeys(ip, scope, username);
    ghost var log := limiter.log;
    if success {
      limiter.RecordSuccess(ipKey, now);
      limiter.RecordSuccess(idKey, now);
    } else {
      limiter.RecordFailure(ipKey, now);
      limiter.RecordFailure(idKey, now);
    }
    ghost var kind := if success then Success else Failure;
    assert limiter.log == log + [Event(ipKey, now, kind), Event(idKey, now, kind)];
    forall ip', tenant, identifier, key |
      && key in {ResetKeys(ip', tenant, identifier).0, ResetKeys(ip', tenant, identifier).1}
      && Throttled(log, key, limiter.maxFailures, limiter.window)
      ensures Throttled(limiter.log, key, limiter.maxFailures, limiter.window)
    {
      KeysApart(ip', tenant, identifier, ip, scope, username);
      var e, f := Event(ipKey, now, kind), Event(idKey, now, kind);
      OtherKeysKeepThrottled(log, key, e, f, limiter.maxFailures, limiter.window);
    }
  }

  lemma OtherKeysKeepThrottled(log: seq<Event>, key: string, e: Event, f: Event, maxFailures: int, window: int)
    requires Throttled(log, key, maxFailures, window) && key !in {e.key, f.key}
    requires e.at == f.at && forall i :: 0 <= i < |log| ==> log[i].at <= e.at
    ensures Throttled(log + [e, f], key, maxFailures, window)
  {
    forall i | 0 <= i < |log| ensures (log + [e, f])[..i] == log[..i] {
    }
  }

  /** Accepted reset requests extend a throttled log. */
  lemma RequestKeepsThrottled(
    log: seq<Event>, key: string, ipKey: string, idKey: string, maxFailures: int, window: int, now: Time)
    requires Throttled(log, key, maxFailures, window) && ipKey != idKey
    requires forall i :: 0 <= i < |log| ==> log[i].at <= now
    requires AllowedByLog(log, ipKey, maxFailures, window, now) && AllowedByLog(log, idKey, maxFailures, window, now)
    ensures Throttled(log + [Event(ipKey, now, Failure), Event(idKey, now, Failure)], key, maxFailures, window)
  {
    var log' := log + [Event(ipKey, now, Failure), Event(idKey, now, Failure)];
    forall i | 0 <= i < |log'| && log'[i].key == key
      ensures log'[i].kind == Failure && AllowedByLog(log'[..i], key, maxFailures, window, log'[i].at)
    {
      if i < |log| {
        assert log'[..i] == log[..i];
      } else if i == |log| {
        assert log'[..i] == log;
      } else {
        assert log'[..i] == log + [Event(ipKey, now, Failure)];
        assert log'[..i][..|log'[..i]| - 1] == log;
      }
    }
  }

  // ------------------------------------------------------------ the counting bound

  /** The times of a key's events. */
  function TimesOf(log: seq<Event>, key: string): seq<Time> {
    if log == [] then []
    else
      var rest := TimesOf(log[..|log| - 1], key);
      if log[|log| - 1].key == key then rest + [log[|log| - 1].at] else rest
  }

  /** Which of a key's events opened the window of its n-th. */
  function Opener(ts: seq<Time>, n: nat, window: int): (o: nat)
    requires n < |ts|
    ensures o <= n
  {
    if n == 0 then 0
    else
      var o := Opener(ts, n - 1, window);
      if ts[n] > ts[o] + window then n else o
  }

  lemma {:induction false} OpenerOfPrefix(ts: seq<Time>, us: seq<Time>, n: nat, window: int)
    requires n < |ts| <= |us| && us[..|ts|] == ts
    ensures Opener(us, n, window) == Opener(ts, n, window)
  {
    assert forall i :: 0 <= i < |ts| ==> us[i] == ts[i];
    if n > 0 {
      OpenerOfPrefix(ts, us, n - 1, window);
    }
  }

  /** The window the log determines is the one of the key's last opener. */
  lemma {:induction false} WindowFromTimes(log: seq<Event>, key: string, window: int)
    requires forall i :: 0 <= i < |log| && log[i].key == key ==> log[i].kind == Failure
    ensures var ts := TimesOf(log, key);
            WindowOf(log, key, window) ==
              if ts == [] then None
              else var o := Opener(ts, |ts| - 1, window); Some(FailureWindow(|ts| - o, ts[o] + window))
  {
    if log != [] {
      var rest := log[..|log| - 1];
      WindowFromTimes(rest, key, window);
      var us, ts := TimesOf(rest, key), TimesOf(log, key);
      if log[|log| - 1].key == key && us != [] {
        assert ts[..|us|] == us;
        OpenerOfPrefix(us, ts, |us| - 1, window);
      }
    }
  }

  /** The failures of a key that all fall in the window its first one opened lock it out if
      and only if they have reached the limit, until that window has passed. */
  lemma LockoutIff(log: seq<Event>, key: string, maxFailures: int, window: int, now: Time)
    requires forall i :: 0 <= i < |log| && log[i].key == key ==> log[i].kind == Failure
    requires TimesOf(log, key) != [] && maxFailures >= 1
    requires var ts := TimesOf(log, key); forall i :: 0 <= i < |ts| ==> ts[i] <= ts[0] + window
    ensures AllowedByLog(log, key, maxFailures, window, now) <==>
              |TimesOf(log, key)| < maxFailures || now > TimesOf(log, key)[0] + window
  {
    var ts := TimesOf(log, key);
    WindowFromTimes(log, key, window);
    OneWindow(ts, |ts| - 1, window);
  }

  lemma {:induction false} OneWindow(ts: seq<Time>, n: nat, window: int)
    requires n < |ts| && forall i :: 0 <= i < |ts| ==> ts[i] <= ts[0] + window
    ensures Opener(ts, n, window) == 0
  {
    if n > 0 {
      OneWindow(ts, n - 1, window);
    }
  }

  /** Nobody is locked out who has had fewer failures than the limit within the last
      window. */
  lemma FewRecentPermitted(log: seq<Event>, key: string, maxFailures: int, window: int, now: Time)
    requires InOrder(log) && forall i :: 0 <= i < |log| && log[i].key == key ==> log[i].kind == Failure
    requires FewRecent(TimesOf(log, key), maxFailures, window, now) && maxFailures >= 1
    ensures AllowedByLog(log, key, maxFailures, window, now)
  {
    var ts := TimesOf(log, key);
    WindowFromTimes(log, key, window);
    if ts != [] {
      TimesInOrder(log, key, log[|log| - 1].at);
      var o := Opener(ts, |ts| - 1, window);
      assert |ts| - o >= maxFailures ==> ts[o] <= ts[|ts| - maxFailures];
    }
  }

  /** Fewer than the limit of these times lie within the window before an instant. */
  ghost predicate FewRecent(ts: seq<Time>, maxFailures: int, window: int, now: Time) {
    |ts| < maxFailures || (maxFailures >= 1 && ts[|ts| - maxFailures] < now - window)
  }

  /** A success clears its key. */
  lemma SuccessClears(log: seq<Event>, key: string, maxFailures: int, window: int, at: Time, now: Time)
    ensures AllowedByLog(log + [Event(key, at, Success)], key, maxFailures, window, now)
  {
  }

  /** A key's event times in a throttled log: in order, and never more than the limit
      in one window. */
  ghost predicate Spaced(ts: seq<Time>, maxFailures: int, window: int) {
    && (forall i, j :: 0 <= i < j < |ts| ==> ts[i] <= ts[j])
    && (forall n :: 0 <= n < |ts| ==> n - Opener(ts, n, window) < maxFailures)
  }

  ghost predicate Ascending(ts: seq<Time>, latest: Time) {
    && (forall i, j :: 0 <= i < j < |ts| ==> ts[i] <= ts[j])
    && (forall i :: 0 <= i < |ts| ==> ts[i] <= latest)
  }

  lemma {:induction false} TimesInOrder(log: seq<Event>, key: string, latest: Time)
    requires InOrder(log) && forall i :: 0 <= i < |log| ==> log[i].at <= latest
    ensures Ascending(TimesOf(log, key), latest)
  {
    if log != [] {
      var rest, last := log[..|log| - 1], log[|log| - 1];
      TimesInOrder(rest, key, last.at);
      OneMoreTime(TimesOf(rest, key), last.at, latest);
    }
  }

  lemma OneMoreTime(ts: seq<Time>, at: Time, latest: Time)
    requires Ascending(ts, at) && at <= latest
    ensures Ascending(ts, latest) && Ascending(ts + [at], latest)
  {
  }

  lemma ThrottledPrefix(log: seq<Event>, key: string, maxFailures: int, window: int)
    requires log != [] && Throttled(log, key, maxFailures, window)
    ensures Throttled(log[..|log| - 1], key, maxFailures, window)
  {
    var rest := log[..|log| - 1];
    forall i | 0 <= i < |rest| ensures rest[..i] == log[..i] {
    }
  }

  lemma {:induction false} ThrottledSpaced(log: seq<Event>, key: string, maxFailures: int, window: int)
    requires Throttled(log, key, maxFailures, window) && maxFailures >= 1
    ensures Spaced(TimesOf(log, key), maxFailures, window)
  {
    if log != [] {
      var rest, last := log[..|log| - 1], log[|log| - 1];
      TimesInOrder(log, key, last.at);
      ThrottledPrefix(log, key, maxFailures, window);
      ThrottledSpaced(rest, key, maxFailures, window);
      if last.key == key {
        WindowFromTimes(rest, key, window);
        OneMoreSpaced(TimesOf(rest, key), last.at, maxFailures, window);
      }
    }
  }

  lemma OneMoreSpaced(us: seq<Time>, at: Time, maxFailures: int, window: int)
    requires Spaced(us, maxFailures, window) && maxFailures >= 1
    requires us != [] ==>
               var o := Opener(us, |us| - 1, window);
               Permits(Some(FailureWindow(|us| - o, us[o] + window)), maxFailures, at)
    ensures forall n :: 0 <= n <= |us| ==> n - Opener(us + [at], n, window) < maxFailures
  {
    var ts := us + [at];
    forall n | 0 <= n < |ts| ensures n - Opener(ts, n, window) < maxFailures {
      if n < |us| {
        OpenerOfPrefix(us, ts, n, window);
      } else if |us| > 0 {
        OpenerOfPrefix(us, ts, |us| - 1, window);
      }
    }
  }

  /** Past its opener a window's events are within one window of it; an event that
      opens one is later than that. */
  lemma {:induction false} OpenerBounds(ts: seq<Time>, n: nat, window: int)
    requires n < |ts| && window > 0 && forall i, j :: 0 <= i < j < |ts| ==> ts[i] <= ts[j]
    ensures var o := Opener(ts, n, window);
            && ts[n] <= ts[o] + window
            && Opener(ts, o, window) == o
            && (o > 0 ==> ts[o] > ts[Opener(ts, o - 1, window)] + window)
  {
    if n > 0 {
      OpenerBounds(ts, n - 1, window);
    }
  }

  /** The throttle: no interval as short as the window holds more than twice the limit,
      less one, of a key's accepted requests. */
  lemma ThrottleBound(log: seq<Event>, key: string, maxFailures: int, window: int, i: nat, j: nat)
    requires Throttled(log, key, maxFailures, window) && maxFailures >= 1 && window > 0
    requires i <= j < |TimesOf(log, key)| && TimesOf(log, key)[j] - TimesOf(log, key)[i] <= window
    ensures j - i + 1 <= 2 * maxFailures - 1
  {
    var ts := TimesOf(log, key);
    ThrottledSpaced(log, key, maxFailures, window);
    var o := Opener(ts, j, window);
    OpenerBounds(ts, j, window);
    if i < o {
      var p := Opener(ts, o - 1, window);
      assert o - 1 - p < maxFailures;
    }
  }

  // ---------------------------------------------------------- sequences of calls

  /** The log after a sequence of calls on a new limiter. */
  function Served(calls: seq<Call>, maxFailures: int, window: int): seq<Event> {
    if calls == [] then []
    else Recorded(Served(calls[..|calls| - 1], maxFailures, window), calls[|calls| - 1], maxFailures, window)
  }

  /** The times of the accepted reset requests on a key. */
  function AcceptedTimes(calls: seq<Call>, key: string, maxFailures: int, window: int): seq<Time> {
    if calls == [] then []
    else
      var before, c := calls[..|calls| - 1], calls[|calls| - 1];
      var times := AcceptedTimes(before, key, maxFailures, window);
      if key in {KeysOf(c).0, KeysOf(c).1} && Accepts(Served(before, maxFailures, window), c, maxFailures, window)
      then times + [c.at] else times
  }

  ghost predicate InTime(calls: seq<Call>) {
    forall i, j :: 0 <= i < j < |calls| ==> calls[i].at <= calls[j].at
  }

  ghost predicate ResetKey(key: string) {
    exists ip, tenant, identifier :: key in {ResetKeys(ip, tenant, identifier).0, ResetKeys(ip, tenant, identifier).1}
  }

  /** A reset key's events are the accepted requests on it, and throttle it. */
  lemma {:induction false} CallsKeepThrottled(calls: seq<Call>, key: string, maxFailures: int, window: int)
    requires InTime(calls) && ResetKey(key)
    ensures var log := Served(calls, maxFailures, window);
            && Throttled(log, key, maxFailures, window)
            && TimesOf(log, key) == AcceptedTimes(calls, key, maxFailures, window)
            && forall i :: 0 <= i < |log| ==> calls != [] && log[i].at <= calls[|calls| - 1].at
  {
    if calls != [] {
      var before, c := calls[..|calls| - 1], calls[|calls| - 1];
      CallsKeepThrottled(before, key, maxFailures, window);
      assert before != [] ==> calls[|before| - 1].at <= c.at;
      CallKeepsThrottled(Served(before, maxFailures, window), c, key, maxFailures, window);
    }
  }

  lemma CallKeepsThrottled(log: seq<Event>, c: Call, key: string, maxFailures: int, window: int)
    requires Throttled(log, key, maxFailures, window) && ResetKey(key)
    requires forall i :: 0 <= i < |log| ==> log[i].at <= c.at
    ensures var log' := Recorded(log, c, maxFailures, window);
            Throttled(log', key, maxFailures, window) && forall i :: 0 <= i < |log'| ==> log'[i].at <= c.at
    ensures var counted := key in {KeysOf(c).0, KeysOf(c).1} && Accepts(log, c, maxFailures, window);
            TimesOf(Recorded(log, c, maxFailures, window), key) == TimesOf(log, key) + if counted then [c.at] else []
  {
    var ip, tenant, identifier :|
      key in {ResetKeys(ip, tenant, identifier).0, ResetKeys(ip, tenant, identifier).1};
    match c
    case ResetCall(ip', tenant', identifier', at) =>
      KeysApart(ip', tenant', identifier', "", "", "");
      if Accepts(log, c, maxFailures, window) {
        RequestKeepsThrottled(log, key, KeysOf(c).0, KeysOf(c).1, maxFailures, window, at);
        TimesOfTwoMore(log, key, Event(KeysOf(c).0, at, Failure), Event(KeysOf(c).1, at, Failure));
      }
    case LoginCall(ip', scope, username, success, at) =>
      KeysApart(ip, tenant, identifier, ip', scope, username);
      var kind := if success then Success else Failure;
      var e, f := Event(KeysOf(c).0, at, kind), Event(KeysOf(c).1, at, kind);
      OtherKeysKeepThrottled(log, key, e, f, maxFailures, window);
      TimesOfTwoMore(log, key, e, f);
  }

  lemma TimesOfTwoMore(log: seq<Event>, key: string, e: Event, f: Event)
    requires e.key != f.key || key !in {e.key, f.key}
    ensures TimesOf(log + [e, f], key) ==
              TimesOf(log, key) + if e.key == key then [e.at] else if f.key == key then [f.at] else []
  {
    var one := log + [e];
    assert (log + [e, f])[..|log| + 1] == one && one[..|log|] == log;
    assert TimesOf(one, key) == if e.key == key then TimesOf(log, key) + [e.at] else TimesOf(log, key);
  }

  /** Whatever calls a new limiter serves, resets and logins alike, any interval no longer
      than the window holds at most 2 * limit - 1 accepted reset requests of one address,
      and of one identifier. */
  lemma ResetRequestsBounded(calls: seq<Call>, key: string, maxFailures: int, window: int, i: nat, j: nat)
    requires InTime(calls) && ResetKey(key) && maxFailures >= 1 && window > 0
    requires i <= j < |AcceptedTimes(calls, key, maxFailures, window)|
    requires var times := AcceptedTimes(calls, key, maxFailures, window); times[j] - times[i] <= window
    ensures j - i + 1 <= 2 * maxFailures - 1
  {
    CallsKeepThrottled(calls, key, maxFailures, window);
    ThrottleBound(Served(calls, maxFailures, window), key, maxFailures, window, i, j);
  }

  /** A reset request is accepted whenever its address and its identifier have each had
      fewer accepted requests than the limit within the last window. */
  lemma FewResetsAccepted(calls: seq<Call>, c: Call, maxFailures: int, window: int)
    requires InTime(calls) && c.ResetCall? && maxFailures >= 1
    requires FewRecent(AcceptedTimes(calls, KeysOf(c).0, maxFailures, window), maxFailures, window, c.at)
    requires FewRecent(AcceptedTimes(calls, KeysOf(c).1, maxFailures, window), maxFailures, window, c.at)
    ensures Accepts(Served(calls, maxFailures, window), c, maxFailures, window)
  {
    var log := Served(calls, maxFailures, window);
    assert ResetKeys(c.ip, c.tenant, c.identifier) == KeysOf(c);
    assert ResetKey(KeysOf(c).0) && ResetKey(KeysOf(c).1);
    CallsKeepThrottled(calls, KeysOf(c).0, maxFailures, window);
    CallsKeepThrottled(calls, KeysOf(c).1, maxFailures, window);
    FewRecentPermitted(log, KeysOf(c).0, maxFailures, window, c.at);
    FewRecentPermitted(log, KeysOf(c).1, maxFailures, window, c.at);
  }

  // ------------------------------------------------------------------ sharpness

  /** One request at time 0, limit - 1 of them at the very end of its window, and
      limit of them just after it. */
  function Burst(maxFailures: nat, window: int, n: nat): Time {
    if n == 0 then 0 else if n < maxFailures then window else window + 1
  }

  /** The bound is met: some throttled log of one key puts 2 * limit - 1 accepted
      requests, the second to the last, in an interval no longer than the window. */
  lemma ThrottleBoundIsSharp(key: string, maxFailures: nat, window: int) returns (log: seq<Event>)
    requires maxFailures >= 1 && window > 0
    ensures Throttled(log, key, maxFailures, window)
    ensures var ts := TimesOf(log, key);
            |ts| == 2 * maxFailures && ts[2 * maxFailures - 1] - ts[1] <= window
  {
    var ts := BurstTimes(maxFailures, window);
    forall n | 0 <= n < |ts| ensures n - Opener(ts, n, window) < maxFailures {
      BurstOpener(maxFailures, window, n);
    }
    log := Log(key, ts);
    TimesOfLog(key, ts);
    SpacedThrottles(key, ts, maxFailures, window);
  }

  function BurstTimes(maxFailures: nat, window: int): seq<Time> {
    seq(2 * maxFailures, n requires 0 <= n < 2 * maxFailures => Burst(maxFailures, window, n))
  }

  lemma {:induction false} BurstOpener(maxFailures: nat, window: int, n: nat)
    requires maxFailures >= 1 && window > 0 && n < 2 * maxFailures
    ensures Opener(BurstTimes(maxFailures, window), n, window) == if n < maxFailures then 0 else maxFailures
  {
    if n > 0 {
      BurstOpener(maxFailures, window, n - 1);
    }
  }

  function Log(key: string, ts: seq<Time>): seq<Event> {
    seq(|ts|, n requires 0 <= n < |ts| => Event(key, ts[n], Failure))
  }

  lemma {:induction false} TimesOfLog(key: string, ts: seq<Time>)
    ensures TimesOf(Log(key, ts), key) == ts
  {
    if ts != [] {
      assert Log(key, ts)[..|ts| - 1] == Log(key, ts[..|ts| - 1]);
      TimesOfLog(key, ts[..|ts| - 1]);
    }
  }

  lemma SpacedThrottles(key: string, ts: seq<Time>, maxFailures: int, window: int)
    requires Spaced(ts, maxFailures, window)
    ensures Throttled(Log(key, ts), key, maxFailures, window)
  {
    var log := Log(key, ts);
    forall i | 0 <= i < |log| ensures AllowedByLog(log[..i], key, maxFailures, window, log[i].at) {
      assert log[..i] == Log(key, ts[..i]);
      TimesOfLog(key, ts[..i]);
      WindowFromTimes(log[..i], key, window);
      if i > 0 {
        OpenerOfPrefix(ts[..i], ts, i - 1, window);
        var o := Opener(ts, i - 1, window);
        assert ts[..i][o] == ts[o];
        assert Opener(ts, i, window) == if ts[i] > ts[o] + window then i else o;
        assert ts[i] <= ts[o] + window ==> i - o < maxFailures;
      }
    }
  }
}
