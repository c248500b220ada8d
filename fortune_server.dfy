/**
 * The fortune server: `POST /api/get-fortune` hands each device one fortune per
 * calendar day, remembered in a collection of visit records, and
 * `GET /api/admin-stats` lists that collection behind a shared secret.
 * "Today" (the Sofia calendar date string), the random draw, the clock and the
 * fortune list are parameters; the collection is the field of a VisitStore.
 */
module FortuneServer {
  import opened Wrappers
  import Sorting

  /** One stored visit: the fortune drawn by one device on one calendar day. */
  datatype Visit = Visit(deviceId: string, date: string, fortune: string, createdAt: int, updatedAt: int)

  /** The reply of `POST /api/get-fortune`: status 400 with an error, or status 200 with `allowed: true`. */
  datatype FortuneResponse =
    | Rejected(status: nat, error: string)
    | Granted(message: string, isRevisit: bool)

  /** The reply of `GET /api/admin-stats`: status 403 with an error, or the records and their count. */
  datatype AdminResponse =
    | Denied(status: nat, error: string)
    | Stats(count: nat, visits: seq<Visit>)

  /** A reply together with the collection as the request leaves it. */
  datatype Outcome = Outcome(response: FortuneResponse, visits: seq<Visit>)

  const FallbackFortune: string := "Весела Коледа! (Списъкът с късмети е празен)"
  const MissingDeviceIdError: string := "Липсва Device ID!"
  const AccessDeniedError: string := "Достъп отказан! Грешен ключ."

  /** Math.random() yields roll / RandomScale for some whole roll in [0, RandomScale) (2^53). */
  const RandomScale: nat := 0x20_0000_0000_0000

  /** `!deviceId` for a device id that is absent (undefined or null) or a string. */
  predicate IsFalsy(deviceId: Option<string>)
    ensures !IsFalsy(deviceId) <==> deviceId.Some? && |deviceId.value| > 0
  {
    deviceId.None? || deviceId.value == ""
  }

  /** The query `{ deviceId, date }`. */
  predicate SameDay(v: Visit, deviceId: string, date: string)
  {
    v.deviceId == deviceId && v.date == date
  }

  ghost predicate HasVisit(visits: seq<Visit>, deviceId: string, date: string)
  {
    exists i :: 0 <= i < |visits| && SameDay(visits[i], deviceId, date)
  }

  /** The collection holds at most one record per (device, date). */
  ghost predicate AtMostOnePerDay(visits: seq<Visit>)
  {
    forall i, j :: 0 <= i < j < |visits| ==> !SameDay(visits[j], visits[i].deviceId, visits[i].date)
  }

  /**
   * `findOne({ deviceId, date })`. MongoDB returns some matching document; the
   * model picks the first match in sequence order, which is the only one while
   * the collection keeps at most one record per (device, date).
   */
  function Lookup(visits: seq<Visit>, deviceId: string, date: string): (r: Option<Visit>)
    ensures r.None? <==> !HasVisit(visits, deviceId, date)
    ensures r.Some? ==> exists i :: 0 <= i < |visits| && visits[i] == r.value && SameDay(visits[i], deviceId, date)
                                    && forall j :: 0 <= j < i ==> !SameDay(visits[j], deviceId, date)
  {
    if visits == [] then None
    else if SameDay(visits[0], deviceId, date) then Some(visits[0])
    else
      var r := Lookup(visits[1..], deviceId, date);
      assert forall j :: 1 <= j < |visits| ==> visits[j] == visits[1..][j - 1];
      r
  }

  /** Appending a record only matters to a lookup that found nothing before. */
  lemma {:induction false} LookupAppend(visits: seq<Visit>, v: Visit, deviceId: string, date: string)
    ensures Lookup(visits + [v], deviceId, date)
         == if Lookup(visits, deviceId, date).Some? then Lookup(visits, deviceId, date)
            else if SameDay(v, deviceId, date) then Some(v) else None
  {
    if visits != [] {
      assert (visits + [v])[1..] == visits[1..] + [v];
      LookupAppend(visits[1..], v, deviceId, date);
    }
  }

  /** `Math.floor(Math.random() * n)` for the draw roll / RandomScale. */
  function PickIndex(roll: nat, n: nat): (i: nat)
    requires roll < RandomScale
    ensures n > 0 ==> i < n
  {
    if n > 0 then
      assert RandomScale * n - roll * n == (RandomScale - roll) * n > 0;
      DivBelow(roll * n, RandomScale, n);
      roll * n / RandomScale
    else 0
  }

  lemma DivBelow(a: nat, b: nat, n: nat)
    requires b > 0 && n > 0 && a < b * n
    ensures a / b < n
  {
    var q := a / b;
    assert q * b <= a;
  }

  /** A fortune from the pool, or the fixed fallback text when the pool is empty. */
  function PickFortune(pool: seq<string>, roll: nat): (f: string)
    requires roll < RandomScale
    ensures |pool| > 0 ==> f in pool
    ensures |pool| == 0 ==> f == FallbackFortune
  {
    if |pool| > 0 then pool[PickIndex(roll, |pool|)] else FallbackFortune
  }

  /** No fortune is out of reach: every index is the result of some draw. */
  lemma EveryIndexDrawable(n: nat, i: nat)
    requires i < n <= RandomScale
    ensures exists roll: nat :: roll < RandomScale && PickIndex(roll, n) == i
  {
    var roll := (i * RandomScale + n - 1) / n;
    assert roll * n <= i * RandomScale + n - 1 < roll * n + n;
    assert i * RandomScale <= roll * n < (i + 1) * RandomScale;
    assert roll < RandomScale by {
      assert roll * n < n * RandomScale;
    }
    assert PickIndex(roll, n) == i;
  }

  /**
   * The `POST /api/get-fortune` handler on the collection `visits`: reject a
   * falsy device id, hand back the stored fortune of a revisit, or draw, record
   * and hand back a new one.
   */
  function HandleGetFortune(visits: seq<Visit>, deviceId: Option<string>, today: string,
                            pool: seq<string>, roll: nat, now: int): (r: Outcome)
    requires roll < RandomScale
    ensures IsFalsy(deviceId) ==> r == Outcome(Rejected(400, MissingDeviceIdError), visits)
    ensures !IsFalsy(deviceId) ==> r.response.Granted?
    ensures !IsFalsy(deviceId) && HasVisit(visits, deviceId.value, today) ==>
              r.response.isRevisit && r.visits == visits &&
              exists i :: 0 <= i < |visits| && SameDay(visits[i], deviceId.value, today)
                          && visits[i].fortune == r.response.message
    ensures !IsFalsy(deviceId) && !HasVisit(visits, deviceId.value, today) ==>
              !r.response.isRevisit &&
              r.visits == visits + [Visit(deviceId.value, today, r.response.message, now, now)] &&
              (|pool| > 0 ==> r.response.message in pool) &&
              (|pool| == 0 ==> r.response.message == FallbackFortune)
  {
    if IsFalsy(deviceId) then Outcome(Rejected(400, MissingDeviceIdError), visits)
    else
      match Lookup(visits, deviceId.value, today)
      case Some(v) => Outcome(Granted(v.fortune, true), visits)
      case None =>
        var fortune := PickFortune(pool, roll);
        Outcome(Granted(fortune, false), visits + [Visit(deviceId.value, today, fortune, now, now)])
  }

  /** A second request by the same device on the same day gets the first one's fortune, and writes nothing. */
  lemma RevisitIsIdempotent(visits: seq<Visit>, deviceId: Option<string>, today: string, pool: seq<string>,
                            roll1: nat, now1: int, roll2: nat, now2: int)
    requires roll1 < RandomScale && roll2 < RandomScale
    requires !IsFalsy(deviceId)
    ensures var first := HandleGetFortune(visits, deviceId, today, pool, roll1, now1);
            HandleGetFortune(first.visits, deviceId, today, pool, roll2, now2)
              == Outcome(Granted(first.response.message, true), first.visits)
  {
    var first := HandleGetFortune(visits, deviceId, today, pool, roll1, now1);
    if Lookup(visits, deviceId.value, today).None? {
      LookupAppend(visits, Visit(deviceId.value, today, first.response.message, now1, now1), deviceId.value, today);
    }
  }

  /** A new day is a new draw: a fortune drawn on one day is never handed back on another. */
  lemma NewDayDrawsAgain(visits: seq<Visit>, deviceId: Option<string>, day1: string, day2: string,
                         pool: seq<string>, roll1: nat, now1: int, roll2: nat, now2: int)
    requires roll1 < RandomScale && roll2 < RandomScale
    requires !IsFalsy(deviceId) && day1 != day2 && !HasVisit(visits, deviceId.value, day2)
    ensures var first := HandleGetFortune(visits, deviceId, day1, pool, roll1, now1);
            var second := HandleGetFortune(first.visits, deviceId, day2, pool, roll2, now2);
            second.response.Granted? && !second.response.isRevisit &&
            second.response == HandleGetFortune(visits, deviceId, day2, pool, roll2, now2).response
  {
    var first := HandleGetFortune(visits, deviceId, day1, pool, roll1, now1);
    if Lookup(visits, deviceId.value, day1).None? {
      LookupAppend(visits, Visit(deviceId.value, day1, first.response.message, now1, now1), deviceId.value, day2);
    }
  }

  /** One request keeps "at most one record per (device, date)". */
  lemma HandlePreservesAtMostOne(visits: seq<Visit>, deviceId: Option<string>, today: string,
                                 pool: seq<string>, roll: nat, now: int)
    requires roll < RandomScale
    requires AtMostOnePerDay(visits)
    ensures AtMostOnePerDay(HandleGetFortune(visits, deviceId, today, pool, roll, now).visits)
  {
    var r := HandleGetFortune(visits, deviceId, today, pool, roll, now);
    if r.visits != visits {
      var s := r.visits;
      assert s[..|visits|] == visits;
      forall i, j | 0 <= i < j < |s|
        ensures !SameDay(s[j], s[i].deviceId, s[i].date)
      {
        if j == |visits| {
          assert s[i] == visits[i];
        } else {
          assert s[i] == visits[i] && s[j] == visits[j];
        }
      }
    }
  }

  /** One request of a run: who asks, on which day, with which draw, at which time. */
  datatype Request = Request(deviceId: Option<string>, today: string, roll: nat, now: int)

  ghost predicate RollsInRange(requests: seq<Request>)
  {
    forall k :: 0 <= k < |requests| ==> requests[k].roll < RandomScale
  }

  /** The collection after handling the requests one after another. */
  function RunSequentially(visits: seq<Visit>, pool: seq<string>, requests: seq<Request>): (r: seq<Visit>)
    requires RollsInRange(requests)
    ensures |visits| <= |r| <= |visits| + |requests|
    ensures r[..|visits|] == visits
    decreases |requests|
  {
    if requests == [] then visits
    else
      var q := requests[0];
      var next := HandleGetFortune(visits, q.deviceId, q.today, pool, q.roll, q.now).visits;
      assert RollsInRange(requests[1..]) by {
        forall k | 0 <= k < |requests[1..]| ensures requests[1..][k].roll < RandomScale {
          assert requests[1..][k] == requests[k + 1];
        }
      }
      var r := RunSequentially(next, pool, requests[1..]);
      assert r[..|visits|] == r[..|next|][..|visits|];
      r
  }

  /** Requests handled one at a time never leave two records for one (device, date). */
  lemma {:induction false} SequentialRunKeepsAtMostOne(visits: seq<Visit>, pool: seq<string>, requests: seq<Request>)
    requires RollsInRange(requests)
    requires AtMostOnePerDay(visits)
    ensures AtMostOnePerDay(RunSequentially(visits, pool, requests))
    decreases |requests|
  {
    if requests != [] {
      var q := requests[0];
      HandlePreservesAtMostOne(visits, q.deviceId, q.today, pool, q.roll, q.now);
      var next := HandleGetFortune(visits, q.deviceId, q.today, pool, q.roll, q.now).visits;
      assert RollsInRange(requests[1..]) by {
        forall k | 0 <= k < |requests[1..]| ensures requests[1..][k].roll < RandomScale {
          assert requests[1..][k] == requests[k + 1];
        }
      }
      SequentialRunKeepsAtMostOne(next, pool, requests[1..]);
    }
  }

  /**
   * Two first visits of one device on one day whose lookups both run before
   * either insert both miss, and both insert: the collection then has two
   * records, possibly with different fortunes, for that (device, date).
   */
  lemma InterleavedFirstVisitsInsertTwice(visits: seq<Visit>, deviceId: string, today: string,
                                          f1: string, f2: string, t1: int, t2: int)
    requires AtMostOnePerDay(visits) && !HasVisit(visits, deviceId, today)
    ensures Lookup(visits, deviceId, today).None?
    ensures !AtMostOnePerDay(visits + [Visit(deviceId, today, f1, t1, t1)] + [Visit(deviceId, today, f2, t2, t2)])
  {
    var s := visits + [Visit(deviceId, today, f1, t1, t1)] + [Visit(deviceId, today, f2, t2, t2)];
    assert SameDay(s[|visits| + 1], s[|visits|].deviceId, s[|visits|].date);
  }

  function CreatedAt(v: Visit): int
  {
    v.createdAt
  }

  /** `Visit.find().sort({ createdAt: -1 })` with its count: every record, newest first. */
  function Listing(visits: seq<Visit>): (r: AdminResponse)
    ensures r.Stats? && r.count == |visits| == |r.visits|
    ensures multiset(r.visits) == multiset(visits)
    ensures Sorting.SortedDesc(r.visits, CreatedAt)
  {
    Stats(|visits|, Sorting.SortDesc(visits, CreatedAt))
  }

  /** The gate as written, `secret !== ADMIN_SECRET`, where either side may be undefined. */
  function GateAsWritten(supplied: Option<string>, configured: Option<string>): (ok: bool)
    ensures ok <==> (supplied.None? && configured.None?) ||
                    (supplied.Some? && configured.Some? && supplied.value == configured.value)
  {
    supplied == configured
  }

  /** `GET /api/admin-stats` as written. */
  function AdminStatsAsWritten(visits: seq<Visit>, supplied: Option<string>, configured: Option<string>): (r: AdminResponse)
    ensures r.Denied? <==> supplied != configured
    ensures r.Denied? ==> r == Denied(403, AccessDeniedError)
    ensures !r.Denied? ==> r == Listing(visits)
  {
    if !GateAsWritten(supplied, configured) then Denied(403, AccessDeniedError) else Listing(visits)
  }

  /** With no secret configured, a request that sends no secret gets the whole collection. */
  lemma UnsetSecretOpensAdminStats(visits: seq<Visit>)
    ensures AdminStatsAsWritten(visits, None, None) == Listing(visits)
  {
  }

  /** The gate as intended: a secret must be configured and the supplied one must equal it. */
  function AdminGate(supplied: Option<string>, configured: Option<string>): (ok: bool)
    ensures configured.None? ==> !ok
    ensures configured.Some? ==> (ok <==> GateAsWritten(supplied, configured))
  {
    configured.Some? && supplied == configured
  }

  /** The visit collection and the two request handlers that use it. */
  class VisitStore {
    var visits: seq<Visit>
    /** `ADMIN_SECRET`, read once when the server starts; None when it is unset. */
    const adminSecret: Option<string>

    constructor (adminSecret: Option<string>)
      ensures visits == [] && this.adminSecret == adminSecret
    {
      visits := [];
      this.adminSecret := adminSecret;
    }

    /** `Visit.findOne({ deviceId, date })`. */
    method FindOne(deviceId: string, date: string) returns (found: Option<Visit>)
      ensures found == Lookup(visits, deviceId, date)
    {
      var i := 0;
      while i < |visits|
        invariant 0 <= i <= |visits|
        invariant Lookup(visits[i..], deviceId, date) == Lookup(visits, deviceId, date)
      {
        if SameDay(visits[i], deviceId, date) {
          return Some(visits[i]);
        }
        assert visits[i..][1..] == visits[i + 1..];
        i := i + 1;
      }
      return None;
    }

    /** `Visit.create(v)`: appends the record. */
    method Create(v: Visit)
      modifies this
      ensures visits == old(visits) + [v]
    {
      visits := visits + [v];
    }

    /** `POST /api/get-fortune`. */
    method GetFortune(deviceId: Option<string>, today: string, pool: seq<string>, roll: nat, now: int)
      returns (response: FortuneResponse)
      requires roll < RandomScale
      modifies this
      ensures Outcome(response, visits) == HandleGetFortune(old(visits), deviceId, today, pool, roll, now)
      ensures old(AtMostOnePerDay(visits)) ==> AtMostOnePerDay(visits)
    {
      ghost var before := visits;
      if IsFalsy(deviceId) {
        return Rejected(400, MissingDeviceIdError);
      }
      var found := FindOne(deviceId.value, today);
      if found.Some? {
        return Granted(found.value.fortune, true);
      }
      var fortune := PickFortune(pool, roll);
      Create(Visit(deviceId.value, today, fortune, now, now));
      response := Granted(fortune, false);
      if AtMostOnePerDay(before) {
        HandlePreservesAtMostOne(before, deviceId, today, pool, roll, now);
      }
    }

    /**
     * `GET /api/admin-stats` with the corrected gate: refuses before reading the
     * collection, or lists it newest first. It differs from the handler as
     * written only when no secret is configured.
     */
    method AdminStats(supplied: Option<string>) returns (response: AdminResponse)
      ensures adminSecret.Some? ==> response == AdminStatsAsWritten(visits, supplied, adminSecret)
      ensures !AdminGate(supplied, adminSecret) ==> response == Denied(403, AccessDeniedError)
      ensures AdminGate(supplied, adminSecret) ==>
                response.Stats? && response.count == |visits| == |response.visits| &&
                multiset(response.visits) == multiset(visits) &&
                Sorting.SortedDesc(response.visits, CreatedAt)
    {
      if !AdminGate(supplied, adminSecret) {
        return Denied(403, AccessDeniedError);
      }
      var all := visits;
      response := Listing(all);
    }
  }
}
