/** What the request table tells of a private cache: last accesses, placement records, and the hits credited to them. */
module Histories {
  import opened Model
  import opened Totals
  import opened Policies
  import opened Cache
  import opened CacheLaws
  import opened Protocol
  import opened Invariants
  import opened HandlerStreams
  import opened Placements

  /* ---- Last accesses ---- */

  /** A lookup by node `id` that found the object. */
  predicate HitOn(t: Track, id: nat, obj: nat) { t.request.source == id && t.request.obj == obj && t.hit }

  /** A placement that brought the object in. */
  predicate Brought(q: Record, obj: nat) { q.admitted && q.obj == obj }

  /** The node hit the object, or the object was brought in, at that time. */
  ghost predicate Accessed(id: nat, obj: nat, time: nat, records: seq<Record>, tracks: seq<Track>) {
    || (exists i {:trigger HitOn(tracks[i], id, obj)} ::
          0 <= i < |tracks| && HitOn(tracks[i], id, obj) && tracks[i].request.issueTime == time)
    || (exists j {:trigger Brought(records[j], obj)} ::
          0 <= j < |records| && Brought(records[j], obj) && records[j].time == time)
  }

  ghost predicate NotAccessedAfter(id: nat, obj: nat, time: nat, records: seq<Record>, tracks: seq<Track>) {
    && (forall i {:trigger HitOn(tracks[i], id, obj)} ::
          0 <= i < |tracks| && HitOn(tracks[i], id, obj) ==> tracks[i].request.issueTime <= time)
    && (forall j {:trigger Brought(records[j], obj)} ::
          0 <= j < |records| && Brought(records[j], obj) ==> records[j].time <= time)
  }

  /** The latest time at which the node hit the object or brought it in. */
  ghost predicate LastAccessed(id: nat, obj: nat, time: nat, records: seq<Record>, tracks: seq<Track>) {
    Accessed(id, obj, time, records, tracks) && NotAccessedAfter(id, obj, time, records, tracks)
  }

  ghost predicate Recent(id: nat, c: CacheState, tracks: seq<Track>) {
    forall o {:trigger LastAccessed(id, o, c.entries[o].lastAccess, c.records, tracks)} :: o in c.entries ==>
      LastAccessed(id, o, c.entries[o].lastAccess, c.records, tracks)
  }

  /* ---- Records ---- */

  /** An answered miss of node `id`. */
  predicate Resolved(t: Track, id: nat) { t.request.source == id && !t.hit && Answered(t.phase) }

  /** The attempt on the response of an answered miss, made when the response came. */
  predicate AttemptAt(q: Record, t: Track, id: nat) {
    && Resolved(t, id) && q.obj == t.request.obj && q.size == t.request.size && q.epoch == t.request.epoch
    && q.time == t.request.issueTime + t.latency
  }

  /** What a record says is so, and no later than `now`. */
  predicate RecordTold(q: Record, id: nat, tracks: seq<Track>, now: nat) {
    && q.node == id && q.time <= now && (q.reused <==> q.futureHits > 0)
    && (q.futureHits > 0 ==> q.admitted)
    && (q.evicted ==> q.admitted && q.time <= q.evictionTime <= now)
    && if q.request == 0 then q.admitted
       else Numbered(tracks, q.request) && AttemptAt(q, tracks[q.request - 1], id)
  }

  function IsAttempt(request: nat): Record -> nat {
    (q: Record) => if q.request == request then 1 else 0
  }

  ghost function Attempts(records: seq<Record>, request: nat): nat { SumBy(IsAttempt(request), records) }

  ghost predicate Told(id: nat, c: CacheState, tracks: seq<Track>, now: nat) {
    && (forall j {:trigger RecordTold(c.records[j], id, tracks, now)} :: 0 <= j < |c.records| ==>
          RecordTold(c.records[j], id, tracks, now))
    && (forall i {:trigger Resolved(tracks[i], id)} :: 0 <= i < |tracks| ==>
          Attempts(c.records, i + 1) == if Resolved(tracks[i], id) then 1 else 0)
  }

  /** The hits of node `id` on an object, and those credited to the placements of the object. */
  function IsHitOn(id: nat, obj: nat): Track -> nat {
    (t: Track) => if HitOn(t, id, obj) then 1 else 0
  }

  function HitsOf(obj: nat): Record -> nat {
    (q: Record) => if q.obj == obj then q.futureHits else 0
  }

  ghost function Hits(tracks: seq<Track>, id: nat, obj: nat): nat { SumBy(IsHitOn(id, obj), tracks) }

  ghost function Credits(records: seq<Record>, obj: nat): nat { SumBy(HitsOf(obj), records) }

  ghost predicate Credited(id: nat, c: CacheState, tracks: seq<Track>) {
    forall obj: nat {:trigger Credits(c.records, obj)} {:trigger Hits(tracks, id, obj)} ::
      Credits(c.records, obj) == Hits(tracks, id, obj)
  }

  /** The lookups of node `id` that hit, and those that missed. */
  function IsHitBy(id: nat): Track -> nat {
    (t: Track) => if t.request.source == id && t.hit then 1 else 0
  }

  function IsMissBy(id: nat): Track -> nat {
    (t: Track) => if t.request.source == id && !t.hit && t.phase != Looking then 1 else 0
  }

  /** The cache has counted its node's hits and misses. */
  ghost predicate Counted(id: nat, c: CacheState, tracks: seq<Track>) {
    c.hits == SumBy(IsHitBy(id), tracks) && c.misses == SumBy(IsMissBy(id), tracks)
  }

  /* ---- All together ---- */

  ghost predicate Past(tracks: seq<Track>, now: nat) {
    forall i :: 0 <= i < |tracks| ==> tracks[i].request.issueTime <= now
  }

  /** The history of a cache is that of its node's requests. */
  ghost predicate History(id: nat, c: CacheState, tracks: seq<Track>, now: nat) {
    && !c.policy.AlwaysRemote? && Past(tracks, now)
    && Recent(id, c, tracks) && Told(id, c, tracks, now) && Credited(id, c, tracks) && Counted(id, c, tracks)
  }

  lemma HistoryLater(id: nat, c: CacheState, tracks: seq<Track>, now: nat, later: nat)
    requires History(id, c, tracks, now) && now <= later
    ensures History(id, c, tracks, later)
  {
    forall j | 0 <= j < |c.records| ensures RecordTold(c.records[j], id, tracks, later) {
      assert RecordTold(c.records[j], id, tracks, now);
    }
  }

  /* ---- Requests that move without concerning the cache ---- */

  /** The request is the same, and as far as node `id` is concerned, so is what came of it. */
  predicate SameFor(t: Track, u: Track, id: nat) {
    SameRequest(t, u) &&
    (t.request.source == id ==>
       u.hit == t.hit && (u.phase == Looking <==> t.phase == Looking) &&
       (Answered(u.phase) && !u.hit <==> Answered(t.phase) && !t.hit) &&
       (Answered(t.phase) ==> u.latency == t.latency))
  }

  predicate JustIssued(t: Track, now: nat) { !t.hit && t.phase == Looking && t.request.issueTime <= now }

  /** Requests have moved or been issued, but node `id` has not seen any outcome. */
  predicate Quiet(tracks: seq<Track>, tracks': seq<Track>, id: nat, now: nat) {
    && |tracks| <= |tracks'|
    && (forall i {:trigger SameFor(tracks[i], tracks'[i], id)} :: 0 <= i < |tracks| ==>
          SameFor(tracks[i], tracks'[i], id))
    && (forall i {:trigger JustIssued(tracks'[i], now)} :: |tracks| <= i < |tracks'| ==> JustIssued(tracks'[i], now))
  }

  lemma {:induction false} QuietHits(tracks: seq<Track>, tracks': seq<Track>, id: nat, now: nat, obj: nat)
    requires Quiet(tracks, tracks', id, now)
    ensures Hits(tracks', id, obj) == Hits(tracks, id, obj)
    decreases |tracks'|
  {
    if tracks' != [] {
      var n := |tracks'| - 1;
      if |tracks| == |tracks'| {
        assert SameFor(tracks[n], tracks'[n], id);
        forall i | 0 <= i < n ensures SameFor(tracks[..n][i], tracks'[..n][i], id) {
          assert SameFor(tracks[i], tracks'[i], id);
        }
        QuietHits(tracks[..n], tracks'[..n], id, now, obj);
      } else {
        assert JustIssued(tracks'[n], now);
        forall i | 0 <= i < |tracks| ensures SameFor(tracks[i], tracks'[..n][i], id) {
          assert SameFor(tracks[i], tracks'[i], id);
        }
        forall i | |tracks| <= i < n ensures JustIssued(tracks'[..n][i], now) {
          assert JustIssued(tracks'[i], now);
        }
        QuietHits(tracks, tracks'[..n], id, now, obj);
      }
    }
  }

  lemma {:induction false} QuietCounts(tracks: seq<Track>, tracks': seq<Track>, id: nat, now: nat)
    requires Quiet(tracks, tracks', id, now)
    ensures SumBy(IsHitBy(id), tracks') == SumBy(IsHitBy(id), tracks)
    ensures SumBy(IsMissBy(id), tracks') == SumBy(IsMissBy(id), tracks)
    decreases |tracks'|
  {
    if tracks' != [] {
      var n := |tracks'| - 1;
      if |tracks| == |tracks'| {
        assert SameFor(tracks[n], tracks'[n], id);
        forall i | 0 <= i < n ensures SameFor(tracks[..n][i], tracks'[..n][i], id) {
          assert SameFor(tracks[i], tracks'[i], id);
        }
        QuietCounts(tracks[..n], tracks'[..n], id, now);
      } else {
        assert JustIssued(tracks'[n], now);
        forall i | 0 <= i < |tracks| ensures SameFor(tracks[i], tracks'[..n][i], id) {
          assert SameFor(tracks[i], tracks'[i], id);
        }
        forall i | |tracks| <= i < n ensures JustIssued(tracks'[..n][i], now) {
          assert JustIssued(tracks'[i], now);
        }
        QuietCounts(tracks, tracks'[..n], id, now);
      }
    }
  }

  lemma QuietRecent(id: nat, obj: nat, time: nat, records: seq<Record>, tracks: seq<Track>, tracks': seq<Track>,
                    now: nat)
    requires LastAccessed(id, obj, time, records, tracks) && Quiet(tracks, tracks', id, now)
    ensures LastAccessed(id, obj, time, records, tracks')
  {
    forall i | 0 <= i < |tracks'| && HitOn(tracks'[i], id, obj) ensures tracks'[i].request.issueTime <= time {
      assert i >= |tracks| ==> JustIssued(tracks'[i], now);
      assert SameFor(tracks[i], tracks'[i], id) && HitOn(tracks[i], id, obj);
    }
    if i :| 0 <= i < |tracks| && HitOn(tracks[i], id, obj) && tracks[i].request.issueTime == time {
      assert SameFor(tracks[i], tracks'[i], id) && HitOn(tracks'[i], id, obj);
    }
  }

  lemma QuietTold(id: nat, c: CacheState, tracks: seq<Track>, tracks': seq<Track>, now: nat)
    requires Told(id, c, tracks, now) && Quiet(tracks, tracks', id, now)
    ensures Told(id, c, tracks', now)
  {
    forall j | 0 <= j < |c.records| ensures RecordTold(c.records[j], id, tracks', now) {
      var q := c.records[j];
      assert RecordTold(q, id, tracks, now);
      if q.request != 0 {
        assert SameFor(tracks[q.request - 1], tracks'[q.request - 1], id);
      }
    }
    forall i | 0 <= i < |tracks'| ensures Attempts(c.records, i + 1) == if Resolved(tracks'[i], id) then 1 else 0 {
      if i < |tracks| {
        assert SameFor(tracks[i], tracks'[i], id);
        assert Resolved(tracks'[i], id) <==> Resolved(tracks[i], id);
      } else {
        assert JustIssued(tracks'[i], now);
        NoAttempts(id, c.records, tracks, now, i + 1);
      }
    }
  }

  /** No record names a request that has not been issued, or has not missed and been answered. */
  lemma {:induction false} NoAttempts(id: nat, records: seq<Record>, tracks: seq<Track>, now: nat, request: nat)
    requires forall j {:trigger RecordTold(records[j], id, tracks, now)} :: 0 <= j < |records| ==>
               RecordTold(records[j], id, tracks, now)
    requires request > 0 && (Numbered(tracks, request) ==> !Resolved(tracks[request - 1], id))
    ensures Attempts(records, request) == 0
  {
    if records != [] {
      var n := |records| - 1;
      assert RecordTold(records[n], id, tracks, now);
      forall j | 0 <= j < n ensures RecordTold(records[..n][j], id, tracks, now) {
        assert RecordTold(records[j], id, tracks, now);
      }
      NoAttempts(id, records[..n], tracks, now, request);
    }
  }

  /** A node's history stands while its cache does. */
  lemma HistoryRests(id: nat, c: CacheState, d: CacheState, tracks: seq<Track>, tracks': seq<Track>, now: nat)
    requires History(id, c, tracks, now) && Quiet(tracks, tracks', id, now)
    requires d.entries == c.entries && d.records == c.records && !d.policy.AlwaysRemote?
    requires d.hits == c.hits && d.misses == c.misses
    ensures History(id, d, tracks', now)
  {
    hide LastAccessed, Told, Hits, Credits;
    QuietCounts(tracks, tracks', id, now);
    forall o | o in d.entries ensures LastAccessed(id, o, d.entries[o].lastAccess, d.records, tracks') {
      assert LastAccessed(id, o, c.entries[o].lastAccess, c.records, tracks);
      QuietRecent(id, o, c.entries[o].lastAccess, c.records, tracks, tracks', now);
    }
    QuietTold(id, c, tracks, tracks', now);
    SameRecordsTold(id, c, d, tracks', now);
    forall obj: nat ensures Credits(d.records, obj) == Hits(tracks', id, obj) {
      QuietHits(tracks, tracks', id, now, obj);
    }
    QuietPast(tracks, tracks', id, now);
  }

  lemma SameRecordsTold(id: nat, c: CacheState, d: CacheState, tracks: seq<Track>, now: nat)
    requires Told(id, c, tracks, now) && d.records == c.records
    ensures Told(id, d, tracks, now)
  {
  }

  lemma QuietPast(tracks: seq<Track>, tracks': seq<Track>, id: nat, now: nat)
    requires Past(tracks, now) && Quiet(tracks, tracks', id, now)
    ensures Past(tracks', now)
  {
    forall i | 0 <= i < |tracks'| ensures tracks'[i].request.issueTime <= now {
      if i < |tracks| {
        assert SameFor(tracks[i], tracks'[i], id);
      } else {
        assert JustIssued(tracks'[i], now);
      }
    }
  }

  /* ---- Lookups ---- */

  /** The node looks up its request number `i + 1` now, and hits exactly if the object is resident. */
  predicate LooksUp(tracks: seq<Track>, tracks': seq<Track>, i: nat, id: nat, c: CacheState, now: nat) {
    && i < |tracks| == |tracks'| && tracks' == tracks[i := tracks'[i]] && SameRequest(tracks[i], tracks'[i])
    && tracks[i].request.source == id && tracks[i].request.issueTime == now && !tracks[i].hit
    && tracks[i].phase == Looking && tracks'[i].phase != Looking && !Answered(tracks'[i].phase)
    && (tracks'[i].hit <==> tracks[i].request.obj in c.entries)
  }

  /** A lookup counts a hit or a miss. */
  lemma LookupCounts(id: nat, c: CacheState, r: Request, tracks: seq<Track>, tracks': seq<Track>, i: nat, now: nat,
                     telemetry: Telemetry)
    requires Counted(id, c, tracks) && LooksUp(tracks, tracks', i, id, c, now) && r.obj == tracks[i].request.obj
    ensures Counted(id, Lookup(c, r, now, telemetry), tracks')
  {
    hide OnLookup, Touch, CreditHit;
    SumByUpdate(IsHitBy(id), tracks, i, tracks'[i]);
    SumByUpdate(IsMissBy(id), tracks, i, tracks'[i]);
  }

  /** A lookup that misses credits nothing; one that hits credits one hit to the object's open placement. */
  lemma LookupCredits(c: CacheState, r: Request, time: nat, telemetry: Telemetry, obj: nat)
    requires Sound(c)
    ensures var d := Lookup(c, r, time, telemetry);
            Credits(d.records, obj) == Credits(c.records, obj) + (if r.obj in c.entries && obj == r.obj then 1 else 0)
  {
    hide OnLookup, Touch;
    if r.obj in c.entries {
      var i := c.active[r.obj];
      var d := Lookup(c, r, time, telemetry);
      assert IsOpen(c.records[i], r.obj, c.entries[r.obj].size);
      SumByUpdate(HitsOf(obj), c.records, i, d.records[i]);
    }
  }

  /** Records that continue name the same requests. */
  lemma {:induction false} SameAttempts(before: seq<Record>, after: seq<Record>, time: nat, request: nat)
    requires AllContinue(before, after, time) && |after| == |before|
    ensures Attempts(after, request) == Attempts(before, request)
  {
    if before != [] {
      var n := |before| - 1;
      assert Continues(before[n], after[n], time);
      forall j | 0 <= j < n ensures Continues(before[..n][j], after[..n][j], time) {
        assert Continues(before[j], after[j], time);
      }
      SameAttempts(before[..n], after[..n], time, request);
    }
  }

  lemma RecordContinues(q: Record, p: Record, id: nat, tracks: seq<Track>, now: nat)
    requires RecordTold(q, id, tracks, now) && Continues(q, p, now) && (p.futureHits > 0 ==> p.admitted)
    ensures RecordTold(p, id, tracks, now)
  {
  }

  lemma RecordsPast(id: nat, c: CacheState, tracks: seq<Track>, now: nat)
    requires Told(id, c, tracks, now)
    ensures forall j :: 0 <= j < |c.records| ==> c.records[j].time <= now
  {
    forall j | 0 <= j < |c.records| ensures c.records[j].time <= now {
      assert RecordTold(c.records[j], id, tracks, now);
    }
  }

  /** What was accessed last is so after a lookup, unless it is the object that was hit. */
  lemma LookupRecent(id: nat, c: CacheState, r: Request, tracks: seq<Track>, tracks': seq<Track>, i: nat, now: nat,
                     telemetry: Telemetry)
    requires Sound(c) && History(id, c, tracks, now) && LooksUp(tracks, tracks', i, id, c, now)
    requires r.obj == tracks[i].request.obj
    ensures Recent(id, Lookup(c, r, now, telemetry), tracks')
  {
    hide Lookup, Sound, Told, Credited;
    var d := Lookup(c, r, now, telemetry);
    LookupContinues(c, r, now, telemetry);
    RecordsPast(id, c, tracks, now);
    forall o | o in d.entries ensures LastAccessed(id, o, d.entries[o].lastAccess, d.records, tracks') {
      assert LastAccessed(id, o, c.entries[o].lastAccess, c.records, tracks);
      if o == r.obj {
        assert HitOn(tracks'[i], id, o);
        AccessedNow(id, o, c.records, d.records, tracks, tracks', i, now);
      } else {
        AccessStands(id, o, c.entries[o].lastAccess, c.records, d.records, tracks, tracks', i, now);
      }
    }
  }

  lemma AccessedNow(id: nat, obj: nat, records: seq<Record>, records': seq<Record>, tracks: seq<Track>,
                    tracks': seq<Track>, i: nat, now: nat)
    requires i < |tracks| == |tracks'| && tracks' == tracks[i := tracks'[i]] && SameRequest(tracks[i], tracks'[i])
    requires HitOn(tracks'[i], id, obj) && tracks[i].request.issueTime == now && Past(tracks, now)
    requires AllContinue(records, records', now) && |records'| == |records|
    requires forall j :: 0 <= j < |records| ==> records[j].time <= now
    ensures LastAccessed(id, obj, now, records', tracks')
  {
    forall j | 0 <= j < |records'| && Brought(records'[j], obj) ensures records'[j].time <= now {
      assert Continues(records[j], records'[j], now);
    }
  }

  lemma AccessStands(id: nat, obj: nat, time: nat, records: seq<Record>, records': seq<Record>, tracks: seq<Track>,
                     tracks': seq<Track>, i: nat, now: nat)
    requires i < |tracks| == |tracks'| && tracks' == tracks[i := tracks'[i]] && SameRequest(tracks[i], tracks'[i])
    requires HitOn(tracks'[i], id, obj) <==> HitOn(tracks[i], id, obj)
    requires AllContinue(records, records', now)
    requires forall j :: |records| <= j < |records'| ==> !Brought(records'[j], obj)
    requires LastAccessed(id, obj, time, records, tracks)
    ensures LastAccessed(id, obj, time, records', tracks')
  {
    forall j | 0 <= j < |records'| && Brought(records'[j], obj) ensures records'[j].time <= time {
      assert Continues(records[j], records'[j], now) && Brought(records[j], obj);
    }
    forall j | 0 <= j < |tracks'| && HitOn(tracks'[j], id, obj) ensures tracks'[j].request.issueTime <= time {
      assert HitOn(tracks[j], id, obj);
    }
    if j :| 0 <= j < |tracks| && HitOn(tracks[j], id, obj) && tracks[j].request.issueTime == time {
      assert HitOn(tracks'[j], id, obj);
    } else {
      var j :| 0 <= j < |records| && Brought(records[j], obj) && records[j].time == time;
      assert Continues(records[j], records'[j], now) && Brought(records'[j], obj);
    }
  }

  /** The placement that a hit is credited to was an admission. */
  lemma CreditsAdmitted(c: CacheState, r: Request, time: nat, telemetry: Telemetry)
    requires Sound(c) && forall j :: 0 <= j < |c.records| && c.records[j].futureHits > 0 ==> c.records[j].admitted
    ensures var d := Lookup(c, r, time, telemetry);
            forall j :: 0 <= j < |d.records| && d.records[j].futureHits > 0 ==> d.records[j].admitted
  {
    hide OnLookup, Touch;
    if r.obj in c.entries {
      assert IsOpen(c.records[c.active[r.obj]], r.obj, c.entries[r.obj].size);
    }
  }

  lemma CreditsOnAdmitted(id: nat, c: CacheState, tracks: seq<Track>, now: nat)
    requires Told(id, c, tracks, now)
    ensures forall j :: 0 <= j < |c.records| && c.records[j].futureHits > 0 ==> c.records[j].admitted
  {
    forall j | 0 <= j < |c.records| && c.records[j].futureHits > 0 ensures c.records[j].admitted {
      assert RecordTold(c.records[j], id, tracks, now);
    }
  }

  /** Records that continue say what they said, of requests that move without concerning them. */
  lemma ToldContinues(id: nat, c: CacheState, d: CacheState, tracks: seq<Track>, now: nat)
    requires Told(id, c, tracks, now) && AllContinue(c.records, d.records, now) && |d.records| == |c.records|
    requires forall j :: 0 <= j < |d.records| && d.records[j].futureHits > 0 ==> d.records[j].admitted
    ensures Told(id, d, tracks, now)
  {
    forall j | 0 <= j < |d.records| ensures RecordTold(d.records[j], id, tracks, now) {
      assert RecordTold(c.records[j], id, tracks, now) && Continues(c.records[j], d.records[j], now);
      RecordContinues(c.records[j], d.records[j], id, tracks, now);
    }
    forall i | 0 <= i < |tracks| ensures Attempts(d.records, i + 1) == if Resolved(tracks[i], id) then 1 else 0 {
      SameAttempts(c.records, d.records, now, i + 1);
    }
  }

  /** A request that is looked up is not answered yet, so nothing is told of it. */
  lemma LookedUpTold(id: nat, c: CacheState, tracks: seq<Track>, tracks': seq<Track>, i: nat, now: nat)
    requires Told(id, c, tracks, now) && i < |tracks| == |tracks'| && tracks' == tracks[i := tracks'[i]]
    requires SameRequest(tracks[i], tracks'[i]) && !Answered(tracks[i].phase) && !Answered(tracks'[i].phase)
    ensures Told(id, c, tracks', now)
  {
    forall j | 0 <= j < |c.records| ensures RecordTold(c.records[j], id, tracks', now) {
      assert RecordTold(c.records[j], id, tracks, now);
    }
    forall j | 0 <= j < |tracks'| ensures Attempts(c.records, j + 1) == if Resolved(tracks'[j], id) then 1 else 0 {
      assert Resolved(tracks'[j], id) <==> Resolved(tracks[j], id);
    }
  }

  lemma LookupCredited(id: nat, c: CacheState, r: Request, tracks: seq<Track>, tracks': seq<Track>, i: nat, now: nat,
                       telemetry: Telemetry)
    requires Sound(c) && Credited(id, c, tracks) && LooksUp(tracks, tracks', i, id, c, now)
    requires r.obj == tracks[i].request.obj
    ensures Credited(id, Lookup(c, r, now, telemetry), tracks')
  {
    hide Lookup, Sound;
    var d := Lookup(c, r, now, telemetry);
    forall obj: nat ensures Credits(d.records, obj) == Hits(tracks', id, obj) {
      LookupCredits(c, r, now, telemetry, obj);
      assert Credits(c.records, obj) == Hits(tracks, id, obj);
      SumByUpdate(IsHitOn(id, obj), tracks, i, tracks'[i]);
    }
  }

  lemma LookupKind(c: CacheState, r: Request, time: nat, telemetry: Telemetry)
    ensures Lookup(c, r, time, telemetry).policy.AlwaysRemote? == c.policy.AlwaysRemote?
  {
    hide HotnessLookup, ContentionLookup, CreditHit, Touch;
  }

  lemma LookupHistory(id: nat, c: CacheState, r: Request, tracks: seq<Track>, tracks': seq<Track>, i: nat, now: nat,
                      telemetry: Telemetry)
    requires Sound(c) && History(id, c, tracks, now) && LooksUp(tracks, tracks', i, id, c, now)
    requires r.obj == tracks[i].request.obj
    ensures History(id, Lookup(c, r, now, telemetry), tracks', now)
  {
    LookupRecent(id, c, r, tracks, tracks', i, now, telemetry);
    LookupContinues(c, r, now, telemetry);
    LookupCounts(id, c, r, tracks, tracks', i, now, telemetry);
    hide Lookup, Sound, Recent, Told, Credited, AllContinue, Counted;
    var d := Lookup(c, r, now, telemetry);
    CreditsOnAdmitted(id, c, tracks, now);
    CreditsAdmitted(c, r, now, telemetry);
    ToldContinues(id, c, d, tracks, now);
    LookedUpTold(id, d, tracks, tracks', i, now);
    LookupCredited(id, c, r, tracks, tracks', i, now, telemetry);
    LookupKind(c, r, now, telemetry);
  }

  /* ---- Admissions ---- */

  /** The response to the node's own miss number `i + 1` comes now. */
  predicate Answers(tracks: seq<Track>, tracks': seq<Track>, i: nat, id: nat, now: nat) {
    && i < |tracks| == |tracks'| && tracks' == tracks[i := tracks'[i]] && SameRequest(tracks[i], tracks'[i])
    && tracks[i].request.source == id && tracks[i].request.id == i + 1
    && !tracks[i].hit && !tracks'[i].hit && tracks[i].phase != Looking
    && !Answered(tracks[i].phase) && Answered(tracks'[i].phase)
    && now == tracks[i].request.issueTime + tracks'[i].latency
  }

  /** Records that continue with the same hits in sum have the same hits each. */
  lemma {:induction false} SameHits(before: seq<Record>, after: seq<Record>, time: nat)
    requires AllContinue(before, after, time) && |after| == |before|
    ensures SumBy(FutureHits, before) <= SumBy(FutureHits, after)
    ensures SumBy(FutureHits, after) == SumBy(FutureHits, before) ==>
              forall obj: nat :: Credits(after, obj) == Credits(before, obj)
    ensures SumBy(FutureHits, after) == SumBy(FutureHits, before) ==>
              forall j :: 0 <= j < |before| ==> after[j].futureHits == before[j].futureHits
  {
    if before != [] {
      var n := |before| - 1;
      assert Continues(before[n], after[n], time);
      forall j | 0 <= j < n ensures Continues(before[..n][j], after[..n][j], time) {
        assert Continues(before[j], after[j], time);
      }
      SameHits(before[..n], after[..n], time);
      if SumBy(FutureHits, after) == SumBy(FutureHits, before) {
        forall obj: nat ensures Credits(after, obj) == Credits(before, obj) {
          assert Credits(after[..n], obj) == Credits(before[..n], obj);
        }
        forall j | 0 <= j < |before| ensures after[j].futureHits == before[j].futureHits {
          assert j < n ==> after[..n][j].futureHits == before[..n][j].futureHits;
        }
      }
    }
  }

  lemma {:induction false} EvictAllSameHits(c: CacheState, victims: seq<nat>, time: nat)
    ensures EvictAll(c, victims, time).hits == c.hits && EvictAll(c, victims, time).misses == c.misses
    decreases |victims|
  {
    if victims != [] {
      EvictAllSameHits(Evict(c, victims[0], time), victims[1..], time);
    }
  }

  /** An attempt counts nothing. */
  lemma AdmitCounts(c: CacheState, r: Request, time: nat)
    ensures Admit(c, r, time).hits == c.hits && Admit(c, r, time).misses == c.misses
  {
    hide PlanVictims, Admits, EvictAll;
    EvictAllSameHits(c, PlanVictims(c.policy, c.entries, c.occupancy, c.capacity, r).victims, time);
  }

  /** An attempt credits nothing. */
  lemma AdmitCredits(c: CacheState, r: Request, time: nat, obj: nat)
    requires Sound(c)
    ensures var d := Admit(c, r, time);
            && |d.records| == |c.records| + 1 && Credits(d.records, obj) == Credits(c.records, obj)
            && forall j :: 0 <= j < |c.records| ==> d.records[j].futureHits == c.records[j].futureHits
  {
    hide PlanVictims, Admits, AllContinue, EvictAll;
    var d, n := Admit(c, r, time), |c.records|;
    AdmitContinues(c, r, time);
    AdmitKeeps(c, r, time);
    AdmitCounts(c, r, time);
    assert d.records == d.records[..n] + [d.records[n]];
    SumByAppend(FutureHits, d.records[..n], d.records[n]);
    SumByAppend(HitsOf(obj), d.records[..n], d.records[n]);
    FirstContinue(c.records, d.records, time);
    SameHits(c.records, d.records[..n], time);
  }

  lemma FirstContinue(before: seq<Record>, after: seq<Record>, time: nat)
    requires AllContinue(before, after, time)
    ensures AllContinue(before, after[..|before|], time)
  {
    forall j | 0 <= j < |before| ensures Continues(before[j], after[..|before|][j], time) {
      assert Continues(before[j], after[j], time);
    }
  }

  lemma AdmitRecent(id: nat, c: CacheState, r: Request, tracks: seq<Track>, tracks': seq<Track>, i: nat, now: nat)
    requires Sound(c) && History(id, c, tracks, now) && Answers(tracks, tracks', i, id, now)
    ensures Recent(id, Admit(c, r, now), tracks')
  {
    hide Admit, Sound, Told, Credited, Succeeds;
    var d, n := Admit(c, r, now), |c.records|;
    AdmitContinues(c, r, now);
    RecordsPast(id, c, tracks, now);
    var admitted := Succeeds(c, r);
    forall o | o in d.entries ensures LastAccessed(id, o, d.entries[o].lastAccess, d.records, tracks') {
      if admitted && o == r.obj {
        assert Brought(d.records[n], o);
        BroughtNow(id, o, c.records, d.records, tracks, tracks', now);
      } else {
        assert LastAccessed(id, o, c.entries[o].lastAccess, c.records, tracks);
        AccessStands(id, o, c.entries[o].lastAccess, c.records, d.records, tracks, tracks', i, now);
      }
    }
  }

  /** Nothing was accessed later than what has just been brought in. */
  lemma BroughtNow(id: nat, obj: nat, records: seq<Record>, records': seq<Record>, tracks: seq<Track>,
                   tracks': seq<Track>, now: nat)
    requires AllContinue(records, records', now) && Past(tracks', now)
    requires forall j :: 0 <= j < |records| ==> records[j].time <= now
    requires forall j :: |records| <= j < |records'| ==> records'[j].time <= now
    requires exists j {:trigger Brought(records'[j], obj)} ::
               |records| <= j < |records'| && Brought(records'[j], obj) && records'[j].time == now
    ensures LastAccessed(id, obj, now, records', tracks')
  {
    forall j | 0 <= j < |records'| ensures records'[j].time <= now {
      assert j < |records| ==> Continues(records[j], records'[j], now);
    }
  }

  lemma AdmitTold(id: nat, c: CacheState, r: Request, tracks: seq<Track>, tracks': seq<Track>, i: nat, now: nat)
    requires Sound(c) && Told(id, c, tracks, now) && Answers(tracks, tracks', i, id, now) && r == tracks[i].request
    ensures Told(id, Admit(c, r, now), tracks', now)
  {
    hide Admit, Sound, Succeeds;
    var d, n := Admit(c, r, now), |c.records|;
    AdmitContinues(c, r, now);
    AdmitCredits(c, r, now, 0);
    forall j | 0 <= j < |d.records| ensures RecordTold(d.records[j], id, tracks', now) {
      if j < n {
        assert RecordTold(c.records[j], id, tracks, now) && Continues(c.records[j], d.records[j], now);
      } else {
        assert AttemptAt(d.records[n], tracks'[i], id);
      }
    }
    assert d.records == d.records[..n] + [d.records[n]];
    FirstContinue(c.records, d.records, now);
    forall k | 0 <= k < |tracks'| ensures Attempts(d.records, k + 1) == if Resolved(tracks'[k], id) then 1 else 0 {
      SameAttempts(c.records, d.records[..n], now, k + 1);
      SumByAppend(IsAttempt(k + 1), d.records[..n], d.records[n]);
      assert Attempts(c.records, k + 1) == if Resolved(tracks[k], id) then 1 else 0;
    }
  }

  lemma AdmitHistory(id: nat, c: CacheState, r: Request, tracks: seq<Track>, tracks': seq<Track>, i: nat, now: nat)
    requires Sound(c) && History(id, c, tracks, now) && Answers(tracks, tracks', i, id, now) && r == tracks[i].request
    ensures History(id, Admit(c, r, now), tracks', now)
  {
    hide Admit, Sound, Recent, Told;
    var d := Admit(c, r, now);
    AdmitCounts(c, r, now);
    SumByUpdate(IsHitBy(id), tracks, i, tracks'[i]);
    SumByUpdate(IsMissBy(id), tracks, i, tracks'[i]);
    AdmitRecent(id, c, r, tracks, tracks', i, now);
    AdmitTold(id, c, r, tracks, tracks', i, now);
    AdmitSamePolicy(c, r, now);
    forall obj: nat ensures Credits(d.records, obj) == Hits(tracks', id, obj) {
      AdmitCredits(c, r, now, obj);
      SumByUpdate(IsHitOn(id, obj), tracks, i, tracks'[i]);
      assert Credits(c.records, obj) == Hits(tracks, id, obj);
    }
  }

  /* ---- Installations ---- */

  lemma {:induction false} ReplicasCredit(records: seq<Record>, first: nat, node: nat, epoch: nat, time: nat)
    requires first <= |records| && ReplicasFrom(records, first, node, epoch, time)
    ensures SumBy(FutureHits, records) == SumBy(FutureHits, records[..first])
    ensures forall obj: nat :: Credits(records, obj) == Credits(records[..first], obj)
    ensures forall request: nat :: request > 0 ==> Attempts(records, request) == Attempts(records[..first], request)
  {
    if |records| > first {
      var n := |records| - 1;
      assert ReplicaOf(records[n], node, epoch, time);
      assert records[..n][..first] == records[..first];
      ReplicasCredit(records[..n], first, node, epoch, time);
    } else {
      assert records[..first] == records;
    }
  }

  lemma InstallHistory(id: nat, c: CacheState, replicas: seq<Replica>, tracks: seq<Track>, now: nat, epoch: nat)
    requires Sound(c) && History(id, c, tracks, now)
    ensures History(id, Install(c, replicas, now, id, epoch), tracks, now)
  {
    InstallContinues(c, replicas, now, id, epoch);
    InstallKeeps(c, replicas, now, id, epoch);
    var d, n := Install(c, replicas, now, id, epoch), |c.records|;
    assert c.hits == SumBy(FutureHits, c.records) && d.hits == SumBy(FutureHits, d.records);
    hide Install, Sound, Recent, Told;
    FirstContinue(c.records, d.records, now);
    ReplicasCredit(d.records, n, id, epoch, now);
    SameHits(c.records, d.records[..n], now);
    InstallRecent(id, c, d, tracks, now, epoch);
    InstallTold(id, c, d, tracks, now, epoch);
    forall obj: nat ensures Credits(d.records, obj) == Hits(tracks, id, obj) {
      assert Credits(c.records, obj) == Hits(tracks, id, obj);
    }
  }

  lemma InstallRecent(id: nat, c: CacheState, d: CacheState, tracks: seq<Track>, now: nat, epoch: nat)
    requires Past(tracks, now) && Told(id, c, tracks, now) && AllContinue(c.records, d.records, now)
    requires ReplicasFrom(d.records, |c.records|, id, epoch, now) && AllNew(d, |c.records|, now)
    ensures Recent(id, d, tracks)
  {
    RecordsPast(id, c, tracks, now);
    forall o | o in d.entries ensures LastAccessed(id, o, d.entries[o].lastAccess, d.records, tracks) {
      var j :| |c.records| <= j < |d.records| && d.records[j].obj == o;
      assert Brought(d.records[j], o);
      BroughtNow(id, o, c.records, d.records, tracks, tracks, now);
    }
  }

  lemma InstallTold(id: nat, c: CacheState, d: CacheState, tracks: seq<Track>, now: nat, epoch: nat)
    requires Told(id, c, tracks, now) && AllContinue(c.records, d.records, now)
    requires ReplicasFrom(d.records, |c.records|, id, epoch, now)
    requires forall j :: 0 <= j < |c.records| ==> d.records[j].futureHits == c.records[j].futureHits
    ensures Told(id, d, tracks, now)
  {
    var n := |c.records|;
    forall j | 0 <= j < |d.records| ensures RecordTold(d.records[j], id, tracks, now) {
      assert j < n ==> RecordTold(c.records[j], id, tracks, now) && Continues(c.records[j], d.records[j], now);
    }
    FirstContinue(c.records, d.records, now);
    ReplicasCredit(d.records, n, id, epoch, now);
    forall k | 0 <= k < |tracks| ensures Attempts(d.records, k + 1) == if Resolved(tracks[k], id) then 1 else 0 {
      SameAttempts(c.records, d.records[..n], now, k + 1);
    }
  }
}
