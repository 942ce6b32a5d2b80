/** The sliding-window rate limiter (apps/api/parlio_api/observability.py). */
module RateLimiting {

  const WINDOW: real := 60.0

  predicate Ordered(hits: seq<real>) {
    forall i, j | 0 <= i < j < |hits| :: hits[i] <= hits[j]
  }

  /** Hits no more than a window before `t`. */
  function Recent(hits: seq<real>, t: real): nat {
    if hits == [] then 0 else (if t - hits[0] > WINDOW then 0 else 1) + Recent(hits[1..], t)
  }

  /** Hits in the closed window that begins at `x`. */
  function InWindow(hits: seq<real>, x: real): nat {
    if hits == [] then 0 else (if x <= hits[0] <= x + WINDOW then 1 else 0) + InWindow(hits[1..], x)
  }

  lemma {:induction false} RecentSplit(hits: seq<real>, d: nat, t: real)
    requires d <= |hits|
    ensures Recent(hits, t) == Recent(hits[..d], t) + Recent(hits[d..], t)
    decreases |hits|
  {
    if d > 0 {
      RecentSplit(hits[1..], d - 1, t);
      assert hits[..d][1..] == hits[1..][..d - 1] && hits[1..][d - 1..] == hits[d..];
    } else {
      assert hits[..0] == [] && hits[0..] == hits;
    }
  }

  lemma {:induction false} NoneRecent(hits: seq<real>, t: real)
    requires forall i | 0 <= i < |hits| :: t - hits[i] > WINDOW
    ensures Recent(hits, t) == 0
  {
    if hits != [] {
      NoneRecent(hits[1..], t);
    }
  }

  lemma {:induction false} AllRecent(hits: seq<real>, t: real)
    requires forall i | 0 <= i < |hits| :: !(t - hits[i] > WINDOW)
    ensures Recent(hits, t) == |hits|
  {
    if hits != [] {
      AllRecent(hits[1..], t);
    }
  }

  // -- every history the limiter accepts --------------------------------------------------------

  /** Each hit was let in while fewer than `limit` were recent. */
  ghost predicate Admissible(hits: seq<real>, limit: int) {
    Ordered(hits) && forall k | 0 <= k < |hits| :: Recent(hits[..k], hits[k]) < limit
  }

  lemma {:induction false} WindowSnoc(hits: seq<real>, h: real, x: real)
    ensures InWindow(hits + [h], x) == InWindow(hits, x) + (if x <= h <= x + WINDOW then 1 else 0)
  {
    if hits == [] {
      assert hits + [h] == [h] && [h][1..] == [];
    } else {
      WindowSnoc(hits[1..], h, x);
      assert (hits + [h])[1..] == hits[1..] + [h];
    }
  }

  lemma {:induction false} WindowIsRecent(hits: seq<real>, x: real, t: real)
    requires t <= x + WINDOW
    ensures InWindow(hits, x) <= Recent(hits, t)
  {
    if hits != [] {
      WindowIsRecent(hits[1..], x, t);
    }
  }

  /** No closed window of sixty seconds, wherever it begins, holds more than `limit` accepted hits. */
  lemma {:induction false} WindowsWithinLimit(hits: seq<real>, limit: int, x: real)
    requires Admissible(hits, limit)
    ensures InWindow(hits, x) <= if limit < 0 then 0 else limit
  {
    if hits != [] {
      var n := |hits| - 1;
      var front := hits[..n];
      assert hits == front + [hits[n]];
      assert forall k | 0 <= k < n :: front[..k] == hits[..k];
      WindowsWithinLimit(front, limit, x);
      WindowSnoc(front, hits[n], x);
      if x <= hits[n] <= x + WINDOW {
        WindowIsRecent(front, x, hits[n]);
      }
    }
  }

  /** The history after requests at the given times, of which only some are let in. */
  function Admitted(hits: seq<real>, limit: int, times: seq<real>): seq<real>
    decreases |times|
  {
    if times == [] then hits
    else Admitted(if Recent(hits, times[0]) < limit then hits + [times[0]] else hits, limit, times[1..])
  }

  lemma AppendAdmissible(hits: seq<real>, limit: int, t: real)
    requires Admissible(hits, limit) && Recent(hits, t) < limit && forall h | h in hits :: h <= t
    ensures Admissible(hits + [t], limit)
  {
    var more := hits + [t];
    assert forall k | 0 <= k < |hits| :: more[..k] == hits[..k] && more[k] in hits;
    assert more[..|hits|] == hits;
  }

  lemma {:induction false} AdmittedIsAdmissible(hits: seq<real>, limit: int, times: seq<real>)
    requires Admissible(hits, limit) && Ordered(times)
    requires forall h, t | h in hits && t in times :: h <= t
    ensures Admissible(Admitted(hits, limit, times), limit)
    decreases |times|
  {
    if times != [] {
      var t, rest := times[0], times[1..];
      assert forall i | 0 <= i < |rest| :: rest[i] == times[i + 1] && rest[i] in times;
      if Recent(hits, t) < limit {
        assert t in times;
        AppendAdmissible(hits, limit, t);
        AdmittedIsAdmissible(hits + [t], limit, rest);
      } else {
        AdmittedIsAdmissible(hits, limit, rest);
      }
    }
  }

  /** Over any run of requests on a clock that never runs backwards. */
  lemma RateIsLimited(limit: int, times: seq<real>, x: real)
    requires Ordered(times)
    ensures InWindow(Admitted([], limit, times), x) <= if limit < 0 then 0 else limit
  {
    AdmittedIsAdmissible([], limit, times);
    WindowsWithinLimit(Admitted([], limit, times), limit, x);
  }

  // -- the limiter -----------------------------------------------------------------------------

  /** Hits pruned so far had all grown too old by `seen`; those kept are in order. */
  ghost predicate Keeps(gone: seq<real>, q: seq<real>, seen: real) {
    && Ordered(q)
    && (forall i | 0 <= i < |gone| :: seen - gone[i] > WINDOW)
    && (forall i | 0 <= i < |q| :: q[i] <= seen)
  }

  function At<T>(m: map<string, T>, key: string, missing: T): T {
    if key in m then m[key] else missing
  }

  /** The deques, with the hits pruned from them in the past and the time of the last request, by key. */
  datatype Track = Track(hits: map<string, seq<real>>, gone: map<string, seq<real>>, seen: map<string, real>) {
    /** All hits ever let in for a key. */
    function Whole(key: string): seq<real> {
      At(gone, key, []) + At(hits, key, [])
    }

    ghost predicate Sound() {
      && gone.Keys == hits.Keys == seen.Keys
      && forall key | key in hits :: Keeps(gone[key], hits[key], seen[key])
    }

    function Next(key: string, g: seq<real>, q: seq<real>, now: real): Track {
      Track(hits[key := q], gone[key := g], seen[key := now])
    }
  }

  lemma SoundFor(t: Track, key: string, now: real)
    requires t.Sound()
    ensures Keeps(At(t.gone, key, []), At(t.hits, key, []), At(t.seen, key, now))
  {
  }

  lemma SoundAfter(t: Track, key: string, g: seq<real>, q: seq<real>, now: real)
    requires t.Sound() && Keeps(g, q, now)
    ensures t.Next(key, g, q, now).Sound()
  {
  }

  class RateLimiter {
    const perMinute: int
    var overrides: map<string, int>
    var hits: map<string, seq<real>>
    ghost var track: Track

    constructor (perMinute: int)
      ensures this.perMinute == perMinute && Valid() && overrides == map[]
      ensures track == Track(map[], map[], map[])
    {
      this.perMinute := perMinute;
      overrides, hits, track := map[], map[], Track(map[], map[], map[]);
    }

    function Limit(key: string): int
      reads this
    {
      if key in overrides then overrides[key] else perMinute
    }

    ghost predicate Valid()
      reads this
    {
      track.hits == hits && track.Sound()
    }

    /**
     A request is let in exactly when fewer than the limit were let in during the last minute, over
     the whole history and not just what is kept; what remains is exact; other keys are unaffected.
     */
    method Check(key: string, now: real) returns (allowed: bool, remaining: int)
      requires Valid() && At(track.seen, key, now) <= now
      modifies `hits, `track
      ensures Valid() && Checked(old(track), Request(key, now, Limit(key)), Answer(allowed, remaining), track)
    {
      var limit := if key in overrides then overrides[key] else perMinute;
      ghost var u;
      var q;
      q, allowed, remaining, u := CheckKey(track, if key in hits then hits[key] else [], Request(key, now, limit));
      hits, track := hits[key := q], u;
    }
  }

  datatype Request = Request(key: string, now: real, limit: int)

  datatype Answer = Answer(allowed: bool, remaining: int)

  /** With `recent` hits in the last minute; what remains counts this one. */
  function AnswerTo(recent: nat, limit: int): Answer {
    if recent < limit then Answer(true, limit - (recent + 1)) else Answer(false, 0)
  }

  /** The answer to one request, and what it does: to the history of its key, and to nothing else. */
  ghost predicate Checked(t: Track, r: Request, a: Answer, u: Track) {
    && a == AnswerTo(Recent(t.Whole(r.key), r.now), r.limit)
    && u.Whole(r.key) == (if a.allowed then t.Whole(r.key) + [r.now] else t.Whole(r.key))
    && At(t.seen, r.key, r.now) <= r.now
    && r.key in u.hits && r.key in u.gone && u == t.Next(r.key, u.gone[r.key], u.hits[r.key], r.now)
  }

  method CheckKey(ghost t: Track, kept: seq<real>, r: Request)
    returns (q: seq<real>, allowed: bool, remaining: int, ghost u: Track)
    requires t.Sound() && kept == At(t.hits, r.key, []) && At(t.seen, r.key, r.now) <= r.now
    ensures u.Sound() && u.hits == t.hits[r.key := q] && Checked(t, r, Answer(allowed, remaining), u)
  {
    SoundFor(t, r.key, r.now);
    ghost var g;
    q, g, allowed, remaining := Admit(kept, r.now, r.limit, At(t.gone, r.key, []), At(t.seen, r.key, r.now));
    SoundAfter(t, r.key, g, q, r.now);
    u := t.Next(r.key, g, q, r.now);
  }

  /** One request against the hits kept for its key. */
  method Admit(kept: seq<real>, now: real, limit: int, ghost pruned: seq<real>, ghost seen: real)
    returns (q: seq<real>, ghost gone: seq<real>, allowed: bool, remaining: int)
    requires Keeps(pruned, kept, seen) && seen <= now
    ensures Keeps(gone, q, now)
    ensures gone + q == if allowed then pruned + kept + [now] else pruned + kept
    ensures allowed <==> Recent(pruned + kept, now) < limit
    ensures remaining == if allowed then limit - (Recent(pruned + kept, now) + 1) else 0
  {
    q, gone := Prune(kept, now, pruned, seen);
    KeptAreRecent(gone, q, now);
    if |q| >= limit {
      return q, gone, false, 0;
    }
    assert gone + (q + [now]) == gone + q + [now];
    q := q + [now];
    return q, gone, true, limit - |q|;
  }

  /** Hits older than the window leave at the front. */
  method Prune(kept: seq<real>, now: real, ghost pruned: seq<real>, ghost seen: real)
    returns (q: seq<real>, ghost gone: seq<real>)
    requires Keeps(pruned, kept, seen) && seen <= now
    ensures Keeps(gone, q, now) && gone + q == pruned + kept
    ensures q != [] ==> !(now - q[0] > WINDOW)
  {
    q, gone := kept, pruned;
    while q != [] && now - q[0] > WINDOW
      invariant Keeps(gone, q, now) && gone + q == pruned + kept
      decreases |q|
    {
      assert (gone + [q[0]]) + q[1..] == gone + q;
      gone, q := gone + [q[0]], q[1..];
    }
  }

  /** After pruning, the deque's length is the number of recent hits in the whole history. */
  lemma KeptAreRecent(gone: seq<real>, q: seq<real>, now: real)
    requires Keeps(gone, q, now) && (q != [] ==> !(now - q[0] > WINDOW))
    ensures Recent(gone + q, now) == |q|
  {
    var all := gone + q;
    RecentSplit(all, |gone|, now);
    assert all[..|gone|] == gone && all[|gone|..] == q;
    NoneRecent(gone, now);
    assert forall i | 0 <= i < |q| :: q[i] == all[|gone| + i] && q[0] == all[|gone|];
    AllRecent(q, now);
  }

  // -- runs of the limiter -----------------------------------------------------------------------

  /** `tracks` is what a run of requests makes of the limiter, from its construction. */
  ghost predicate Served(tracks: seq<Track>, requests: seq<Request>, answers: seq<Answer>) {
    && |tracks| == |requests| + 1 == |answers| + 1
    && tracks[0] == Track(map[], map[], map[])
    && (forall k | 0 <= k < |requests| :: ServedAt(tracks, requests, answers, k))
  }

  ghost predicate ServedAt(tracks: seq<Track>, requests: seq<Request>, answers: seq<Answer>, k: nat)
    requires k < |requests| && |tracks| == |requests| + 1 == |answers| + 1
  {
    tracks[k].Sound() && Checked(tracks[k], requests[k], answers[k], tracks[k + 1])
  }

  lemma HitsAreSeen(t: Track, key: string, now: real)
    requires t.Sound() && At(t.seen, key, now) <= now
    ensures forall h | h in t.Whole(key) :: h <= now
  {
    SoundFor(t, key, now);
    forall h | h in t.Whole(key)
      ensures h <= now
    {
      assert h in At(t.gone, key, []) || h in At(t.hits, key, []);
    }
  }

  lemma {:induction false} RecentIsLastMinute(hits: seq<real>, t: real)
    requires forall h | h in hits :: h <= t
    ensures Recent(hits, t) == InWindow(hits, t - 60.0)
  {
    if hits != [] {
      assert hits[0] in hits && forall h | h in hits[1..] :: h in hits;
      RecentIsLastMinute(hits[1..], t);
    }
  }

  /** Nobody is turned away needlessly: a request is let in exactly when the minute up to it holds fewer hits than the limit. */
  lemma LetInExactly(t: Track, r: Request, a: Answer, u: Track)
    requires t.Sound() && Checked(t, r, a, u)
    ensures var hits := InWindow(t.Whole(r.key), r.now - 60.0);
      && (a.allowed <==> hits < r.limit)
      && a.remaining == (if hits < r.limit then r.limit - hits - 1 else 0)
      && u.Whole(r.key) == (if hits < r.limit then t.Whole(r.key) + [r.now] else t.Whole(r.key))
  {
    HitsAreSeen(t, r.key, r.now);
    RecentIsLastMinute(t.Whole(r.key), r.now);
  }

  /** And a request counts for its own key alone. */
  lemma OtherKeysUncounted(t: Track, r: Request, a: Answer, u: Track, key: string)
    requires Checked(t, r, a, u) && key != r.key
    ensures u.Whole(key) == t.Whole(key)
  {
  }

  /** A key whose requests all meet `limit` or less has a history let in under `limit`. */
  lemma {:induction false} ServedIsAdmissible(tracks: seq<Track>, requests: seq<Request>, answers: seq<Answer>, n: nat,
                                              key: string, limit: int)
    requires Served(tracks, requests, answers) && n <= |requests|
    requires forall k | 0 <= k < n && requests[k].key == key :: requests[k].limit <= limit
    ensures Admissible(tracks[n].Whole(key), limit)
  {
    if n == 0 {
      NewIsAdmissible(tracks[0], key, limit);
    } else {
      ServedIsAdmissible(tracks, requests, answers, n - 1, key, limit);
      ServedStep(tracks, requests, answers, n - 1, key, limit);
    }
  }

  lemma NewIsAdmissible(t: Track, key: string, limit: int)
    requires t == Track(map[], map[], map[])
    ensures Admissible(t.Whole(key), limit)
  {
    assert t.Whole(key) == [];
  }

  lemma ServedStep(tracks: seq<Track>, requests: seq<Request>, answers: seq<Answer>, k: nat, key: string, limit: int)
    requires k < |requests| && |tracks| == |requests| + 1 == |answers| + 1 && ServedAt(tracks, requests, answers, k)
    requires (requests[k].key == key ==> requests[k].limit <= limit) && Admissible(tracks[k].Whole(key), limit)
    ensures Admissible(tracks[k + 1].Whole(key), limit)
  {
    NextIsAdmissible(tracks[k], requests[k], answers[k], tracks[k + 1], key, limit);
  }

  lemma NextIsAdmissible(t: Track, r: Request, a: Answer, u: Track, key: string, limit: int)
    requires t.Sound() && Checked(t, r, a, u) && Admissible(t.Whole(key), limit)
    requires r.key == key ==> r.limit <= limit
    ensures Admissible(u.Whole(key), limit)
  {
    if r.key == key {
      HitsAreSeen(t, key, r.now);
      if a.allowed {
        AppendAdmissible(t.Whole(key), limit, r.now);
      }
    } else {
      assert u.Whole(key) == t.Whole(key);
    }
  }

  /**
   Over every run of requests, of any keys in any order, no closed minute, wherever it begins, holds
   more accepted hits of a key than the highest limit its requests met.
   */
  lemma ServedIsLimited(tracks: seq<Track>, requests: seq<Request>, answers: seq<Answer>, key: string, limit: int, x: real)
    requires Served(tracks, requests, answers)
    requires forall r | r in requests && r.key == key :: r.limit <= limit
    ensures InWindow(tracks[|requests|].Whole(key), x) <= if limit < 0 then 0 else limit
  {
    ServedIsAdmissible(tracks, requests, answers, |requests|, key, limit);
    WindowsWithinLimit(tracks[|requests|].Whole(key), limit, x);
  }
}
