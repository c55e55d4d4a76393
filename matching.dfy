/**
 * The matching panel's state: the list of pending patient requests, capped
 * to the last ten, and the map from request id to the provider match scored
 * for it. The updaters are copy-on-write functions of the previous state;
 * accepting a match is a method that also emits the `match:accept` message.
 * Fields copied verbatim from an inbound payload stay JSON values, because
 * the panel copies them without checking them.
 */
module Matching {
  import opened Base
  import opened Json
  import opened Seqs
  import opened Text

  /** How many requests the panel keeps. */
  const RequestCap: nat := 10

  datatype Request = Request(
    id: Json,
    patientId: Json,
    visitType: Json,
    state: Json,
    urgency: Json,
    timestampMs: int,
    insurance: Json,
    language: Json,
    complexityScore: Json,
    estimatedDuration: Json,
    estimatedRevenue: Json,
    waitingTime: int)

  datatype Match = Match(
    providerId: Json,
    providerName: Json,
    matchScore: Json,
    scoreComponents: Json,
    estimatedProfit: Json,
    isArbitrageOpportunity: Json)

  /** `Map<requestId, ProviderMatch>`. */
  type Matches = map<Json, Match>

  /** The payload of the `match:accept` message. */
  datatype AcceptMessage = AcceptMessage(
    requestId: string,
    patientId: Json,
    providerId: Json,
    matchScore: Json,
    estimatedProfit: Json)

  /** `[...prev, r].slice(-10)`: appends and keeps the ten most recent. */
  function AddRequest(rs: seq<Request>, r: Request): (out: seq<Request>)
    ensures |out| == if |rs| < RequestCap then |rs| + 1 else RequestCap
    ensures out[|out| - 1] == r
    ensures |rs| >= RequestCap ==> out == rs[|rs| + 1 - RequestCap..] + [r]
    ensures |rs| < RequestCap ==> out == rs + [r]
  {
    var all := rs + [r];
    if |all| <= RequestCap then all else all[|all| - RequestCap..]
  }

  /** A list built by `AddRequest` alone never exceeds the cap. */
  lemma {:induction false} AddRequestsBounded(rs: seq<Request>, arrivals: seq<Request>)
    requires |rs| <= RequestCap
    decreases |arrivals|
    ensures |AddAll(rs, arrivals)| <= RequestCap
    ensures |AddAll(rs, arrivals)| == if |rs| + |arrivals| <= RequestCap then |rs| + |arrivals| else RequestCap
  {
    if arrivals != [] {
      AddRequestsBounded(AddRequest(rs, arrivals[0]), arrivals[1..]);
    }
  }

  /** Requests arriving one after another. */
  function AddAll(rs: seq<Request>, arrivals: seq<Request>): seq<Request>
    decreases |arrivals|
  {
    if arrivals == [] then rs else AddAll(AddRequest(rs, arrivals[0]), arrivals[1..])
  }

  /**
   * `match:new`: the request is copied from the payload, its timestamp is
   * `new Date(data.timestamp)` (given here in milliseconds), and it starts
   * with no waiting time.
   */
  function FromMatchNew(data: Object, timestampMs: int): (r: Request)
    ensures r.waitingTime == 0 && r.timestampMs == timestampMs
    ensures r.id == Get(data, "id") && r.patientId == Get(data, "patientId")
    ensures r.estimatedRevenue == Get(data, "estimatedRevenue")
  {
    Request(Get(data, "id"), Get(data, "patientId"), Get(data, "visitType"), Get(data, "state"),
            Get(data, "urgency"), timestampMs, Get(data, "insurance"), Get(data, "language"),
            Get(data, "complexityScore"), Get(data, "estimatedDuration"), Get(data, "estimatedRevenue"), 0)
  }

  /** The `match:new` handler's effect on the request list. */
  function OnMatchNew(rs: seq<Request>, data: Object, timestampMs: int): (out: seq<Request>)
    ensures 1 <= |out| <= RequestCap
    ensures out[|out| - 1].waitingTime == 0 && out[|out| - 1].id == Get(data, "id")
  {
    AddRequest(rs, FromMatchNew(data, timestampMs))
  }

  function MatchFrom(data: Object): Match {
    Match(Get(data, "providerId"), Get(data, "providerName"), Get(data, "matchScore"),
          Get(data, "scoreComponents"), Get(data, "estimatedProfit"), Get(data, "isArbitrageOpportunity"))
  }

  /** `match:score`: with a truthy `requestId`, sets (or overwrites) that key; otherwise nothing changes. */
  function OnMatchScore(ms: Matches, data: Object): (r: Matches)
    ensures !Truthy(Get(data, "requestId")) ==> r == ms
    ensures Truthy(Get(data, "requestId")) ==>
              Get(data, "requestId") in r && r[Get(data, "requestId")] == MatchFrom(data)
    ensures forall k :: k != Get(data, "requestId") ==> (k in r <==> k in ms) && (k in ms ==> r[k] == ms[k])
  {
    var key := Get(data, "requestId");
    if Truthy(key) then ms[key := MatchFrom(data)] else ms
  }

  /** Whole seconds elapsed since the request was made: `Math.floor((now - t) / 1000)`. */
  function ElapsedSeconds(nowMs: int, timestampMs: int): (s: int)
    ensures s * 1000 <= nowMs - timestampMs < (s + 1) * 1000
  {
    (nowMs - timestampMs) / 1000
  }

  /** The interval's refresh: every request's `waitingTime` recomputed from the clock, nothing else touched. */
  function UpdateWaitingTimes(rs: seq<Request>, nowMs: int): (out: seq<Request>)
    ensures |out| == |rs|
    ensures forall i :: 0 <= i < |rs| ==> out[i].(waitingTime := 0) == rs[i].(waitingTime := 0)
    ensures forall i :: 0 <= i < |rs| ==>
              out[i].waitingTime * 1000 <= nowMs - rs[i].timestampMs < (out[i].waitingTime + 1) * 1000
  {
    seq(|rs|, i requires 0 <= i < |rs| => rs[i].(waitingTime := ElapsedSeconds(nowMs, rs[i].timestampMs)))
  }

  /** Refreshing twice at the same instant is refreshing once. */
  lemma UpdateWaitingTimesIdempotent(rs: seq<Request>, nowMs: int)
    ensures UpdateWaitingTimes(UpdateWaitingTimes(rs, nowMs), nowMs) == UpdateWaitingTimes(rs, nowMs)
  {
  }

  /** `formatWaitTime(s)`: `"<s>s"` under a minute, `"<m>m <r>s"` from a minute on. */
  function FormatWaitTime(seconds: int): string {
    if seconds < 60 then IntToString(seconds) + "s"
    else NatToString(seconds / 60) + "m " + NatToString(seconds % 60) + "s"
  }

  /** The first index of `c` in `s`, or `|s|` when there is none. */
  function IndexOf(s: string, c: char): (k: nat)
    ensures k <= |s|
    ensures k < |s| ==> s[k] == c
    ensures forall i :: 0 <= i < k ==> s[i] != c
  {
    if s == [] then 0
    else if s[0] == c then 0
    else 1 + IndexOf(s[1..], c)
  }

  lemma {:induction false} IndexOfAfterDigits(digits: string, rest: string)
    requires forall i :: 0 <= i < |digits| ==> IsDigit(digits[i])
    ensures IndexOf(digits + "m" + rest, 'm') == |digits|
  {
    if digits != [] {
      assert (digits + "m" + rest)[1..] == digits[1..] + "m" + rest;
      IndexOfAfterDigits(digits[1..], rest);
    }
  }

  /** Reads back a wait time written by `FormatWaitTime` for a non-negative number of seconds. */
  function ParseWaitTime(t: string): int {
    if t == [] then 0
    else
      var body := t[..|t| - 1];
      var k := IndexOf(body, 'm');
      if k == |body| then ParseNat(body)
      else if k + 2 <= |body| then 60 * ParseNat(body[..k]) + ParseNat(body[k + 2..])
      else 0
  }

  /** A digit string followed by `s` reads back as its number. */
  lemma ParseSecondsForm(d: string)
    requires forall i :: 0 <= i < |d| ==> IsDigit(d[i])
    ensures ParseWaitTime(d + "s") == ParseNat(d)
  {
    var t := d + "s";
    assert t[..|t| - 1] == d;
    assert forall i :: 0 <= i < |d| ==> d[i] != 'm';
  }

  /** Two digit strings in the form `<m>m <r>s` read back as `60 * m + r`. */
  lemma ParseMinutesForm(m: string, r: string)
    requires forall i :: 0 <= i < |m| ==> IsDigit(m[i])
    ensures ParseWaitTime(m + "m " + r + "s") == 60 * ParseNat(m) + ParseNat(r)
  {
    var t := m + "m " + r + "s";
    var body := t[..|t| - 1];
    assert body == m + "m" + (" " + r);
    IndexOfAfterDigits(m, " " + r);
    assert body[..|m|] == m;
    assert body[|m| + 2..] == r;
  }

  /** `formatWaitTime` loses nothing: the minutes and seconds it writes add back up to the input. */
  lemma FormatWaitTimeRoundTrip(seconds: nat)
    ensures ParseWaitTime(FormatWaitTime(seconds)) == seconds
  {
    if seconds < 60 {
      ParseSecondsForm(NatToString(seconds));
      ParseNatToString(seconds);
    } else {
      ParseMinutesForm(NatToString(seconds / 60), NatToString(seconds % 60));
      ParseNatToString(seconds / 60);
      ParseNatToString(seconds % 60);
    }
  }

  /** Distinct non-negative wait times never display alike. */
  lemma FormatWaitTimeInjective(a: nat, b: nat)
    requires a != b
    ensures FormatWaitTime(a) != FormatWaitTime(b)
  {
    FormatWaitTimeRoundTrip(a);
    FormatWaitTimeRoundTrip(b);
  }

  /** `requests.find(r => r.id === id)`: the first request with the id. */
  function FindRequest(rs: seq<Request>, id: Json): (r: Option<Request>)
    ensures r.None? <==> forall i :: 0 <= i < |rs| ==> rs[i].id != id
    ensures r.Some? ==> exists i :: 0 <= i < |rs| && rs[i] == r.value &&
                          rs[i].id == id && forall j :: 0 <= j < i ==> rs[j].id != id
  {
    if rs == [] then None
    else if rs[0].id == id then Some(rs[0])
    else
      var rest := FindRequest(rs[1..], id);
      if rest.Some? then
        ghost var i :| 0 <= i < |rs| - 1 && rs[1..][i] == rest.value &&
                       rs[1..][i].id == id && forall j :: 0 <= j < i ==> rs[1..][j].id != id;
        assert rs[i + 1] == rest.value;
        rest
      else rest
  }

  /**
   * `handleAcceptMatch(requestId)`: sends `match:accept` only when both the
   * request and its match exist; in every case drops the requests with the
   * id and the match under it.
   */
  method AcceptMatch(rs: seq<Request>, ms: Matches, requestId: string)
    returns (sent: Option<AcceptMessage>, rs': seq<Request>, ms': Matches)
    ensures sent.Some? <==> (exists i :: 0 <= i < |rs| && rs[i].id == Str(requestId)) && Str(requestId) in ms
    ensures sent.Some? ==>
              var req := FindRequest(rs, Str(requestId)).value;
              var m := ms[Str(requestId)];
              sent.value == AcceptMessage(requestId, req.patientId, m.providerId, m.matchScore, m.estimatedProfit)
    ensures forall i :: 0 <= i < |rs'| ==> rs'[i].id != Str(requestId)
    ensures rs' == Filter(rs, (r: Request) => r.id != Str(requestId))
    ensures ms' == ms - {Str(requestId)}
  {
    var key := Str(requestId);
    var request := FindRequest(rs, key);
    sent := None;
    if request.Some? && key in ms {
      var m := ms[key];
      sent := Some(AcceptMessage(requestId, request.value.patientId, m.providerId, m.matchScore, m.estimatedProfit));
    }
    rs' := Filter(rs, (r: Request) => r.id != key);
    ms' := ms - {key};
  }

  /** After an accept, accepting the same id again sends nothing and changes nothing. */
  method AcceptTwiceSendsOnce(rs: seq<Request>, ms: Matches, requestId: string)
    returns (second: Option<AcceptMessage>, same: bool)
    ensures second == None && same
  {
    var _, rs1, ms1 := AcceptMatch(rs, ms, requestId);
    var s2, rs2, ms2 := AcceptMatch(rs1, ms1, requestId);
    FilterKeepsAll(rs1, (r: Request) => r.id != Str(requestId));
    second, same := s2, rs2 == rs1 && ms2 == ms1;
  }

  // ---------------------------------------------------------------------------
  // Eviction does not reach the match map
  // ---------------------------------------------------------------------------

  /** The id of the `k`-th demo request. */
  function Key(k: nat): (j: Json)
    ensures Truthy(j) <==> k != 0
  {
    Num(k as real)
  }

  /** The `k`-th demo request. */
  function Arrival(k: nat): Request {
    Request(Key(k), Null, Null, Null, Null, 0, Null, Null, Null, Null, Null, 0)
  }

  /** The request list after requests 1 to `n` have arrived. */
  function RequestsAfter(n: nat): seq<Request> {
    if n == 0 then [] else AddRequest(RequestsAfter(n - 1), Arrival(n))
  }

  /** The match map after the scores `scores(1)` to `scores(n)` have arrived. */
  function MatchesAfter(scores: nat -> Object, n: nat): Matches {
    if n == 0 then map[] else OnMatchScore(MatchesAfter(scores, n - 1), scores(n))
  }

  /** Each score names its request: the `k`-th score carries the `k`-th request's id. */
  ghost predicate ScoresName(scores: nat -> Object) {
    forall k: nat :: Get(scores(k), "requestId") == Key(k)
  }

  /** The list holds the last `min(n, 10)` of requests 1 to `n`, in arrival order. */
  predicate LastArrivals(rs: seq<Request>, n: nat) {
    && |rs| == (if n <= RequestCap then n else RequestCap)
    && forall k :: 0 <= k < |rs| ==> rs[k].id == Key(n - |rs| + k + 1)
  }

  /** One more arrival moves the window of the last ten along by one. */
  lemma ArrivalStep(rs: seq<Request>, n: nat)
    requires n > 0 && LastArrivals(rs, n - 1)
    ensures LastArrivals(AddRequest(rs, Arrival(n)), n)
  {
    var all := rs + [Arrival(n)];
    if |all| <= RequestCap {
      assert AddRequest(rs, Arrival(n)) == all;
    } else {
      assert AddRequest(rs, Arrival(n)) == all[1..];
    }
  }

  /** After `n` arrivals the list holds the last `min(n, 10)` ids, in arrival order. */
  lemma {:induction false} RequestsAfterShape(n: nat)
    ensures LastArrivals(RequestsAfter(n), n)
  {
    if n > 0 {
      RequestsAfterShape(n - 1);
      ArrivalStep(RequestsAfter(n - 1), n);
    }
  }

  /** Distinct positions have distinct ids. */
  lemma KeyInjective(a: nat, b: nat)
    requires a != b
    ensures Key(a) != Key(b)
  {
    assert Key(a).n != Key(b).n;
  }

  /** The map holds a match for exactly requests 1 to `n`. */
  ghost predicate FirstScores(ms: Matches, n: nat) {
    && (forall k: nat :: Key(k) in ms <==> 1 <= k <= n)
    && |ms| == n
  }

  /** A score for the next request adds exactly its key. */
  lemma ScoreStep(ms: Matches, data: Object, n: nat)
    requires n > 0 && FirstScores(ms, n - 1) && Get(data, "requestId") == Key(n)
    ensures FirstScores(OnMatchScore(ms, data), n)
  {
    var after := ms[Key(n) := MatchFrom(data)];
    assert OnMatchScore(ms, data) == after;
    assert after.Keys == ms.Keys + {Key(n)};
    forall k: nat
      ensures Key(k) in after <==> 1 <= k <= n
    {
      if k != n {
        KeyInjective(k, n);
      }
    }
  }

  /** ... while the map holds a match for every one of them. */
  lemma {:induction false} MatchesAfterShape(scores: nat -> Object, n: nat)
    requires ScoresName(scores)
    ensures FirstScores(MatchesAfter(scores, n), n)
  {
    if n > 0 {
      MatchesAfterShape(scores, n - 1);
      ScoreStep(MatchesAfter(scores, n - 1), scores(n), n);
    }
  }

  /**
   * Past ten arrivals the first request has been evicted from the list, but
   * its match stays in the map, which keeps growing beyond the cap.
   */
  lemma EvictionKeepsMatch(scores: nat -> Object, n: nat)
    requires n > RequestCap && ScoresName(scores)
    ensures |RequestsAfter(n)| == RequestCap
    ensures forall k :: 0 <= k < |RequestsAfter(n)| ==> RequestsAfter(n)[k].id != Key(1)
    ensures Key(1) in MatchesAfter(scores, n) && |MatchesAfter(scores, n)| == n
  {
    RequestsAfterShape(n);
    var rs := RequestsAfter(n);
    forall k | 0 <= k < |rs|
      ensures rs[k].id != Key(1)
    {
      KeyInjective(n - RequestCap + k + 1, 1);
    }
    MatchesAfterShape(scores, n);
    var ms := MatchesAfter(scores, n);
    assert Key(1) in ms <==> 1 <= 1 <= n;
  }
}
