/** Service probing and status tracking: one pass over the enabled services, each probe
    result folded into the service's one status row. The network is an input: `HttpGet`
    and `TcpConnect` say what a request to a target would return. */
module ServiceChecker {
  import opened Wrappers
  import opened Clock
  import opened Strings
  import opened Seqs
  import opened Models

  /** What an HTTP GET returns: a response with its status code, or an exception
      (connection failure, timeout, bad URL). */
  datatype HttpOutcome = HttpResponse(statusCode: int, latency: Latency) | HttpException

  /** What opening a TCP connection does. */
  datatype TcpOutcome = Connected(latency: Latency) | TcpException

  /** `(target, timeout) -> outcome` */
  type HttpGet = (string, int) -> HttpOutcome

  /** `(host, port, timeout) -> outcome` */
  type TcpConnect = (string, int, int) -> TcpOutcome

  /** A probe result `(is_up, latency_ms)`. */
  datatype Probe = Probe(isUp: bool, latency: Option<Latency>)

  const Down := Probe(false, None)

  // ---------- Probes ----------

  /** `check_http`: up iff the server answered with a status below 500. */
  function CheckHttp(target: string, timeoutSec: int, get: HttpGet): (p: Probe)
    ensures p.isUp <==> get(target, timeoutSec).HttpResponse? && get(target, timeoutSec).statusCode < 500
    ensures p.latency.Some? <==> get(target, timeoutSec).HttpResponse?
  {
    match get(target, timeoutSec)
    case HttpResponse(code, latency) => Probe(code < 500, Some(latency))
    case HttpException => Down
  }

  /** `target.split(":", 1)`: the text before and after the first ':', or nothing when
      there is none. */
  function SplitTarget(target: string): (r: Option<(string, string)>)
    ensures r.None? <==> ':' !in target
    ensures r.Some? ==> ':' !in r.value.0 && target == r.value.0 + ":" + r.value.1
  {
    var k := Find(target, ':');
    if k < 0 then None
    else
      assert target == target[..k] + ":" + target[k + 1..];
      Some((target[..k], target[k + 1..]))
  }

  /** `check_tcp`: a target without a port is down; a port that is not an integer raises
      ValueError; otherwise the service is up exactly when the connection opens. */
  function CheckTcp(target: string, timeoutSec: int, connect: TcpConnect): (r: Result<Probe>)
    ensures SplitTarget(target).None? ==> r == Ok(Down)
    ensures SplitTarget(target).Some? ==>
      var (host, portText) := SplitTarget(target).value;
      && (r.Err? <==> ParseInt(portText).None?)
      && (r.Ok? ==> (r.value.isUp <==> connect(host, ParseInt(portText).value, timeoutSec).Connected?))
  {
    match SplitTarget(target)
    case None => Ok(Down)
    case Some((host, portText)) =>
      var port := ParseInt(portText);
      if port.None? then Err(Raised("ValueError"))
      else Ok(TcpProbe(connect(host, port.value, timeoutSec)))
  }

  /** A connection that opened is up, with its latency; a refused or timed-out one is down. */
  function TcpProbe(o: TcpOutcome): (p: Probe)
    ensures p.isUp <==> o.Connected?
  {
    match o
    case Connected(latency) => Probe(true, Some(latency))
    case TcpException => Down
  }

  /** A host without ':' and a port written in decimal split back into the two. */
  lemma TcpTargetSplit(host: string, port: int)
    requires ':' !in host
    ensures SplitTarget(host + ":" + IntToString(port)) == Some((host, IntToString(port)))
    ensures ParseInt(IntToString(port)) == Some(port)
  {
    SplitAtFirstColon(host, IntToString(port));
    ParseIntToString(port);
  }

  lemma SplitAtFirstColon(host: string, rest: string)
    requires ':' !in host
    ensures SplitTarget(host + ":" + rest) == Some((host, rest))
  {
    var target := host + ":" + rest;
    assert target[..|host|] == host;
    assert target[|host|] == ':';
    assert Find(target, ':') == |host|;
    assert target[|host| + 1..] == rest;
  }

  /** `check_one_service`: dispatch on the upper-cased kind; any other kind is down. */
  function CheckOne(s: Service, get: HttpGet, connect: TcpConnect): (r: Result<Probe>)
    ensures Upper(s.kind) == "HTTP" ==> r == Ok(CheckHttp(s.target, s.timeoutSec, get))
    ensures Upper(s.kind) == "TCP" ==> r == CheckTcp(s.target, s.timeoutSec, connect)
    ensures Upper(s.kind) != "HTTP" && Upper(s.kind) != "TCP" ==> r == Ok(Down)
  {
    var kind := Upper(s.kind);
    if kind == "HTTP" then Ok(CheckHttp(s.target, s.timeoutSec, get))
    else if kind == "TCP" then CheckTcp(s.target, s.timeoutSec, connect)
    else Ok(Down)
  }

  // ---------- Status rows ----------

  /** The status row after one probe result: a missing row is created; an existing one is
      overwritten, with the failure streak and the change time following the rules below. */
  function ApplyProbe(st: Option<ServiceStatus>, id: int, serviceId: int, p: Probe, now: Timestamp): ServiceStatus {
    match st
    case None =>
      ServiceStatus(id, serviceId, p.isUp, p.latency, Some(now), if p.isUp then 0 else 1, Some(now))
    case Some(s) =>
      s.(isUp := p.isUp, latencyMs := p.latency, lastCheckedAt := Some(now),
         lastChangeAt := if p.isUp != s.isUp then Some(now) else s.lastChangeAt,
         consecutiveFailures := if p.isUp then 0 else s.consecutiveFailures + 1)
  }

  /** The first result creates a row checked and changed now, with a streak of 0 or 1. */
  lemma FirstProbe(id: int, serviceId: int, p: Probe, now: Timestamp)
    ensures var s := ApplyProbe(None, id, serviceId, p, now);
      && s.isUp == p.isUp && s.latencyMs == p.latency
      && s.lastCheckedAt == Some(now) && s.lastChangeAt == Some(now)
      && s.consecutiveFailures == (if p.isUp then 0 else 1)
  {
  }

  /** A later result overwrites the reading; the change time moves exactly when the
      up/down state flips; the streak resets on up and grows by one on down. */
  lemma LaterProbe(s: ServiceStatus, p: Probe, now: Timestamp)
    requires s.lastChangeAt != Some(now)
    ensures var t := ApplyProbe(Some(s), s.id, s.serviceId, p, now);
      && t.id == s.id && t.serviceId == s.serviceId
      && t.isUp == p.isUp && t.latencyMs == p.latency && t.lastCheckedAt == Some(now)
      && (t.lastChangeAt != s.lastChangeAt <==> p.isUp != s.isUp)
      && (p.isUp != s.isUp ==> t.lastChangeAt == Some(now))
      && t.consecutiveFailures == (if p.isUp then 0 else s.consecutiveFailures + 1)
  {
  }

  /** The status after a series of results for one service, starting from no row. */
  function ApplyProbes(id: int, serviceId: int, ps: seq<Probe>, now: Timestamp): ServiceStatus
    requires |ps| > 0
  {
    if |ps| == 1 then ApplyProbe(None, id, serviceId, ps[0], now)
    else ApplyProbe(Some(ApplyProbes(id, serviceId, ps[..|ps| - 1], now)), id, serviceId, ps[|ps| - 1], now)
  }

  /** The number of down results since the last up one. */
  function TrailingDowns(ps: seq<Probe>): nat {
    if |ps| == 0 || ps[|ps| - 1].isUp then 0 else TrailingDowns(ps[..|ps| - 1]) + 1
  }

  /** `consecutive_failures` always counts the down results since the last up one, and
      `is_up` is the latest result. */
  lemma {:induction false} StreakCountsTrailingDowns(id: int, serviceId: int, ps: seq<Probe>, now: Timestamp)
    requires |ps| > 0
    ensures ApplyProbes(id, serviceId, ps, now).consecutiveFailures == TrailingDowns(ps)
    ensures ApplyProbes(id, serviceId, ps, now).isUp == ps[|ps| - 1].isUp
  {
    if |ps| > 1 {
      var init := ps[..|ps| - 1];
      StreakCountsTrailingDowns(id, serviceId, init, now);
      assert init[..|init| - 1] == ps[..|ps| - 2];
      if |init| == 1 {
        assert TrailingDowns(init) == (if init[0].isUp then 0 else 1);
      }
    } else {
      assert ps[..0] == [];
    }
  }

  /** The statuses after recording `p` for `serviceId`: its row is updated in place, or a
      new row is appended with the next key. */
  function Record(statuses: seq<ServiceStatus>, serviceId: int, p: Probe, now: Timestamp): (r: seq<ServiceStatus>)
    requires StatusKeys(statuses)
    ensures StatusKeys(r)
  {
    var k := IndexOf(statuses, (st: ServiceStatus) => st.serviceId == serviceId);
    if k < 0 then statuses + [ApplyProbe(None, NextStatusId(statuses), serviceId, p, now)]
    else statuses[k := ApplyProbe(Some(statuses[k]), statuses[k].id, serviceId, p, now)]
  }

  /** Recording touches only the service's own row, keeps one row per service, and leaves
      that row holding the new reading. */
  lemma RecordKeepsTable(services: seq<Service>, statuses: seq<ServiceStatus>, serviceId: int, p: Probe, now: Timestamp)
    requires StatusKeys(statuses) && HasService(services, serviceId)
    requires forall i, j :: 0 <= i < j < |statuses| ==> statuses[i].serviceId != statuses[j].serviceId
    requires forall i :: 0 <= i < |statuses| ==> HasService(services, statuses[i].serviceId)
    ensures var r := Record(statuses, serviceId, p, now);
      && (forall i, j :: 0 <= i < j < |r| ==> r[i].serviceId != r[j].serviceId)
      && (forall i :: 0 <= i < |r| ==> HasService(services, r[i].serviceId))
      && |r| >= |statuses|
      && (forall i :: 0 <= i < |statuses| && statuses[i].serviceId != serviceId ==> r[i] == statuses[i])
      && (exists i :: 0 <= i < |r| && r[i].serviceId == serviceId && r[i].isUp == p.isUp
                      && r[i].latencyMs == p.latency && r[i].lastCheckedAt == Some(now))
  {
    var r := Record(statuses, serviceId, p, now);
    var k := IndexOf(statuses, (st: ServiceStatus) => st.serviceId == serviceId);
    if k < 0 {
      assert r[|statuses|].serviceId == serviceId;
    } else {
      assert r[k].serviceId == serviceId;
    }
  }

  // ---------- One pass ----------

  /** The result of probing each service, in order. */
  function ProbeAll(svcs: seq<Service>, get: HttpGet, connect: TcpConnect): (r: seq<Result<Probe>>)
    ensures |r| == |svcs| && forall j :: 0 <= j < |svcs| ==> r[j] == CheckOne(svcs[j], get, connect)
  {
    seq(|svcs|, j requires 0 <= j < |svcs| => CheckOne(svcs[j], get, connect))
  }

  /** Where a pass stands: the statuses so far and the exception that ended it, if any. */
  datatype PassState = PassState(statuses: seq<ServiceStatus>, error: Option<Error>)

  /** One service's turn: once a probe has raised nothing more happens, a probe that
      raises ends the pass, and any other result is recorded. */
  function Step(prev: PassState, serviceId: int, res: Result<Probe>, now: Timestamp): (r: PassState)
    requires StatusKeys(prev.statuses)
    ensures StatusKeys(r.statuses)
  {
    if prev.error.Some? then prev
    else if res.Err? then PassState(prev.statuses, Some(res.error))
    else PassState(Record(prev.statuses, serviceId, res.value, now), None)
  }

  /** The state after the first `n` services, given their ids and probe results. */
  function Pass(statuses: seq<ServiceStatus>, ids: seq<int>, results: seq<Result<Probe>>,
                clock: nat -> Timestamp, n: nat): (r: PassState)
    requires StatusKeys(statuses) && n <= |ids| && n <= |results|
    ensures StatusKeys(r.statuses)
  {
    if n == 0 then PassState(statuses, None)
    else Step(Pass(statuses, ids, results, clock, n - 1), ids[n - 1], results[n - 1], clock(n - 1))
  }

  /** A turn leaves every other service's row where it was. */
  lemma StepTouchesOnlyItsRow(prev: PassState, serviceId: int, res: Result<Probe>, now: Timestamp)
    requires StatusKeys(prev.statuses)
    ensures var r := Step(prev, serviceId, res, now).statuses;
      |r| >= |prev.statuses| &&
      forall i :: 0 <= i < |prev.statuses| && prev.statuses[i].serviceId != serviceId ==> r[i] == prev.statuses[i]
  {
    if prev.error.None? && res.Ok? {
      var k := IndexOf(prev.statuses, (st: ServiceStatus) => st.serviceId == serviceId);
      if k >= 0 {
        assert prev.statuses[k].serviceId == serviceId;
      }
    }
  }

  /** A turn that leaves the pass running has recorded its result and kept every other
      service's reading. */
  lemma StepHolds(prev: PassState, serviceId: int, res: Result<Probe>, now: Timestamp)
    requires StatusKeys(prev.statuses)
    ensures var r := Step(prev, serviceId, res, now);
      r.error.None? ==>
        && prev.error.None? && res.Ok? && HoldsResult(r.statuses, serviceId, res.value, now)
        && KeepsReadings(prev.statuses, r.statuses, serviceId)
  {
    if prev.error.None? && res.Ok? {
      RecordHolds(prev.statuses, serviceId, res.value, now);
    }
  }

  /** A pass touches only the rows of the services it checked. */
  lemma {:induction false} PassTouchesOnlyChecked(statuses: seq<ServiceStatus>, ids: seq<int>, results: seq<Result<Probe>>,
                                                 clock: nat -> Timestamp, n: nat)
    requires StatusKeys(statuses) && n <= |ids| && n <= |results|
    ensures |Pass(statuses, ids, results, clock, n).statuses| >= |statuses|
    ensures forall i :: 0 <= i < |statuses| && statuses[i].serviceId !in ids[..n] ==>
              Pass(statuses, ids, results, clock, n).statuses[i] == statuses[i]
  {
    if n > 0 {
      var prev := Pass(statuses, ids, results, clock, n - 1);
      PassTouchesOnlyChecked(statuses, ids, results, clock, n - 1);
      StepTouchesOnlyItsRow(prev, ids[n - 1], results[n - 1], clock(n - 1));
      var r := Pass(statuses, ids, results, clock, n).statuses;
      assert ids[..n] == ids[..n - 1] + [ids[n - 1]];
      forall i | 0 <= i < |statuses| && statuses[i].serviceId !in ids[..n]
        ensures r[i] == statuses[i]
      {
        assert statuses[i].serviceId !in ids[..n - 1] && statuses[i].serviceId != ids[n - 1];
        assert prev.statuses[i] == statuses[i];
      }
    }
  }

  /** Recording a result makes the row of that service hold it and keeps every other
      service's reading. */
  lemma RecordHolds(statuses: seq<ServiceStatus>, serviceId: int, p: Probe, now: Timestamp)
    requires StatusKeys(statuses)
    ensures HoldsResult(Record(statuses, serviceId, p, now), serviceId, p, now)
    ensures KeepsReadings(statuses, Record(statuses, serviceId, p, now), serviceId)
  {
    var r := Record(statuses, serviceId, p, now);
    var k := IndexOf(statuses, (st: ServiceStatus) => st.serviceId == serviceId);
    if k < 0 {
      assert r[|statuses|].serviceId == serviceId;
    } else {
      assert r[k].serviceId == serviceId;
    }
    forall id, q, at | id != serviceId && HoldsResult(statuses, id, q, at)
      ensures HoldsResult(r, id, q, at)
    {
      var i :| 0 <= i < |statuses| && statuses[i].serviceId == id
               && statuses[i].isUp == q.isUp && statuses[i].latencyMs == q.latency
               && statuses[i].lastCheckedAt == Some(at);
      assert r[i] == statuses[i];
    }
  }

  /** Each checked service, up to the one that raised, has a row holding its result. */
  lemma {:induction false} PassRecordsEachResult(statuses: seq<ServiceStatus>, ids: seq<int>, results: seq<Result<Probe>>,
                                                clock: nat -> Timestamp, n: nat)
    requires StatusKeys(statuses) && n <= |ids| && n <= |results|
    requires forall i, j :: 0 <= i < j < |ids| ==> ids[i] != ids[j]
    ensures Pass(statuses, ids, results, clock, n).error.None? ==>
      HoldsAll(Pass(statuses, ids, results, clock, n).statuses, ids, results, clock, n)
  {
    if n > 0 {
      var prev := Pass(statuses, ids, results, clock, n - 1);
      PassRecordsEachResult(statuses, ids, results, clock, n - 1);
      StepKeepsHoldsAll(prev, ids, results, clock, n);
      assert Pass(statuses, ids, results, clock, n) == Step(prev, ids[n - 1], results[n - 1], clock(n - 1));
    }
  }

  /** The turn of the `n`-th service carries `HoldsAll` from `n - 1` services to `n`. */
  lemma StepKeepsHoldsAll(prev: PassState, ids: seq<int>, results: seq<Result<Probe>>, clock: nat -> Timestamp, n: nat)
    requires StatusKeys(prev.statuses) && 0 < n <= |ids| && n <= |results|
    requires forall i, j :: 0 <= i < j < |ids| ==> ids[i] != ids[j]
    requires prev.error.None? ==> HoldsAll(prev.statuses, ids, results, clock, n - 1)
    ensures var r := Step(prev, ids[n - 1], results[n - 1], clock(n - 1));
      r.error.None? ==> HoldsAll(r.statuses, ids, results, clock, n)
  {
    var r := Step(prev, ids[n - 1], results[n - 1], clock(n - 1));
    StepHolds(prev, ids[n - 1], results[n - 1], clock(n - 1));
    if r.error.None? {
      HoldsExtend(prev.statuses, r.statuses, ids, results, clock, n);
    }
  }

  /** The induction step of `PassRecordsEachResult`, on the two tables alone. */
  lemma HoldsExtend(before: seq<ServiceStatus>, after: seq<ServiceStatus>, ids: seq<int>, results: seq<Result<Probe>>,
                    clock: nat -> Timestamp, n: nat)
    requires 0 < n <= |ids| && n <= |results|
    requires forall i, j :: 0 <= i < j < |ids| ==> ids[i] != ids[j]
    requires HoldsAll(before, ids, results, clock, n - 1)
    requires results[n - 1].Ok? && HoldsResult(after, ids[n - 1], results[n - 1].value, clock(n - 1))
    requires KeepsReadings(before, after, ids[n - 1])
    ensures HoldsAll(after, ids, results, clock, n)
  {
    forall j | 0 <= j < n - 1
      ensures HoldsResult(after, ids[j], results[j].value, clock(j))
    {
      assert ids[j] != ids[n - 1];
    }
  }

  /** Some row of `statuses` belongs to `serviceId` and holds the reading `p` taken at
      `at`: its up/down state, its latency and its check time. */
  predicate HoldsResult(statuses: seq<ServiceStatus>, serviceId: int, p: Probe, at: Timestamp) {
    exists i :: 0 <= i < |statuses| && statuses[i].serviceId == serviceId
                && statuses[i].isUp == p.isUp && statuses[i].latencyMs == p.latency
                && statuses[i].lastCheckedAt == Some(at)
  }

  /** Each of the first `n` services of `ids` was probed without an exception, and
      `statuses` holds its reading, taken at its turn's instant. */
  ghost predicate HoldsAll(statuses: seq<ServiceStatus>, ids: seq<int>, results: seq<Result<Probe>>,
                           clock: nat -> Timestamp, n: nat)
    requires n <= |ids| && n <= |results|
  {
    forall j :: 0 <= j < n ==> results[j].Ok? && HoldsResult(statuses, ids[j], results[j].value, clock(j))
  }

  /** Every reading that `before` holds for a service other than `serviceId` is still
      held by `after`. */
  ghost predicate KeepsReadings(before: seq<ServiceStatus>, after: seq<ServiceStatus>, serviceId: int) {
    forall id, q, at :: id != serviceId && HoldsResult(before, id, q, at) ==> HoldsResult(after, id, q, at)
  }

  /** Once a probe has raised, the rest of the list is never reached. */
  lemma {:induction false} PassStopsAtError(statuses: seq<ServiceStatus>, ids: seq<int>, results: seq<Result<Probe>>,
                                           clock: nat -> Timestamp, i: nat, n: nat)
    requires StatusKeys(statuses) && i <= n <= |ids| && n <= |results|
    requires Pass(statuses, ids, results, clock, i).error.Some?
    ensures Pass(statuses, ids, results, clock, n) == Pass(statuses, ids, results, clock, i)
    decreases n
  {
    if n > i {
      PassStopsAtError(statuses, ids, results, clock, i, n - 1);
      assert Pass(statuses, ids, results, clock, n - 1).error.Some?;
    }
  }

  datatype PassOutcome = Checked(count: nat) | Crashed(error: Error)

  predicate IsEnabled(s: Service) {
    s.enabled
  }

  function Ids(svcs: seq<Service>): (r: seq<int>)
    ensures |r| == |svcs| && forall j :: 0 <= j < |svcs| ==> r[j] == svcs[j].id
  {
    seq(|svcs|, j requires 0 <= j < |svcs| => svcs[j].id)
  }

  /** Every enabled service is a service of the table. */
  lemma EnabledIsListed(services: seq<Service>, svcs: seq<Service>, i: int)
    requires svcs == Filter(services, IsEnabled) && 0 <= i < |svcs|
    ensures HasService(services, svcs[i].id)
  {
    assert svcs[i] in svcs;
    var j :| 0 <= j < |services| && services[j] == svcs[i];
  }

  /** Recording one result in the table. */
  method RecordProbe(table: ServiceTable, serviceId: int, p: Probe, now: Timestamp)
    requires table.Valid() && HasService(table.services, serviceId)
    modifies table
    ensures table.Valid() && table.services == old(table.services)
    ensures table.statuses == Record(old(table.statuses), serviceId, p, now)
  {
    RecordKeepsTable(table.services, table.statuses, serviceId, p, now);
    var k := IndexOf(table.statuses, (st: ServiceStatus) => st.serviceId == serviceId);
    if k < 0 {
      table.statuses := table.statuses + [ApplyProbe(None, NextStatusId(table.statuses), serviceId, p, now)];
    } else {
      var st := table.statuses[k];
      table.statuses := table.statuses[k := ApplyProbe(Some(st), st.id, serviceId, p, now)];
    }
  }

  /** The loop body for the `i`-th enabled service: probe it and, unless the probe
      raises, commit its status. */
  method CheckStep(table: ServiceTable, svcs: seq<Service>, i: nat, get: HttpGet, connect: TcpConnect,
                   clock: nat -> Timestamp, ghost statuses0: seq<ServiceStatus>)
    returns (err: Option<Error>)
    requires table.Valid() && StatusKeys(statuses0)
    requires svcs == Filter(table.services, IsEnabled) && i < |svcs|
    requires Pass(statuses0, Ids(svcs), ProbeAll(svcs, get, connect), clock, i) == PassState(table.statuses, None)
    modifies table
    ensures table.Valid() && table.services == old(table.services)
    ensures Pass(statuses0, Ids(svcs), ProbeAll(svcs, get, connect), clock, i + 1) == PassState(table.statuses, err)
  {
    ghost var ids, results := Ids(svcs), ProbeAll(svcs, get, connect);
    var s := svcs[i];
    var res := CheckOne(s, get, connect);
    assert results[i] == res && ids[i] == s.id;
    if res.Err? {
      return Some(res.error);
    }
    EnabledIsListed(table.services, svcs, i);
    RecordProbe(table, s.id, res.value, clock(i));
    err := None;
  }

  /** One iteration of `service_checker_loop`: probe every enabled service in key order
      and commit each status. A probe that raises ends the pass; earlier commits stay. */
  method CheckServices(table: ServiceTable, get: HttpGet, connect: TcpConnect, clock: nat -> Timestamp)
    returns (outcome: PassOutcome)
    requires table.Valid()
    modifies table
    ensures table.Valid() && table.services == old(table.services)
    ensures var svcs := Filter(old(table.services), IsEnabled);
      var r := Pass(old(table.statuses), Ids(svcs), ProbeAll(svcs, get, connect), clock, |svcs|);
      && table.statuses == r.statuses
      && (r.error.None? <==> outcome.Checked?)
      && (r.error.None? ==> outcome.count == |svcs|)
      && (r.error.Some? ==> outcome == Crashed(r.error.value))
  {
    var svcs := Filter(table.services, IsEnabled);
    ghost var ids, results := Ids(svcs), ProbeAll(svcs, get, connect);
    ghost var statuses0 := table.statuses;
    var i := 0;
    while i < |svcs|
      invariant 0 <= i <= |svcs|
      invariant table.Valid() && table.services == old(table.services)
      invariant Pass(statuses0, ids, results, clock, i) == PassState(table.statuses, None)
    {
      var err := CheckStep(table, svcs, i, get, connect, clock, statuses0);
      if err.Some? {
        PassStopsAtError(statuses0, ids, results, clock, i + 1, |svcs|);
        return Crashed(err.value);
      }
      i := i + 1;
    }
    outcome := Checked(|svcs|);
  }

  /** A pass never touches the status of a disabled service. */
  lemma DisabledUntouched(services: seq<Service>, statuses: seq<ServiceStatus>, get: HttpGet, connect: TcpConnect,
                          clock: nat -> Timestamp, i: int)
    requires StatusKeys(statuses) && 0 <= i < |statuses|
    requires forall j :: 0 <= j < |services| && services[j].id == statuses[i].serviceId ==> !services[j].enabled
    ensures var svcs := Filter(services, IsEnabled);
      var r := Pass(statuses, Ids(svcs), ProbeAll(svcs, get, connect), clock, |svcs|).statuses;
      i < |r| && r[i] == statuses[i]
  {
    var svcs := Filter(services, IsEnabled);
    var ids := Ids(svcs);
    forall j | 0 <= j < |svcs|
      ensures ids[j] != statuses[i].serviceId
    {
      assert svcs[j] in services;
    }
    assert ids[..|svcs|] == ids;
    PassTouchesOnlyChecked(statuses, ids, ProbeAll(svcs, get, connect), clock, |svcs|);
  }

  /** When every enabled service is probed without an exception, each has a status row
      holding its latest result. */
  lemma EnabledRecorded(services: seq<Service>, statuses: seq<ServiceStatus>, get: HttpGet, connect: TcpConnect,
                        clock: nat -> Timestamp)
    requires ServiceKeys(services) && StatusKeys(statuses)
    ensures var svcs := Filter(services, IsEnabled);
      var r := Pass(statuses, Ids(svcs), ProbeAll(svcs, get, connect), clock, |svcs|);
      r.error.None? ==> forall j :: 0 <= j < |svcs| ==>
        CheckOne(svcs[j], get, connect).Ok? && HoldsResult(r.statuses, svcs[j].id, CheckOne(svcs[j], get, connect).value, clock(j))
  {
    var svcs := Filter(services, IsEnabled);
    var lt := (a: Service, b: Service) => a.id < b.id;
    FilterOrdered(services, IsEnabled, lt);
    assert forall i, j :: 0 <= i < j < |svcs| ==> lt(svcs[i], svcs[j]);
    PassRecordsEachResult(statuses, Ids(svcs), ProbeAll(svcs, get, connect), clock, |svcs|);
  }
}
