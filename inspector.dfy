/**
 * The request inspector of the zbrowser scraper (`scraper/resources.go`):
 * for every paused request it either fails the request as blocked by the
 * client, or builds a `Request` record (headers as a map, the post data
 * concatenated), sends it on the slot's request channel and lets the
 * request continue.
 */
module Inspector {
  import opened Wrappers
  import Scheduler

  datatype Header = Header(name: string, value: string)

  /** A `fetch.EventRequestPaused`; a `None` header stands for a nil entry. */
  datatype PausedEvent = PausedEvent(
    requestId: nat,
    resourceType: Scheduler.ResourceType,
    url: string,
    httpMethod: string,
    responseHeaders: seq<Option<Header>>,
    responseStatusCode: int,
    postData: seq<string>)

  /** The captured record `Request`. */
  datatype Request = Request(
    url: string,
    httpMethod: string,
    responseHeaders: map<string, string>,
    responseStatusCode: int,
    payload: string)

  /** The inspector's reaction to one paused request. */
  datatype Action =
    | FailBlockedByClient(requestId: nat)
    | Forward(requestId: nat, record: Request)

  /** The header map after copying `hs` in order: nil entries skipped, later names overwrite. */
  function HeadersOf(hs: seq<Option<Header>>): map<string, string> {
    if hs == [] then map[]
    else
      var m := HeadersOf(hs[..|hs| - 1]);
      match hs[|hs| - 1]
      case None => m
      case Some(h) => m[h.name := h.value]
  }

  predicate Names(e: Option<Header>, name: string) {
    e.Some? && e.value.name == name
  }

  /** A name is a key of the header map exactly when some non-nil entry carries it. */
  lemma {:induction false} HeadersOfKeys(hs: seq<Option<Header>>, name: string)
    ensures name in HeadersOf(hs) <==> exists i :: 0 <= i < |hs| && Names(hs[i], name)
  {
    if hs != [] {
      var init := hs[..|hs| - 1];
      HeadersOfKeys(init, name);
      if exists i :: 0 <= i < |init| && Names(init[i], name) {
        var i :| 0 <= i < |init| && Names(init[i], name);
        assert Names(hs[i], name);
      }
      if exists i :: 0 <= i < |hs| && Names(hs[i], name) {
        var i :| 0 <= i < |hs| && Names(hs[i], name);
        if i < |init| {
          assert Names(init[i], name);
        }
      }
    }
  }

  lemma HeadersOfKeysAll(hs: seq<Option<Header>>)
    ensures forall name :: name in HeadersOf(hs) <==> exists i :: 0 <= i < |hs| && Names(hs[i], name)
  {
    forall name ensures name in HeadersOf(hs) <==> exists i :: 0 <= i < |hs| && Names(hs[i], name) {
      HeadersOfKeys(hs, name);
    }
  }

  /** The value under a name is that of the last non-nil entry carrying the name. */
  lemma {:induction false} HeadersOfLastWins(hs: seq<Option<Header>>, i: nat)
    requires i < |hs| && hs[i].Some?
    requires forall j :: i < j < |hs| ==> !Names(hs[j], hs[i].value.name)
    ensures hs[i].value.name in HeadersOf(hs)
    ensures HeadersOf(hs)[hs[i].value.name] == hs[i].value.value
  {
    if i < |hs| - 1 {
      var init := hs[..|hs| - 1];
      HeadersOfLastWins(init, i);
    }
  }

  /** The loop that fills the header map. */
  method BuildHeaders(hs: seq<Option<Header>>) returns (m: map<string, string>)
    ensures m == HeadersOf(hs)
  {
    m := map[];
    var k := 0;
    while k < |hs|
      invariant 0 <= k <= |hs|
      invariant m == HeadersOf(hs[..k])
    {
      assert hs[..k + 1][..k] == hs[..k];
      if hs[k].Some? {
        m := m[hs[k].value.name := hs[k].value.value];
      }
      k := k + 1;
    }
    assert hs[..|hs|] == hs;
  }

  /** The post-data chunks concatenated in order. */
  function Concat(chunks: seq<string>): string {
    if chunks == [] then "" else Concat(chunks[..|chunks| - 1]) + chunks[|chunks| - 1]
  }

  lemma {:induction false} ConcatAppend(a: seq<string>, b: seq<string>)
    ensures Concat(a + b) == Concat(a) + Concat(b)
    decreases |b|
  {
    if b == [] {
      assert a + b == a;
    } else {
      var init, last := b[..|b| - 1], b[|b| - 1];
      ConcatAppend(a, init);
      assert (a + b)[..|a + b| - 1] == a + init && (a + b)[|a + b| - 1] == last;
      assert Concat(a + b) == Concat(a + init) + last;
      assert Concat(a) + Concat(init) + last == Concat(a) + (Concat(init) + last);
    }
  }

  /** The payload is as long as all chunks together and begins with the first chunk. */
  lemma {:induction false} ConcatLength(chunks: seq<string>)
    ensures |Concat(chunks)| == SumLengths(chunks)
    ensures chunks != [] ==> chunks[0] <= Concat(chunks)
  {
    if chunks != [] {
      ConcatAppend([chunks[0]], chunks[1..]);
      assert [chunks[0]] + chunks[1..] == chunks;
      assert Concat([chunks[0]]) == chunks[0] by {
        assert [chunks[0]][..0] == [];
      }
      ConcatLength(chunks[1..]);
    }
  }

  function SumLengths(chunks: seq<string>): nat {
    if chunks == [] then 0 else |chunks[0]| + SumLengths(chunks[1..])
  }

  /** The loop that accumulates the payload. */
  method BuildPayload(chunks: seq<string>) returns (payload: string)
    ensures payload == Concat(chunks)
  {
    payload := "";
    var k := 0;
    while k < |chunks|
      invariant 0 <= k <= |chunks|
      invariant payload == Concat(chunks[..k])
    {
      assert chunks[..k + 1][..k] == chunks[..k];
      payload := payload + chunks[k];
      k := k + 1;
    }
    assert chunks[..|chunks|] == chunks;
  }

  /** The record a non-blocked request yields. */
  function RecordOf(ev: PausedEvent): (r: Request)
    ensures r.url == ev.url && r.httpMethod == ev.httpMethod && r.responseStatusCode == ev.responseStatusCode
    ensures forall name :: name in r.responseHeaders <==> exists i :: 0 <= i < |ev.responseHeaders| && Names(ev.responseHeaders[i], name)
    ensures ev.postData == [] ==> r.payload == ""
  {
    var r := Request(ev.url, ev.httpMethod, HeadersOf(ev.responseHeaders), ev.responseStatusCode, Concat(ev.postData));
    HeadersOfKeysAll(ev.responseHeaders);
    r
  }

  /** The block-or-forward decision. */
  function Decide(blocked: Option<set<Scheduler.ResourceType>>, ev: PausedEvent): (a: Action)
    ensures a.FailBlockedByClient? <==> Scheduler.IsBlocked(blocked, ev.resourceType)
    ensures a.requestId == ev.requestId
    ensures a.Forward? ==> a.record == RecordOf(ev)
  {
    if Scheduler.IsBlocked(blocked, ev.resourceType) then FailBlockedByClient(ev.requestId)
    else Forward(ev.requestId, RecordOf(ev))
  }

  /** The handler body: the same decision, with the two loops building the record. */
  method Handle(blocked: Option<set<Scheduler.ResourceType>>, ev: PausedEvent) returns (a: Action)
    ensures a == Decide(blocked, ev)
  {
    if Scheduler.IsBlocked(blocked, ev.resourceType) {
      return FailBlockedByClient(ev.requestId);
    }
    var headers := BuildHeaders(ev.responseHeaders);
    var payload := BuildPayload(ev.postData);
    a := Forward(ev.requestId, Request(ev.url, ev.httpMethod, headers, ev.responseStatusCode, payload));
  }

  /**
   * The capacity of each slot's request channel (`make(chan Request, 1)` in
   * `startWorkers`).
   */
  const RequestBuffer: nat := 1

  /**
   * What the handlers of one slot have done so far: the records sitting in
   * the channel, the handlers parked on a full channel (each holding its
   * request paused), and the requests failed and continued.
   */
  datatype Slot = Slot(
    buffer: seq<Request>,
    parked: seq<nat>,
    failed: seq<nat>,
    continued: seq<nat>)

  const Fresh: Slot := Slot([], [], [], [])

  /**
   * One handler run as written. Nothing ever receives from the channel, so
   * once it holds `RequestBuffer` records every further send blocks and that
   * request is never continued.
   */
  function StepAsWritten(s: Slot, blocked: Option<set<Scheduler.ResourceType>>, ev: PausedEvent): Slot {
    match Decide(blocked, ev)
    case FailBlockedByClient(id) => s.(failed := s.failed + [id])
    case Forward(id, rec) =>
      if |s.buffer| < RequestBuffer then s.(buffer := s.buffer + [rec], continued := s.continued + [id])
      else s.(parked := s.parked + [id])
  }

  function RunAsWritten(s: Slot, blocked: Option<set<Scheduler.ResourceType>>, evs: seq<PausedEvent>): Slot
    decreases |evs|
  {
    if evs == [] then s else RunAsWritten(StepAsWritten(s, blocked, evs[0]), blocked, evs[1..])
  }

  /** Once the channel is full, no later request is ever continued. */
  lemma {:induction false} FullChannelStaysStuck(s: Slot, blocked: Option<set<Scheduler.ResourceType>>, evs: seq<PausedEvent>)
    requires |s.buffer| >= RequestBuffer
    ensures RunAsWritten(s, blocked, evs).continued == s.continued
    ensures |RunAsWritten(s, blocked, evs).parked| == |s.parked| + |evs| - CountBlocked(blocked, evs)
    decreases |evs|
  {
    if evs != [] {
      FullChannelStaysStuck(StepAsWritten(s, blocked, evs[0]), blocked, evs[1..]);
    }
  }

  function CountBlocked(blocked: Option<set<Scheduler.ResourceType>>, evs: seq<PausedEvent>): nat {
    if evs == [] then 0
    else (if Scheduler.IsBlocked(blocked, evs[0].resourceType) then 1 else 0) + CountBlocked(blocked, evs[1..])
  }

  /**
   * As written, the second request a slot lets through is never continued:
   * its handler blocks forever on the full channel.
   */
  lemma SecondRequestStuck(blocked: Option<set<Scheduler.ResourceType>>, e1: PausedEvent, e2: PausedEvent)
    requires !Scheduler.IsBlocked(blocked, e1.resourceType) && !Scheduler.IsBlocked(blocked, e2.resourceType)
    requires e1.requestId != e2.requestId
    ensures e2.requestId !in RunAsWritten(Fresh, blocked, [e1, e2]).continued
    ensures RunAsWritten(Fresh, blocked, [e1, e2]).parked == [e2.requestId]
  {
    var s1 := StepAsWritten(Fresh, blocked, e1);
    assert s1.continued == [e1.requestId] && |s1.buffer| == 1 && s1.parked == [];
    var s2 := StepAsWritten(s1, blocked, e2);
    assert s2.continued == [e1.requestId] && s2.parked == [e2.requestId];
    assert [e1, e2][1..] == [e2];
    assert [e2][1..] == [];
    assert RunAsWritten(s1, blocked, [e2]) == RunAsWritten(s2, blocked, []) == s2;
  }

  /**
   * The evidently intended behaviour: every record sent is received (here:
   * appended to `delivered`), so no handler blocks and every forwarded
   * request is continued.
   */
  datatype Drained = Drained(delivered: seq<Request>, failed: seq<nat>, continued: seq<nat>)

  function StepDrained(s: Drained, blocked: Option<set<Scheduler.ResourceType>>, ev: PausedEvent): Drained {
    match Decide(blocked, ev)
    case FailBlockedByClient(id) => s.(failed := s.failed + [id])
    case Forward(id, rec) => s.(delivered := s.delivered + [rec], continued := s.continued + [id])
  }

  function RunDrained(s: Drained, blocked: Option<set<Scheduler.ResourceType>>, evs: seq<PausedEvent>): Drained
    decreases |evs|
  {
    if evs == [] then s else RunDrained(StepDrained(s, blocked, evs[0]), blocked, evs[1..])
  }

  function Forwarded(blocked: Option<set<Scheduler.ResourceType>>, evs: seq<PausedEvent>): seq<PausedEvent> {
    if evs == [] then []
    else (if Scheduler.IsBlocked(blocked, evs[0].resourceType) then [] else [evs[0]]) + Forwarded(blocked, evs[1..])
  }

  function BlockedIds(blocked: Option<set<Scheduler.ResourceType>>, evs: seq<PausedEvent>): seq<nat> {
    if evs == [] then []
    else (if Scheduler.IsBlocked(blocked, evs[0].resourceType) then [evs[0].requestId] else []) + BlockedIds(blocked, evs[1..])
  }

  function Ids(evs: seq<PausedEvent>): seq<nat> {
    if evs == [] then [] else [evs[0].requestId] + Ids(evs[1..])
  }

  function Records(evs: seq<PausedEvent>): seq<Request> {
    if evs == [] then [] else [RecordOf(evs[0])] + Records(evs[1..])
  }

  /**
   * With the channel drained, each non-blocked request yields exactly one
   * record, in order, and is continued; each blocked one is failed and
   * yields none.
   */
  lemma DrainedForwardsEach(s: Drained, blocked: Option<set<Scheduler.ResourceType>>, evs: seq<PausedEvent>)
    ensures RunDrained(s, blocked, evs).delivered == s.delivered + Records(Forwarded(blocked, evs))
    ensures RunDrained(s, blocked, evs).continued == s.continued + Ids(Forwarded(blocked, evs))
    ensures RunDrained(s, blocked, evs).failed == s.failed + BlockedIds(blocked, evs)
  {
    DrainedDelivers(s, blocked, evs);
    DrainedContinues(s, blocked, evs);
    DrainedFails(s, blocked, evs);
  }

  lemma {:induction false} DrainedDelivers(s: Drained, blocked: Option<set<Scheduler.ResourceType>>, evs: seq<PausedEvent>)
    ensures RunDrained(s, blocked, evs).delivered == s.delivered + Records(Forwarded(blocked, evs))
    decreases |evs|
  {
    if evs != [] {
      var s' := StepDrained(s, blocked, evs[0]);
      DrainedDelivers(s', blocked, evs[1..]);
      var rest := Forwarded(blocked, evs[1..]);
      if !Scheduler.IsBlocked(blocked, evs[0].resourceType) {
        assert Forwarded(blocked, evs) == [evs[0]] + rest;
        assert Records([evs[0]] + rest) == [RecordOf(evs[0])] + Records(rest) by {
          assert ([evs[0]] + rest)[1..] == rest;
        }
        assert s'.delivered + Records(rest) == s.delivered + ([RecordOf(evs[0])] + Records(rest));
      } else {
        assert Forwarded(blocked, evs) == rest;
      }
    }
  }

  lemma {:induction false} DrainedContinues(s: Drained, blocked: Option<set<Scheduler.ResourceType>>, evs: seq<PausedEvent>)
    ensures RunDrained(s, blocked, evs).continued == s.continued + Ids(Forwarded(blocked, evs))
    decreases |evs|
  {
    if evs != [] {
      var s' := StepDrained(s, blocked, evs[0]);
      DrainedContinues(s', blocked, evs[1..]);
      var rest := Forwarded(blocked, evs[1..]);
      if !Scheduler.IsBlocked(blocked, evs[0].resourceType) {
        assert Forwarded(blocked, evs) == [evs[0]] + rest;
        assert Ids([evs[0]] + rest) == [evs[0].requestId] + Ids(rest) by {
          assert ([evs[0]] + rest)[1..] == rest;
        }
        assert s'.continued + Ids(rest) == s.continued + ([evs[0].requestId] + Ids(rest));
      } else {
        assert Forwarded(blocked, evs) == rest;
      }
    }
  }

  lemma {:induction false} DrainedFails(s: Drained, blocked: Option<set<Scheduler.ResourceType>>, evs: seq<PausedEvent>)
    ensures RunDrained(s, blocked, evs).failed == s.failed + BlockedIds(blocked, evs)
    decreases |evs|
  {
    if evs != [] {
      var s' := StepDrained(s, blocked, evs[0]);
      DrainedFails(s', blocked, evs[1..]);
      var b := if Scheduler.IsBlocked(blocked, evs[0].resourceType) then [evs[0].requestId] else [];
      assert s'.failed == s.failed + b;
      assert s'.failed + BlockedIds(blocked, evs[1..]) == s.failed + (b + BlockedIds(blocked, evs[1..]));
    }
  }
}
