/** The instance-readiness poll (`getInstanceIP`): query the instance, record
    its ip address as `host` whenever the answer carries one, stop at status
    `active`, otherwise wait 2000 ms and ask again; a failed query ends the poll
    at once. The provider's answers are a finite script; a poll that uses up the
    script without stopping is `Unfinished` (the source would go on polling). */
module Readiness {
  import opened RunState
  import opened External

  const ActiveStatus: string := "active"
  const PollDelayMs: nat := 2000

  datatype PollEnd = Active | Failed(error: ApiError) | Unfinished

  /** How a poll ends, the last ip it wrote to `host` (`None`: it wrote none),
      and the calls it made, in order. */
  datatype PollRun = PollRun(end: PollEnd, host: Option<string>, events: seq<Event>)

  /** A response after which the poll asks no more. */
  predicate Stops(r: QueryResponse)
  {
    r.QueryRejected? || r.status == ActiveStatus
  }

  /** The later of two optional writes. */
  function Latest(earlier: Option<string>, later: Option<string>): Option<string>
  {
    if later.Some? then later else earlier
  }

  /** The `setItem('host', ip)` of one answer, when it carries an ip. */
  function HostWrite(ip: Option<string>): seq<Event>
  {
    if ip.Some? then [SetItem(HostKey, ip)] else []
  }

  /** The poll as the source writes it, one recursive call per answer. */
  function Poll(id: Option<string>, script: seq<QueryResponse>): PollRun
    decreases |script|
  {
    if script == [] then PollRun(Unfinished, None, [])
    else match script[0]
      case QueryRejected(e) => PollRun(Failed(e), None, [GetRunningInstance(id)])
      case Instance(status, ip) =>
        var step := [GetRunningInstance(id)] + HostWrite(ip);
        if status == ActiveStatus then PollRun(Active, ip, step)
        else
          var rest := Poll(id, script[1..]);
          PollRun(rest.end, Latest(ip, rest.host), step + [Sleep(PollDelayMs)] + rest.events)
  }

  /** The store after a poll that last wrote `written` to `host`, if anything. */
  function StoreAfter(s: Store, written: Option<string>): Store
  {
    if written.Some? then Put(s, HostKey, written) else s
  }

  /** A later write to `host` overrides an earlier one. */
  lemma StoreAfterLatest(s: Store, earlier: Option<string>, later: Option<string>)
    ensures StoreAfter(StoreAfter(s, earlier), later) == StoreAfter(s, Latest(earlier, later))
  {
    if later.Some? && earlier.Some? {
      assert s[HostKey := earlier.value][HostKey := later.value] == s[HostKey := later.value];
    }
  }

  // Reference definitions, each read from the END of a prefix of the script.

  function IpOf(r: QueryResponse): Option<string>
  {
    if r.Instance? then r.ip else None
  }

  /** The ip of the last answer in `rs` that carried one. */
  function LastIp(rs: seq<QueryResponse>): Option<string>
  {
    if rs == [] then None else Latest(LastIp(rs[..|rs| - 1]), IpOf(rs[|rs| - 1]))
  }

  /** The calls made while answering one response: the query, then the write of its ip. */
  function StepEvents(id: Option<string>, r: QueryResponse): seq<Event>
  {
    [GetRunningInstance(id)] + HostWrite(IpOf(r))
  }

  /** The calls made for answers that did not stop the poll: each is followed by a 2000 ms sleep. */
  function Waits(id: Option<string>, rs: seq<QueryResponse>): seq<Event>
  {
    if rs == [] then []
    else Waits(id, rs[..|rs| - 1]) + StepEvents(id, rs[|rs| - 1]) + [Sleep(PollDelayMs)]
  }

  function Queries(es: seq<Event>): nat
  {
    if es == [] then 0 else (if es[0].GetRunningInstance? then 1 else 0) + Queries(es[1..])
  }

  function Sleeps(es: seq<Event>): nat
  {
    if es == [] then 0 else (if es[0].Sleep? then 1 else 0) + Sleeps(es[1..])
  }

  lemma {:induction false} CountsAppend(a: seq<Event>, b: seq<Event>)
    ensures Queries(a + b) == Queries(a) + Queries(b)
    ensures Sleeps(a + b) == Sleeps(a) + Sleeps(b)
  {
    if a == [] {
      assert a + b == b;
    } else {
      assert (a + b)[1..] == a[1..] + b;
      CountsAppend(a[1..], b);
    }
  }

  /** Calls that are neither queries nor sleeps count as neither. */
  lemma {:induction false} CountsNone(es: seq<Event>)
    requires forall j :: 0 <= j < |es| ==> !es[j].GetRunningInstance? && !es[j].Sleep?
    ensures Queries(es) == 0 && Sleeps(es) == 0
  {
    if es != [] {
      CountsNone(es[1..]);
    }
  }

  /** One answer costs exactly one query and no sleep. */
  lemma StepCounts(id: Option<string>, r: QueryResponse)
    ensures Queries(StepEvents(id, r)) == 1 && Sleeps(StepEvents(id, r)) == 0
  {
    var w := HostWrite(IpOf(r));
    assert StepEvents(id, r) == [GetRunningInstance(id)] + w;
    assert Queries(w) == 0 && Sleeps(w) == 0 by {
      if IpOf(r).Some? {
        assert w[1..] == [];
      }
    }
    CountsAppend([GetRunningInstance(id)], w);
    assert [GetRunningInstance(id)][1..] == [];
  }

  /** `k` answers that do not stop the poll cost `k` queries and `k` sleeps. */
  lemma {:induction false} WaitsCounts(id: Option<string>, rs: seq<QueryResponse>)
    ensures Queries(Waits(id, rs)) == |rs| && Sleeps(Waits(id, rs)) == |rs|
  {
    if rs != [] {
      var init, last := rs[..|rs| - 1], rs[|rs| - 1];
      WaitsCounts(id, init);
      StepCounts(id, last);
      CountsAppend(Waits(id, init), StepEvents(id, last));
      CountsAppend(Waits(id, init) + StepEvents(id, last), [Sleep(PollDelayMs)]);
      assert [Sleep(PollDelayMs)][1..] == [];
    }
  }

  /** One answer that does not stop the poll: its query, its write, the sleep, then the rest. */
  lemma PollUnfold(id: Option<string>, script: seq<QueryResponse>)
    requires script != [] && !Stops(script[0])
    ensures var rest := Poll(id, script[1..]);
      Poll(id, script) == PollRun(rest.end, Latest(IpOf(script[0]), rest.host),
                                  StepEvents(id, script[0]) + [Sleep(PollDelayMs)] + rest.events)
  {
  }

  /** Extending a prefix by one answer extends the reference definitions by that answer. */
  lemma PrefixSnoc(id: Option<string>, script: seq<QueryResponse>, i: nat)
    requires i < |script|
    ensures LastIp(script[..i + 1]) == Latest(LastIp(script[..i]), IpOf(script[i]))
    ensures Waits(id, script[..i + 1]) == Waits(id, script[..i]) + StepEvents(id, script[i]) + [Sleep(PollDelayMs)]
  {
    assert script[..i + 1][..i] == script[..i];
    assert script[..i + 1][i] == script[i];
  }

  /** The store after the answers `script[..i]` and then the answer `script[i]`. */
  lemma StoreAfterAnswer(s: Store, script: seq<QueryResponse>, i: nat)
    requires i < |script|
    ensures StoreAfter(StoreAfter(s, LastIp(script[..i])), IpOf(script[i])) == StoreAfter(s, LastIp(script[..i + 1]))
  {
    StoreAfterLatest(s, LastIp(script[..i]), IpOf(script[i]));
    PrefixSnoc(None, script, i);
  }

  /** The log of a poll that has waited on `script[..i]` and is stopped by `script[i]`. */
  lemma LogAtStop(log0: seq<Event>, id: Option<string>, script: seq<QueryResponse>, i: nat)
    requires i < |script| && Stops(script[i])
    requires forall j :: 0 <= j < i ==> !Stops(script[j])
    ensures log0 + Poll(id, script).events == (log0 + Waits(id, script[..i])) + StepEvents(id, script[i])
  {
    PollAtFirstStop(id, script, i);
  }

  /** The log of a poll that has waited on `script[..i]` and then waits on `script[i]`. */
  lemma LogAfterWait(log0: seq<Event>, id: Option<string>, script: seq<QueryResponse>, i: nat)
    requires i < |script|
    ensures log0 + Waits(id, script[..i + 1])
         == (log0 + Waits(id, script[..i])) + StepEvents(id, script[i]) + [Sleep(PollDelayMs)]
  {
    PrefixSnoc(id, script, i);
  }

  /** `PollUnfold` on the suffix of `script` from index `i`. */
  lemma PollUnfoldAt(id: Option<string>, script: seq<QueryResponse>, i: nat)
    requires i < |script| && !Stops(script[i])
    ensures var rest := Poll(id, script[i + 1..]);
      Poll(id, script[i..]) == PollRun(rest.end, Latest(IpOf(script[i]), rest.host),
                                       StepEvents(id, script[i]) + [Sleep(PollDelayMs)] + rest.events)
  {
    var tail := script[i..];
    assert tail[0] == script[i];
    assert tail[1..] == script[i + 1..];
    PollUnfold(id, tail);
  }

  /** A prefix of answers that do not stop the poll can be split off: the poll
      makes their calls, then goes on exactly as a poll of the rest would. */
  lemma {:induction false} PollAfterWaits(id: Option<string>, script: seq<QueryResponse>, i: nat)
    requires i <= |script|
    requires forall j :: 0 <= j < i ==> !Stops(script[j])
    ensures var rest := Poll(id, script[i..]);
      Poll(id, script) == PollRun(rest.end, Latest(LastIp(script[..i]), rest.host), Waits(id, script[..i]) + rest.events)
  {
    if i == 0 {
      assert script[..0] == [];
      assert script[0..] == script;
    } else {
      var k := i - 1;
      var before, rest := Poll(id, script[k..]), Poll(id, script[i..]);
      var mid := StepEvents(id, script[k]) + [Sleep(PollDelayMs)];
      assert Poll(id, script) == PollRun(before.end, Latest(LastIp(script[..k]), before.host), Waits(id, script[..k]) + before.events) by {
        PollAfterWaits(id, script, k);
      }
      assert before == PollRun(rest.end, Latest(IpOf(script[k]), rest.host), mid + rest.events) by {
        PollUnfoldAt(id, script, k);
        assert k + 1 == i;
      }
      assert LastIp(script[..i]) == Latest(LastIp(script[..k]), IpOf(script[k])) && Waits(id, script[..i]) == Waits(id, script[..k]) + mid by {
        PrefixSnoc(id, script, k);
        assert k + 1 == i;
      }
      assert Waits(id, script[..k]) + (mid + rest.events) == (Waits(id, script[..k]) + mid) + rest.events;
    }
  }

  /** When the first answer that stops the poll is at index `k`: the poll ends
      `Active` or `Failed` as that answer says, its calls are those of the
      answers before `k` (each followed by a sleep) and then the query and
      write of answer `k`, with nothing after; and `host` was last written
      with the ip of the last answer up to `k` that carried one. */
  lemma PollAtFirstStop(id: Option<string>, script: seq<QueryResponse>, k: nat)
    requires k < |script| && Stops(script[k])
    requires forall j :: 0 <= j < k ==> !Stops(script[j])
    ensures var p := Poll(id, script);
      && p.end == (if script[k].QueryRejected? then Failed(script[k].error) else Active)
      && p.host == LastIp(script[..k + 1])
      && p.events == Waits(id, script[..k]) + StepEvents(id, script[k])
  {
    PollAfterWaits(id, script, k);
    assert script[k..][0] == script[k];
    PrefixSnoc(id, script, k);
  }

  /** A poll whose first stopping answer is at index `k` queries exactly
      `k + 1` times and sleeps exactly `k` times. */
  lemma PollCountsAtFirstStop(id: Option<string>, script: seq<QueryResponse>, k: nat)
    requires k < |script| && Stops(script[k])
    requires forall j :: 0 <= j < k ==> !Stops(script[j])
    ensures Queries(Poll(id, script).events) == k + 1
    ensures Sleeps(Poll(id, script).events) == k
  {
    PollAtFirstStop(id, script, k);
    WaitsCounts(id, script[..k]);
    StepCounts(id, script[k]);
    CountsAppend(Waits(id, script[..k]), StepEvents(id, script[k]));
  }

  /** When no answer stops the poll, it is still unfinished after the calls
      of every answer, each followed by a sleep. */
  lemma PollWithoutStop(id: Option<string>, script: seq<QueryResponse>)
    requires forall j :: 0 <= j < |script| ==> !Stops(script[j])
    ensures var p := Poll(id, script);
      && p.end == Unfinished
      && p.host == LastIp(script)
      && p.events == Waits(id, script)
  {
    PollAfterWaits(id, script, |script|);
    assert script[..|script|] == script;
    assert script[|script|..] == [];
  }

  /** An unfinished poll asked once and slept once per answer. */
  lemma PollCountsWithoutStop(id: Option<string>, script: seq<QueryResponse>)
    requires forall j :: 0 <= j < |script| ==> !Stops(script[j])
    ensures Queries(Poll(id, script).events) == |script|
    ensures Sleeps(Poll(id, script).events) == |script|
  {
    PollWithoutStop(id, script);
    WaitsCounts(id, script);
  }

  /** `host` keeps its old value exactly when no answer seen carried an ip. */
  lemma {:induction false} LastIpNone(rs: seq<QueryResponse>)
    ensures LastIp(rs) == None <==> forall j :: 0 <= j < |rs| ==> IpOf(rs[j]) == None
  {
    if rs != [] {
      var init := rs[..|rs| - 1];
      LastIpNone(init);
      assert forall j :: 0 <= j < |init| ==> init[j] == rs[j];
    }
  }

  /** The ip is written before the status is checked: an `active` answer that
      carries an ip still leaves that ip in `host`, and its write is the last call. */
  lemma ActiveAnswerWritesHost(id: Option<string>, script: seq<QueryResponse>, k: nat, ip: string)
    requires k < |script| && script[k] == Instance(ActiveStatus, Some(ip))
    requires forall j :: 0 <= j < k ==> !Stops(script[j])
    ensures var p := Poll(id, script);
      p.end == Active && p.host == Some(ip) && p.events[|p.events| - 1] == SetItem(HostKey, Some(ip))
  {
    PollAtFirstStop(id, script, k);
    assert script[..k + 1][..k] == script[..k];
    assert script[..k + 1][k] == script[k];
  }

  /** A poll that stops at index `k` with no answer up to `k` carrying an ip
      leaves the store exactly as it found it. */
  lemma HostUnchangedWithoutIp(s: Store, id: Option<string>, script: seq<QueryResponse>, k: nat)
    requires k < |script| && Stops(script[k])
    requires forall j :: 0 <= j < k ==> !Stops(script[j])
    requires forall j :: 0 <= j <= k ==> IpOf(script[j]) == None
    ensures StoreAfter(s, Poll(id, script).host) == s
  {
    PollAtFirstStop(id, script, k);
    var seen := script[..k + 1];
    assert forall j :: 0 <= j < |seen| ==> seen[j] == script[j];
    LastIpNone(seen);
  }
}
