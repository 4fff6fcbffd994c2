/** AttachManager: the registry of attached containers, the lifecycle-event
    subscribers, and the Listen subscription loop. */
module Manager {
  import opened Types
  import opened GoStrings
  import opened Filter
  import opened Subscription
  import opened Pump
  import Fanout

  /** `listing.ID[:12]` and `msg.ID[:12]`: the short container ID. */
  function ShortId(fullId: string): (r: string)
    requires |fullId| >= 12
    ensures |r| == 12 && HasPrefix(fullId, r)
  {
    fullId[..12]
  }

  /** `container.Name[1:]`: the inspected name without its leading separator. */
  function ContainerName(inspected: string): (r: string)
    requires |inspected| >= 1
    ensures [inspected[0]] + r == inspected
  {
    inspected[1..]
  }

  /** The short IDs for which the runtime-event goroutine of NewAttachManager
      starts an attach, in event order: one per event whose status is "start".
      Those attaches then run concurrently. */
  function StartedIds(msgs: seq<APIEvent>): (r: seq<string>)
    requires forall i :: 0 <= i < |msgs| && msgs[i].status == START ==> |msgs[i].id| >= 12
    ensures |r| <= |msgs|
    ensures forall id :: id in r <==>
      exists i :: 0 <= i < |msgs| && msgs[i].status == START && ShortId(msgs[i].id) == id
  {
    if msgs == [] then []
    else
      var tail := StartedIds(msgs[1..]);
      assert forall i :: 0 < i < |msgs| ==> msgs[i] == msgs[1..][i - 1];
      if msgs[0].status == START then [ShortId(msgs[0].id)] + tail else tail
  }

  /** The runtime-event loop starts one attach per "start" event, in event
      order: the IDs started by a stream of events are those started by its
      first part, then those started by the rest. */
  lemma {:induction false} StartedIdsAppend(a: seq<APIEvent>, b: seq<APIEvent>)
    requires forall i :: 0 <= i < |a| && a[i].status == START ==> |a[i].id| >= 12
    requires forall i :: 0 <= i < |b| && b[i].status == START ==> |b[i].id| >= 12
    ensures forall i :: 0 <= i < |a + b| && (a + b)[i].status == START ==> |(a + b)[i].id| >= 12
    ensures StartedIds(a + b) == StartedIds(a) + StartedIds(b)
    decreases |a|
  {
    assert forall i :: 0 <= i < |a + b| ==> (a + b)[i] == if i < |a| then a[i] else b[i - |a|];
    if a == [] {
      assert a + b == b;
    } else {
      assert (a + b)[1..] == a[1..] + b;
      assert forall i :: 0 <= i < |a[1..]| ==> a[1..][i] == a[i + 1];
      StartedIdsAppend(a[1..], b);
    }
  }

  /** One event: a "start" attaches its short ID once, any other status
      attaches nothing. */
  lemma StartedIdsOne(m: APIEvent)
    requires m.status == START ==> |m.id| >= 12
    ensures m.status == START ==> StartedIds([m]) == [ShortId(m.id)]
    ensures m.status != START ==> StartedIds([m]) == []
  {
    assert [m][1..] == [];
  }

  /** What the runtime reports about one listed container: its full ID, the
      name InspectContainer returns, and whether AttachToContainer signalled
      success. */
  datatype Container = Container(listingId: string, inspectedName: string, attachOk: bool)

  /** The shape of a listed container the source relies on: an ID of at least
      twelve characters and a name with its leading separator. */
  predicate Admissible(c: Container) {
    |c.listingId| >= 12 && |c.inspectedName| >= 1
  }

  /** Short ID to name for the listed containers attached one after the
      other at startup; a later container with the same short ID replaces an
      earlier one. */
  function Discovered(cs: seq<Container>): map<string, string>
    requires forall i :: 0 <= i < |cs| ==> Admissible(cs[i])
  {
    if cs == [] then map[]
    else
      var c := cs[|cs| - 1];
      assert Admissible(c);
      assert forall i :: 0 <= i < |cs| - 1 ==> cs[..|cs| - 1][i] == cs[i];
      var d := Discovered(cs[..|cs| - 1]);
      if c.attachOk then d[ShortId(c.listingId) := ContainerName(c.inspectedName)] else d
  }

  /** Startup registers exactly the short IDs of the containers whose attach succeeded. */
  lemma {:induction false} DiscoveredKeys(cs: seq<Container>)
    requires forall i :: 0 <= i < |cs| ==> Admissible(cs[i])
    ensures Discovered(cs).Keys == set i | 0 <= i < |cs| && cs[i].attachOk :: ShortId(cs[i].listingId)
  {
    if cs != [] {
      var init := cs[..|cs| - 1];
      assert forall i :: 0 <= i < |init| ==> init[i] == cs[i];
      DiscoveredKeys(init);
      assert forall i :: 0 <= i < |init| ==> init[i] == cs[i];
    }
  }

  /** Container `i` is the last listed container whose attach succeeded
      under the short ID `id`. */
  ghost predicate LastAttachOf(cs: seq<Container>, i: int, id: string)
    requires forall k :: 0 <= k < |cs| ==> Admissible(cs[k])
  {
    && 0 <= i < |cs|
    && cs[i].attachOk
    && (assert Admissible(cs[i]); ShortId(cs[i].listingId) == id)
    && forall j :: i < j < |cs| && cs[j].attachOk ==> (assert Admissible(cs[j]); ShortId(cs[j].listingId) != id)
  }

  /** Every registered short ID is named after the last listed container whose
      attach succeeded under that ID (a later one replaces an earlier one). */
  lemma {:induction false} DiscoveredLast(cs: seq<Container>, id: string)
    requires forall i :: 0 <= i < |cs| ==> Admissible(cs[i])
    requires id in Discovered(cs)
    ensures exists i :: LastAttachOf(cs, i, id) && Discovered(cs)[id] == ContainerName(cs[i].inspectedName)
  {
    var n := |cs| - 1;
    var c := cs[n];
    var init := cs[..n];
    assert forall i :: 0 <= i < |init| ==> init[i] == cs[i];
    if c.attachOk && ShortId(c.listingId) == id {
      assert LastAttachOf(cs, n, id);
    } else {
      assert id in Discovered(init) && Discovered(cs)[id] == Discovered(init)[id];
      DiscoveredLast(init, id);
      var i :| LastAttachOf(init, i, id) && Discovered(init)[id] == ContainerName(init[i].inspectedName);
      assert LastAttachOf(cs, i, id);
    }
  }

  class AttachManager {
    var attached: map<string, LogPump>
    var channels: set<EventChan>

    /** Every registered pump carries the ID it is registered under. */
    ghost predicate Valid()
      reads this
    {
      forall id :: id in attached ==> attached[id].id == id
    }

    /** The pumps registered under `ids`. */
    ghost function PumpsOf(ids: seq<string>): set<LogPump>
      reads this
    {
      set id | id in ids && id in attached :: attached[id]
    }

    lemma PumpsOfSnoc(ids: seq<string>, id: string)
      requires id in attached
      ensures PumpsOf(ids + [id]) == PumpsOf(ids) + {attached[id]}
    {
      assert forall x :: x in ids + [id] <==> x in ids || x == id;
    }

    /** NewAttachManager: attach every listed container, one after the other.
        The runtime calls are replaced by what they return (`containers`). */
    constructor (containers: seq<Container>)
      requires forall i :: 0 <= i < |containers| ==> Admissible(containers[i])
      ensures Valid() && channels == {}
      ensures attached.Keys == Discovered(containers).Keys
      ensures forall id :: id in attached ==>
        && fresh(attached[id])
        && attached[id].name == Discovered(containers)[id]
        && attached[id].channels == {}
    {
      attached := map[];
      channels := {};
      new;
      var i := 0;
      while i < |containers|
        invariant 0 <= i <= |containers|
        invariant Valid() && channels == {}
        invariant attached.Keys == Discovered(containers[..i]).Keys
        invariant forall id :: id in attached ==>
          && fresh(attached[id])
          && attached[id].name == Discovered(containers[..i])[id]
          && attached[id].channels == {}
      {
        var c := containers[i];
        assert containers[..i + 1][..i] == containers[..i];
        assert Admissible(c);
        assert forall j :: 0 <= j < i + 1 ==> containers[..i + 1][j] == containers[j];
        var _ := Attach(ShortId(c.listingId), c.inspectedName, c.attachOk);
        i := i + 1;
      }
      assert containers[..|containers|] == containers;
    }

    /** The bookkeeping of `attach` once the runtime has answered: on success
        a fresh pump is registered under `id` and an attach event is broadcast;
        on failure nothing changes. */
    method Attach(id: string, inspectedName: string, attachOk: bool) returns (sent: seq<Delivery<EventChan, AttachEvent>>)
      requires Valid()
      requires |inspectedName| >= 1
      modifies this`attached
      ensures Valid()
      ensures !attachOk ==> attached == old(attached) && sent == []
      ensures attachOk ==>
        && id in attached
        && fresh(attached[id])
        && attached[id].id == id
        && attached[id].name == ContainerName(inspectedName)
        && attached[id].channels == {}
        && attached == old(attached)[id := attached[id]]
        && Fanout.Broadcast(sent, AttachEvent(ATTACH, id, ContainerName(inspectedName)), channels)
    {
      var name := ContainerName(inspectedName);
      if attachOk {
        var pump := new LogPump(id, name);
        attached := attached[id := pump];
        sent := Send(AttachEvent(ATTACH, id, name));
      } else {
        sent := [];
      }
    }

    /** The end of the attach goroutine once AttachToContainer returns. On a
        clean end a detach event is broadcast and `id` leaves the registry. On
        an error the goroutine blocks for ever on the unread failure channel,
        so neither happens. */
    method StreamEnded(id: string, name: string, failed: bool) returns (sent: seq<Delivery<EventChan, AttachEvent>>)
      requires Valid()
      modifies this`attached
      ensures Valid()
      ensures failed ==> attached == old(attached) && sent == []
      ensures !failed ==>
        && attached == old(attached) - {id}
        && id !in attached
        && Fanout.Broadcast(sent, AttachEvent(DETACH, id, name), channels)
    {
      if failed {
        sent := [];
      } else {
        sent := Send(AttachEvent(DETACH, id, name));
        attached := attached - {id};
      }
    }

    /** AttachManager.send: every subscriber channel receives `event` once. */
    method Send(event: AttachEvent) returns (sent: seq<Delivery<EventChan, AttachEvent>>)
      ensures Fanout.Broadcast(sent, event, channels)
      ensures |sent| == |channels|
    {
      sent := Fanout.Send(channels, event);
      Fanout.BroadcastCount(sent, event, channels);
    }

    /** The goroutine of addListener: one attach event per registered
        container, carrying its ID and its pump's name, each ID once. */
    method Replay() returns (replay: seq<AttachEvent>)
      ensures |replay| == |attached|
      ensures forall i :: 0 <= i < |replay| ==>
        replay[i].typ == ATTACH && replay[i].id in attached && replay[i].name == attached[replay[i].id].name
      ensures forall id :: id in attached ==> exists i :: 0 <= i < |replay| && replay[i].id == id
      ensures forall i, j :: 0 <= i < j < |replay| ==> replay[i].id != replay[j].id
    {
      replay := [];
      var rest := attached.Keys;
      while rest != {}
        invariant rest <= attached.Keys
        invariant |replay| + |rest| == |attached|
        invariant forall i :: 0 <= i < |replay| ==>
          replay[i].typ == ATTACH && replay[i].id in attached.Keys - rest && replay[i].name == attached[replay[i].id].name
        invariant forall id :: id in attached.Keys - rest ==> exists i :: 0 <= i < |replay| && replay[i].id == id
        invariant forall i, j :: 0 <= i < j < |replay| ==> replay[i].id != replay[j].id
        decreases rest
      {
        var id :| id in rest;
        var prev := replay;
        replay := replay + [AttachEvent(ATTACH, id, attached[id].name)];
        forall id' | id' in attached.Keys - (rest - {id})
          ensures exists i :: 0 <= i < |replay| && replay[i].id == id'
        {
          if id' == id {
            assert replay[|prev|].id == id;
          } else {
            assert id' in attached.Keys - rest;
            var i :| 0 <= i < |prev| && prev[i].id == id';
            assert replay[i] == prev[i];
          }
        }
        rest := rest - {id};
      }
      assert attached.Keys - rest == attached.Keys;
    }

    /** addListener: inserts exactly `ch` into the subscriber set (idempotent)
        and yields the replay events for it. */
    method AddListener(ch: EventChan) returns (replay: seq<AttachEvent>)
      modifies this`channels
      ensures channels == old(channels) + {ch}
      ensures ch in old(channels) ==> channels == old(channels)
      ensures |replay| == |attached|
      ensures forall i :: 0 <= i < |replay| ==>
        replay[i].typ == ATTACH && replay[i].id in attached && replay[i].name == attached[replay[i].id].name
      ensures forall id :: id in attached ==> exists i :: 0 <= i < |replay| && replay[i].id == id
    {
      channels := channels + {ch};
      replay := Replay();
    }

    /** removeListener: deletes exactly `ch` from the subscriber set (idempotent). */
    method RemoveListener(ch: EventChan)
      modifies this`channels
      ensures channels == old(channels) - {ch}
      ensures ch !in old(channels) ==> channels == old(channels)
    {
      channels := channels - {ch};
    }

    /** AttachManager.Get: the pump registered under `id`, or nil. */
    function Get(id: string): (p: LogPump?)
      reads this
      ensures p != null <==> id in attached
      ensures p != null ==> p == attached[id]
      ensures Valid() && p != null ==> p.id == id
    {
      if id in attached then attached[id] else null
    }

    /** The pumps behind a list of registered IDs are the deferred pumps. */
    lemma PumpsOfPaired(ids: seq<string>, deferred: seq<LogPump>)
      requires |deferred| == |ids|
      requires forall k :: 0 <= k < |ids| ==> ids[k] in attached && deferred[k] == attached[ids[k]]
      ensures forall p :: p in deferred <==> p in PumpsOf(ids)
    {
      forall p | p in PumpsOf(ids) ensures p in deferred {
        var id :| id in ids && id in attached && attached[id] == p;
        var k :| 0 <= k < |ids| && ids[k] == id;
        assert deferred[k] == p;
      }
      forall p | p in deferred ensures p in PumpsOf(ids) {
        var k :| 0 <= k < |deferred| && deferred[k] == p;
        assert ids[k] in ids;
      }
    }

    /** The deferred calls of Listen, last registered first: the log stream
        leaves every pump it was added to, then `events` leaves the
        subscriber set. `ids` are the container IDs the pumps were found under. */
    method Unwind(deferred: seq<LogPump>, ghost ids: seq<string>, logstream: LogChan, events: EventChan)
      requires |deferred| == |ids|
      requires forall k :: 0 <= k < |ids| ==> ids[k] in attached && deferred[k] == attached[ids[k]]
      modifies this`channels, attached.Values
      ensures channels == old(channels) - {events}
      ensures forall p :: p in attached.Values ==>
        p.channels == if p in PumpsOf(ids) then old(p.channels) - {logstream} else old(p.channels)
    {
      var k := |deferred|;
      while k > 0
        invariant 0 <= k <= |deferred|
        invariant channels == old(channels)
        invariant forall p :: p in attached.Values ==>
          p.channels == if p in deferred[k..] then old(p.channels) - {logstream} else old(p.channels)
      {
        k := k - 1;
        assert deferred[k] in attached.Values by {
          assert attached[ids[k]] == deferred[k];
        }
        deferred[k].RemoveListener(logstream);
        assert forall p :: p in deferred[k..] <==> p == deferred[k] || p in deferred[k + 1..];
      }
      PumpsOfPaired(ids, deferred);
      RemoveListener(events);
    }

    /** AttachManager.Listen over the inputs its select receives. `events` is
        the channel the call makes for itself, so it is not yet a subscriber.
        On every return the log stream is removed from each pump it was added
        to and `events` from the subscriber set; while blocked, both
        registrations stay. */
    method Listen(source: Option<Source>, logstream: LogChan, events: EventChan, inputs: seq<Input>) returns (ending: Ending)
      requires Valid()
      requires events !in channels
      modifies this`channels, attached.Values
      ensures Valid() && attached == old(attached)
      ensures ending == RunListen(Normalize(source), attached.Keys, inputs).ending
      ensures channels == if ending == Blocked then old(channels) + {events} else old(channels)
      ensures forall p :: p in attached.Values ==>
        p.channels ==
          if p !in PumpsOf(RunListen(Normalize(source), attached.Keys, inputs).registered) then old(p.channels)
          else if ending == Blocked then old(p.channels) + {logstream}
          else old(p.channels) - {logstream}
    {
      var src := Normalize(source);
      var _ := AddListener(events);
      label Subscribed:
      assert forall p :: p in attached.Values ==> old@Subscribed(p.channels) == old(p.channels);
      var deferred: seq<LogPump>;
      ghost var ids: seq<string>;
      ending, deferred, ids := Serve(src, logstream, inputs);
      assert channels == old(channels) + {events};
      if ending != Blocked {
        Unwind(deferred, ids, logstream, events);
      }
    }

    /** The `for { select { ... } }` loop of Listen: it reads inputs until one
        ends the call, adding the log stream to the pump of every matching
        attach event. `deferred` are those pumps in order, found under `ids`. */
    method Serve(src: Source, logstream: LogChan, inputs: seq<Input>) returns (ending: Ending, deferred: seq<LogPump>, ghost ids: seq<string>)
      requires Valid()
      modifies attached.Values
      ensures ending == RunListen(src, attached.Keys, inputs).ending
      ensures ids == RunListen(src, attached.Keys, inputs).registered
      ensures |deferred| == |ids|
      ensures forall k :: 0 <= k < |ids| ==> ids[k] in attached && deferred[k] == attached[ids[k]]
      ensures forall p :: p in attached.Values ==>
        p.channels == if p in PumpsOf(ids) then old(p.channels) + {logstream} else old(p.channels)
    {
      ghost var run := RunListen(src, attached.Keys, inputs);
      deferred, ids := [], [];
      var i := 0;
      while i < |inputs|
        invariant 0 <= i <= |inputs|
        invariant run == RunFrom(src, attached.Keys, inputs, i, ids)
        invariant |deferred| == |ids|
        invariant forall k :: 0 <= k < |ids| ==> ids[k] in attached && deferred[k] == attached[ids[k]]
        invariant forall p :: p in attached.Values ==>
          p.channels == if p in PumpsOf(ids) then old(p.channels) + {logstream} else old(p.channels)
      {
        var x := inputs[i];
        ghost var before := ids;
        if x.Close? {
          RunFromEnd(src, attached.Keys, inputs, i, ids);
          return Closed, deferred, ids;
        }
        var action := Classify(src, x.event);
        if action == Stop {
          RunFromEnd(src, attached.Keys, inputs, i, ids);
          return Detached, deferred, ids;
        } else if action == Register {
          var pump := Get(x.event.id);
          if pump == null {
            RunFromEnd(src, attached.Keys, inputs, i, ids);
            return Faulted, deferred, ids;
          }
          pump.AddListener(logstream);
          PumpsOfSnoc(ids, x.event.id);
          deferred, ids := deferred + [pump], ids + [x.event.id];
        } else {
          assert before + [] == before;
        }
        RunFromStep(src, attached.Keys, inputs, i, before);
        i := i + 1;
      }
      ending := Blocked;
    }
  }
}
