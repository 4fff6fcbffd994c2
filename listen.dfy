/** The event loop of AttachManager.Listen as a state machine over the
    finite sequence of things its `select` receives. */
module Subscription {
  import opened Types
  import opened Filter

  /** One completed receive of the select: an event on the subscription's
      event channel, or the closer signal. */
  datatype Input = Receive(event: AttachEvent) | Close

  /** How a Listen call stands after its inputs: returned on the closer,
      returned on an ID-scoped detach, panicked on a nil pump, or still
      blocked in the select waiting for more input. */
  datatype Ending = Closed | Detached | Faulted | Blocked

  /** The result of running the loop: how it ended, how many inputs it
      consumed, and the container IDs whose pumps got the log stream, in order. */
  datatype Run = Run(ending: Ending, consumed: nat, registered: seq<string>)

  /** The effect of one input given the registered container IDs `known`:
      Blocked means the loop goes on. An attach match whose pump is absent
      calls AddListener on nil, which panics. */
  function Effect(s: Source, known: set<string>, x: Input): Ending {
    match x
    case Close => Closed
    case Receive(e) =>
      match Classify(s, e)
      case Register => if e.id in known then Blocked else Faulted
      case Stop => Detached
      case Skip => Blocked
  }

  /** The pump IDs one input registers the log stream on. */
  function RegisteredBy(s: Source, x: Input): seq<string> {
    if x.Receive? && Classify(s, x.event) == Register then [x.event.id] else []
  }

  /** The loop from input `i` on, with `acc` registered so far. */
  function RunFrom(s: Source, known: set<string>, inputs: seq<Input>, i: nat, acc: seq<string>): Run
    requires i <= |inputs|
    decreases |inputs| - i
  {
    if i == |inputs| then Run(Blocked, i, acc)
    else if Effect(s, known, inputs[i]) != Blocked then Run(Effect(s, known, inputs[i]), i + 1, acc)
    else RunFrom(s, known, inputs, i + 1, acc + RegisteredBy(s, inputs[i]))
  }

  lemma RunFromStep(s: Source, known: set<string>, inputs: seq<Input>, i: nat, acc: seq<string>)
    requires i < |inputs| && Effect(s, known, inputs[i]) == Blocked
    ensures RunFrom(s, known, inputs, i, acc) == RunFrom(s, known, inputs, i + 1, acc + RegisteredBy(s, inputs[i]))
  {
  }

  lemma RunFromEnd(s: Source, known: set<string>, inputs: seq<Input>, i: nat, acc: seq<string>)
    requires i < |inputs| && Effect(s, known, inputs[i]) != Blocked
    ensures RunFrom(s, known, inputs, i, acc) == Run(Effect(s, known, inputs[i]), i + 1, acc)
  {
  }

  /** A whole Listen call; a nil source has been replaced by the match-all one. */
  function RunListen(s: Source, known: set<string>, inputs: seq<Input>): Run {
    RunFrom(s, known, inputs, 0, [])
  }

  /** The IDs registered by a stretch of inputs that did not end the loop. */
  function Registrations(s: Source, xs: seq<Input>): seq<string> {
    if xs == [] then [] else RegisteredBy(s, xs[0]) + Registrations(s, xs[1..])
  }

  /** The number of inputs the loop handled without ending on them. */
  function Settled(r: Run): nat {
    if r.ending == Blocked || r.consumed == 0 then r.consumed else r.consumed - 1
  }

  /** The loop ends at the first input whose effect is not Blocked, with that
      effect; before it, every input let the loop go on and the registered IDs
      are those of the attach matches among them. */
  lemma {:induction false} RunFromShape(s: Source, known: set<string>, inputs: seq<Input>, i: nat, acc: seq<string>)
    requires i <= |inputs|
    ensures var r := RunFrom(s, known, inputs, i, acc);
      && i <= Settled(r) <= r.consumed <= |inputs|
      && (forall j :: i <= j < Settled(r) ==> Effect(s, known, inputs[j]) == Blocked)
      && (r.ending == Blocked ==> r.consumed == |inputs|)
      && (r.ending != Blocked ==> r.consumed == Settled(r) + 1 && Effect(s, known, inputs[Settled(r)]) == r.ending)
      && r.registered == acc + Registrations(s, inputs[i..Settled(r)])
    decreases |inputs| - i
  {
    if i < |inputs| && Effect(s, known, inputs[i]) == Blocked {
      var acc' := acc + RegisteredBy(s, inputs[i]);
      RunFromShape(s, known, inputs, i + 1, acc');
      var r := RunFrom(s, known, inputs, i + 1, acc');
      assert inputs[i..Settled(r)][1..] == inputs[i + 1..Settled(r)];
      assert inputs[i..Settled(r)][0] == inputs[i];
    } else {
      assert inputs[i..i] == [];
    }
  }

  /** The registered IDs are exactly those of the matching attach events. */
  lemma {:induction false} RegistrationsIff(s: Source, xs: seq<Input>, id: string)
    ensures id in Registrations(s, xs) <==>
      exists j :: 0 <= j < |xs| && xs[j].Receive? && xs[j].event.id == id && Classify(s, xs[j].event) == Register
  {
    if xs != [] {
      RegistrationsIff(s, xs[1..], id);
      if id in Registrations(s, xs[1..]) {
        var j :| 0 <= j < |xs[1..]| && xs[1..][j].Receive? && xs[1..][j].event.id == id && Classify(s, xs[1..][j].event) == Register;
        assert xs[j + 1] == xs[1..][j];
      }
      if exists j :: 0 <= j < |xs| && xs[j].Receive? && xs[j].event.id == id && Classify(s, xs[j].event) == Register {
        var j :| 0 <= j < |xs| && xs[j].Receive? && xs[j].event.id == id && Classify(s, xs[j].event) == Register;
        if j > 0 {
          assert xs[1..][j - 1] == xs[j];
        }
      }
    }
  }

  /** A nil (match-all) source never returns on a detach event. */
  lemma NilSourceNeverDetaches(known: set<string>, inputs: seq<Input>)
    ensures RunListen(Normalize(None), known, inputs).ending != Detached
  {
    var s := Normalize(None);
    RunFromShape(s, known, inputs, 0, []);
    var r := RunListen(s, known, inputs);
    if r.ending != Blocked {
      var x := inputs[Settled(r)];
      if x.Receive? {
        MatchAllRule(s, x.event);
      }
    }
  }

  /** Listen returns on a detach only for an ID-scoped source whose ID starts
      the detach's container ID. */
  lemma DetachedOnlyWhenIdScoped(s: Source, known: set<string>, inputs: seq<Input>)
    ensures var r := RunListen(s, known, inputs);
      r.ending == Detached ==>
        && 0 < r.consumed <= |inputs|
        && s.id != ""
        && inputs[r.consumed - 1].Receive?
        && inputs[r.consumed - 1].event.typ == DETACH
        && exists rest :: inputs[r.consumed - 1].event.id == s.id + rest
  {
    RunFromShape(s, known, inputs, 0, []);
    var r := RunListen(s, known, inputs);
    if r.ending == Detached {
      StopRule(s, inputs[r.consumed - 1].event);
    }
  }

  /** Scenario: an ID-scoped call that sees its container's attach and then
      its detach registers on that pump once and returns on the detach. */
  lemma IdScopedAttachThenDetach(id: string, name: string, known: set<string>)
    requires |id| > 0 && id in known
    ensures RunListen(Source(id, "", "", []), known,
                      [Receive(AttachEvent(ATTACH, id, name)), Receive(AttachEvent(DETACH, id, name))])
         == Run(Detached, 2, [id])
  {
    var s := Source(id, "", "", []);
    assert AttachMatches(s, AttachEvent(ATTACH, id, name)) by {
      assert id[..|id|] == id;
    }
    assert DetachTerminates(s, AttachEvent(DETACH, id, name)) by {
      assert id[..|id|] == id;
    }
    var inputs := [Receive(AttachEvent(ATTACH, id, name)), Receive(AttachEvent(DETACH, id, name))];
    assert Effect(s, known, inputs[0]) == Blocked;
    assert RegisteredBy(s, inputs[0]) == [id];
    assert Effect(s, known, inputs[1]) == Detached;
    assert RunFrom(s, known, inputs, 1, [id]) == Run(Detached, 2, [id]);
    assert [] + RegisteredBy(s, inputs[0]) == [id];
    assert RunFrom(s, known, inputs, 0, []) == RunFrom(s, known, inputs, 1, [id]);
  }
}
