/** The broadcast loop shared by AttachManager.send and LogPump.send:
    `for ch := range channels { ch <- msg }`. */
module Fanout {
  import opened Types

  /** `sent` hands `msg` to every channel of `targets` exactly once and to no other. */
  ghost predicate Broadcast<C, T>(sent: seq<Delivery<C, T>>, msg: T, targets: set<C>) {
    && (forall i :: 0 <= i < |sent| ==> sent[i].msg == msg && sent[i].ch in targets)
    && Reached(sent) == targets
    && (forall i, j :: 0 <= i < j < |sent| ==> sent[i].ch != sent[j].ch)
  }

  /** The set of channels a delivery sequence reaches. */
  ghost function Reached<C, T>(sent: seq<Delivery<C, T>>): set<C> {
    set i | 0 <= i < |sent| :: sent[i].ch
  }

  /** Visits the channels in an unspecified order, as Go's map iteration does. */
  method Send<C, T>(targets: set<C>, msg: T) returns (sent: seq<Delivery<C, T>>)
    ensures Broadcast(sent, msg, targets)
  {
    sent := [];
    var rest := targets;
    while rest != {}
      invariant rest <= targets
      invariant forall i :: 0 <= i < |sent| ==> sent[i].msg == msg && sent[i].ch in targets - rest
      invariant Reached(sent) == targets - rest
      invariant forall i, j :: 0 <= i < j < |sent| ==> sent[i].ch != sent[j].ch
      decreases rest
    {
      var ch :| ch in rest;
      ReachedSnoc(sent, Delivery(ch, msg));
      sent := sent + [Delivery(ch, msg)];
      rest := rest - {ch};
    }
  }

  /** A broadcast makes exactly one delivery per registered channel. */
  lemma {:induction false} BroadcastCount<C, T>(sent: seq<Delivery<C, T>>, msg: T, targets: set<C>)
    requires Broadcast(sent, msg, targets)
    ensures |sent| == |targets|
  {
    DistinctReached(sent);
  }

  lemma {:induction false} DistinctReached<C, T>(sent: seq<Delivery<C, T>>)
    requires forall i, j :: 0 <= i < j < |sent| ==> sent[i].ch != sent[j].ch
    ensures |Reached(sent)| == |sent|
  {
    if sent != [] {
      var last := |sent| - 1;
      DistinctReached(sent[..last]);
      ReachedSnoc(sent[..last], sent[last]);
      assert sent[..last] + [sent[last]] == sent;
      assert sent[last].ch !in Reached(sent[..last]);
    }
  }

  lemma ReachedSnoc<C, T>(sent: seq<Delivery<C, T>>, d: Delivery<C, T>)
    ensures Reached(sent + [d]) == Reached(sent) + {d.ch}
  {
    var ext := sent + [d];
    forall c | c in Reached(sent) ensures c in Reached(ext) {
      var i :| 0 <= i < |sent| && sent[i].ch == c;
      assert ext[i].ch == c;
    }
    assert ext[|sent|].ch == d.ch;
  }
}
