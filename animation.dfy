/** The slice of the animation runtime the controller touches: a clip that can be
    enabled or disabled, rewound, asked whether it has ended, and drained of the
    signals its playback has crossed. Playback itself is outside the model; the
    clip's pending signals are a FIFO queue that something else fills. */
module Animation {
  import opened Common

  /** Authored signal identifiers. Their numeric values are defined with the two
      state machines, which are not part of this model; only their distinctness
      matters here. */
  type SignalId = int

  const JUMP_SIGNAL: SignalId := 1
  const GRAB_WEAPON_SIGNAL: SignalId := 2
  const PUT_BACK_WEAPON_END_SIGNAL: SignalId := 3
  const TOSS_GRENADE_SIGNAL: SignalId := 4

  class Clip {
    /** Signals crossed by playback and not yet popped, oldest first. */
    var events: seq<SignalId>
    var enabled: bool
    var ended: bool

    constructor (enabled: bool)
      ensures this.enabled == enabled && !ended && events == []
    {
      this.enabled := enabled;
      ended := false;
      events := [];
    }

    /** `pop_event`: removes and returns the oldest pending signal, if any. */
    method PopEvent() returns (e: Option<SignalId>)
      modifies this
      ensures old(events) == [] ==> e == None && events == []
      ensures old(events) != [] ==> e == Some(old(events)[0]) && events == old(events)[1..]
      ensures enabled == old(enabled) && ended == old(ended)
    {
      if events == [] {
        e := None;
      } else {
        e := Some(events[0]);
        events := events[1..];
      }
    }

    method SetEnabled(on: bool)
      modifies this
      ensures enabled == on && ended == old(ended) && events == old(events)
    {
      enabled := on;
    }

    /** `rewind`: playback restarts from the beginning, so the clip has not ended. */
    method Rewind()
      modifies this
      ensures !ended && enabled == old(enabled) && events == old(events)
    {
      ended := false;
    }
  }

  /** The number of occurrences of `id` in a signal queue. */
  function Occurrences(q: seq<SignalId>, id: SignalId): (n: nat)
    ensures n <= |q|
    ensures n == 0 <==> id !in q
  {
    if q == [] then 0 else (if q[0] == id then 1 else 0) + Occurrences(q[1..], id)
  }

  /** Counting occurrences distributes over concatenation of queues. */
  lemma {:induction false} OccurrencesAppend(a: seq<SignalId>, b: seq<SignalId>, id: SignalId)
    ensures Occurrences(a + b, id) == Occurrences(a, id) + Occurrences(b, id)
  {
    if a != [] {
      assert (a + b)[1..] == a[1..] + b;
      OccurrencesAppend(a[1..], b, id);
    } else {
      assert a + b == b;
    }
  }

  /** Counting one more signal of a queue's prefix. */
  lemma OccurrencesStep(q: seq<SignalId>, n: nat, id: SignalId)
    requires n < |q|
    ensures Occurrences(q[..n + 1], id) == Occurrences(q[..n], id) + (if q[n] == id then 1 else 0)
  {
    assert q[..n + 1] == q[..n] + [q[n]];
    OccurrencesAppend(q[..n], [q[n]], id);
  }
}
