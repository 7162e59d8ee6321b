/** The hub client with its real variables: counters, the array messages, the ring buffer.
    Each method is one atomic step of the sender task or of the SDK calling back, and is
    proved to do to those variables what the state machine of module Telemetry does. */
module HubClients {
  import opened Types
  import opened DataBuffer
  import opened Telemetry
  import opened Delivery

  /** What errno may hold after DoWork. */
  datatype Errno = NoError | Aborted | Reset | OtherError

  class HubClient {
    const ring: RingBuffer
    const messages: array<Slot>
    var iter: int
    var callbackCounter: int
    var connected: bool
    var tmp: Record             // tmp_data_queue
    var pending: seq<Ticket>    // held by the SDK
    var created: nat            // the SDK's next fresh handle
    ghost var model: State
    ghost var wire: seq<Record> // records accepted by the SDK, as they were sent

    ghost function Bounds(): Limits {
      Limits(ring.data.Length, messages.Length)
    }

    /** The variables agree with the model, and the model is in a state that some run reaches. */
    ghost predicate Valid()
      reads this, ring, ring.data, messages
    {
      && ring.Valid()
      && Bounds().Sane()
      && model.iter == iter && model.callbackCounter == callbackCounter && model.connected == connected
      && model.slots == messages[..]
      && model.fifo == ring.fifo
      && model.pending == pending && model.created == created
      && Reachable(Bounds(), model) && Holding(model)
      && (model.phase.Peeked? ==> tmp == ring.fifo.accepted[model.phase.reading])
      && OnTheWire()
    }

    /** What was sent is, reading for reading, what had been inserted. */
    ghost predicate OnTheWire()
      reads this
    {
      && |wire| == |model.sent|
      && forall i :: 0 <= i < |wire| ==>
           model.sent[i] < |model.fifo.accepted| && wire[i] == model.fifo.accepted[model.sent[i]]
    }

    constructor (n: nat, m: nat, blank: Record, junk: Slot)
      requires 2 <= n <= 0x100 && 1 <= m
      ensures Valid() && fresh(ring) && fresh(ring.data) && fresh(messages)
      ensures Bounds() == Limits(n, m)
      ensures exists slots :: |slots| == m && model == Init(slots)
    {
      ring := new RingBuffer(n, blank);
      messages := new Slot[m](_ => junk);
      iter, callbackCounter, connected, tmp := 0, 0, false, blank;
      pending, created := [], 0;
      wire := [];
      new;
      model := Init(messages[..]);
      assert Feasible(Bounds(), Init(messages[..]), []);
    }

    /** A producer's insert; every producer asks for the newest data to be kept. */
    method Produce(x: Record)
      requires Valid()
      modifies this, ring, ring.data
      ensures Valid()
      ensures model == Step(Bounds(), old(model), Event.Insert(x))
      ensures wire == old(wire)
    {
      Advance(Bounds(), model, Event.Insert(x));
      ring.Insert(x, true);
      model := Step(Bounds(), model, Event.Insert(x));
    }

    /** The calls that create the client and install the message callback; again tells
        whether the task goes on. */
    method Connect(result: Connection) returns (again: bool)
      requires Valid() && model.phase.Waiting?
      modifies this
      ensures Valid()
      ensures model == Step(Bounds(), old(model), Event.Connect(result))
      ensures again <==> !model.phase.Finished?
      ensures wire == old(wire)
    {
      Advance(Bounds(), model, Event.Connect(result));
      again := true;
      match result {
        case InitFails => again := false;
        case NoHandle => again := callbackCounter > 0 && callbackCounter < messages.Length;
        case NoCallback =>
        case Connected => connected := true;
      }
      model := Step(Bounds(), model, Event.Connect(result));
    }

    /** The guard of the inner loop, with the reset of both counters. */
    method Poll() returns (offer: bool)
      requires Valid() && model.phase.Polling?
      modifies this
      ensures Valid()
      ensures model == Step(Bounds(), old(model), Event.Poll)
      ensures offer <==> model.phase.Checked?
      ensures wire == old(wire)
    {
      Advance(Bounds(), model, Event.Poll);
      var empty := ring.IsEmpty();
      offer := !empty && iter <= callbackCounter;
      if offer && iter >= messages.Length {
        callbackCounter := callbackCounter - iter;
        iter := 0;
      }
      model := Step(Bounds(), model, Event.Poll);
    }

    method Peek()
      requires Valid() && model.phase.Checked?
      modifies this
      ensures Valid()
      ensures model == Step(Bounds(), old(model), Event.Peek)
      ensures tmp == Contents(ring.fifo)[0]
      ensures wire == old(wire)
    {
      Advance(Bounds(), model, Event.Peek);
      tmp := ring.Peek();
      model := Step(Bounds(), model, Event.Peek);
    }

    /** The message cannot be created, or the SDK refuses it. */
    method Refuse(outcome: Outcome)
      requires Valid() && model.phase.Peeked? && !outcome.Accepted?
      modifies this, messages
      ensures Valid()
      ensures model == Step(Bounds(), old(model), Event.Attempt(outcome))
      ensures wire == old(wire)
    {
      Advance(Bounds(), model, Event.Attempt(outcome));
      if outcome.CreateFails? {
        messages[iter] := Slot(Null, messages[iter].trackingId);
        connected := false;
      } else {
        messages[iter] := Slot(Handle(created), iter);
        created := created + 1;
        connected := false;
      }
      iter := iter + 1;
      model := Step(Bounds(), model, Event.Attempt(outcome));
    }

    /** The message is created and the SDK accepts it. */
    method Accept()
      requires Valid() && model.phase.Peeked?
      modifies this, messages
      ensures Valid()
      ensures model == Step(Bounds(), old(model), Event.Attempt(Accepted))
      ensures wire == old(wire) + [old(ring.fifo.accepted)[old(model.phase.reading)]]
    {
      Advance(Bounds(), model, Event.Attempt(Accepted));
      messages[iter] := Slot(Handle(created), iter);
      pending := pending + [Ticket(iter, created, iter)];
      created := created + 1;
      connected := true;
      wire := wire + [tmp];
      model := Step(Bounds(), model, Event.Attempt(Accepted));
    }

    /** Create a message from the copy and hand it to the SDK. */
    method Attempt(outcome: Outcome)
      requires Valid() && model.phase.Peeked?
      modifies this, messages
      ensures Valid()
      ensures model == Step(Bounds(), old(model), Event.Attempt(outcome))
      ensures wire == if outcome.Accepted?
                      then old(wire) + [old(ring.fifo.accepted)[old(model.phase.reading)]]
                      else old(wire)
    {
      if outcome.Accepted? {
        Accept();
      } else {
        Refuse(outcome);
      }
    }

    /** Remove after an accepted send. The record that leaves is the oldest one buffered,
        which need not be the one that was sent. */
    method Commit() returns (removed: Record)
      requires Valid() && model.phase.Sent?
      modifies this, ring
      ensures Valid()
      ensures model == Step(Bounds(), old(model), Event.Commit)
      ensures removed == old(ring.fifo.accepted)[old(ring.fifo.taken)]
      ensures wire == old(wire)
    {
      Advance(Bounds(), model, Event.Commit);
      removed := ring.RemoveData();
      tmp := removed;
      iter := iter + 1;
      model := Step(Bounds(), model, Event.Commit);
    }

    /** SendConfirmationCallback: all it knows is the slot its context points to. */
    method Confirm(k: nat) returns (destroyed: Handle, id: int)
      requires Valid() && Enabled(model, Event.Confirm(k))
      modifies this
      ensures Valid()
      ensures model == Step(Bounds(), old(model), Event.Confirm(k))
      ensures destroyed == Handle(old(pending)[k].handle) && id == old(pending)[k].trackingId
      ensures wire == old(wire)
    {
      Advance(Bounds(), model, Event.Confirm(k));
      ConfirmSeesItsMessage(Bounds(), model, k);
      var slot := pending[k].slot;
      id := messages[slot].trackingId;
      callbackCounter := callbackCounter + 1;
      destroyed := messages[slot].handle;
      pending := pending[..k] + pending[k + 1..];
      model := Step(Bounds(), model, Event.Confirm(k));
    }

    /** The SDK drops a message without calling back. */
    method Lose(k: nat)
      requires Valid() && Enabled(model, Event.Lose(k))
      modifies this
      ensures Valid()
      ensures model == Step(Bounds(), old(model), Event.Lose(k))
      ensures wire == old(wire)
    {
      Advance(Bounds(), model, Event.Lose(k));
      pending := pending[..k] + pending[k + 1..];
      model := Step(Bounds(), model, Event.Lose(k));
    }

    /** The test after DoWork; again tells whether the inner loop goes on. */
    method EndWork(errno: Errno) returns (again: bool)
      requires Valid() && model.phase.Working?
      modifies this
      ensures Valid()
      ensures model == Step(Bounds(), old(model), Event.EndWork(errno.Aborted? || errno.Reset?))
      ensures again <==> model.phase.Polling?
      ensures wire == old(wire)
    {
      again := !(errno == Aborted || errno == Reset);
      Advance(Bounds(), model, Event.EndWork(!again));
      model := Step(Bounds(), model, Event.EndWork(!again));
    }

    /** The decision at the foot of the outer loop. */
    method Close() returns (retry: bool)
      requires Valid() && Enabled(model, Event.Close)
      modifies this
      ensures Valid()
      ensures model == Step(Bounds(), old(model), Event.Close)
      ensures retry <==> model.phase.Waiting?
      ensures wire == old(wire)
    {
      Advance(Bounds(), model, Event.Close);
      retry := callbackCounter > 0 && callbackCounter < messages.Length;
      model := Step(Bounds(), model, Event.Close);
    }

    method Perform(e: Event)
      requires Valid() && Enabled(model, e)
      modifies this, ring, ring.data, messages
      ensures Valid()
      ensures model == Step(Bounds(), old(model), e)
    {
      match e {
        case Insert(x) => Produce(x);
        case Connect(result) => var again := Connect(result);
        case Poll => var offer := Poll();
        case Peek => Peek();
        case Attempt(outcome) => Attempt(outcome);
        case Commit => var removed := Commit();
        case Confirm(k) => var handle, id := Confirm(k);
        case Lose(k) => Lose(k);
        case EndWork(aborted) => var again := EndWork(if aborted then Reset else OtherError);
        case Close => var retry := Close();
      }
    }

    /** Any run of the state machine, carried out on the real variables. */
    method Run(es: seq<Event>)
      requires Valid() && Feasible(Bounds(), model, es)
      modifies this, ring, ring.data, messages
      ensures Valid()
      ensures model == After(Bounds(), old(model), es)
    {
      var i := 0;
      while i < |es|
        invariant 0 <= i <= |es|
        invariant Valid()
        invariant Feasible(Bounds(), model, es[i..])
        invariant After(Bounds(), model, es[i..]) == After(Bounds(), old(model), es)
      {
        assert es[i..][1..] == es[i + 1..];
        Perform(es[i]);
        i := i + 1;
      }
    }
  }
}
