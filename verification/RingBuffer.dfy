/**
  The producer-consumer monitor: a ring buffer of five characters with three
  one-byte counters, serialized by hand.
*/
module RingBuffer {
  import opened Packets

  const MAX_QUEUE_SIZE: nat := 5

  datatype Ring = Ring(buffer: seq<Byte>, getIndex: Byte, putIndex: Byte, count: Byte) {
    predicate Valid() {
      && |buffer| == MAX_QUEUE_SIZE && getIndex < MAX_QUEUE_SIZE && putIndex < MAX_QUEUE_SIZE && count <= MAX_QUEUE_SIZE
      && putIndex == (getIndex + count) % MAX_QUEUE_SIZE
    }

    /** The queue the ring stands for, oldest character first. */
    function Contents(): seq<Byte>
      requires Valid()
    {
      seq(count, k requires 0 <= k < count => buffer[(getIndex + k) % MAX_QUEUE_SIZE])
    }

    predicate IsFull() { count == MAX_QUEUE_SIZE }
    predicate IsEmpty() { count == 0 }
  }

  const EMPTY := Ring([0, 0, 0, 0, 0], 0, 0, 0)

  /** What produce and consume do once their waits are over. */
  function Put(r: Ring, x: Byte): Ring
    requires r.Valid() && !r.IsFull()
  {
    Ring(r.buffer[r.putIndex := x], r.getIndex, (r.putIndex + 1) % MAX_QUEUE_SIZE, r.count + 1)
  }

  function Get(r: Ring): (Ring, Byte)
    requires r.Valid() && !r.IsEmpty()
  {
    (r.(getIndex := (r.getIndex + 1) % MAX_QUEUE_SIZE, count := r.count - 1), r.buffer[r.getIndex])
  }

  /** What the waits of produce and consume test. */
  lemma FullExactly(r: Ring)
    requires r.Valid()
    ensures r.IsFull() <==> |r.Contents()| == MAX_QUEUE_SIZE
    ensures r.IsEmpty() <==> r.Contents() == []
  {
  }

  /** A slot in use is not the next free one. */
  lemma SlotsDiffer(getIndex: nat, k: nat, count: nat)
    requires getIndex < MAX_QUEUE_SIZE && k < count < MAX_QUEUE_SIZE
    ensures (getIndex + k) % MAX_QUEUE_SIZE != (getIndex + count) % MAX_QUEUE_SIZE
  {
  }

  /** Producing appends to the queue. */
  lemma PutAppends(r: Ring, x: Byte)
    requires r.Valid() && |r.Contents()| < MAX_QUEUE_SIZE
    ensures Put(r, x).Valid() && Put(r, x).Contents() == r.Contents() + [x]
  {
    var r' := Put(r, x);
    assert r'.Contents()[r.count] == x;
    forall k | 0 <= k < r.count ensures r'.Contents()[k] == r.Contents()[k] {
      SlotsDiffer(r.getIndex, k, r.count);
    }
  }

  /** Consuming removes, and returns, the oldest character. */
  lemma GetRemoves(r: Ring)
    requires r.Valid() && r.Contents() != []
    ensures Get(r).0.Valid() && r.Contents() == [Get(r).1] + Get(r).0.Contents()
  {
    var r' := Get(r).0;
    assert r'.putIndex == (r'.getIndex + r'.count) % MAX_QUEUE_SIZE;
    forall k | 0 <= k < r'.count ensures r'.Contents()[k] == r.Contents()[k + 1] {
      assert (r'.getIndex + k) % MAX_QUEUE_SIZE == (r.getIndex + (k + 1)) % MAX_QUEUE_SIZE;
    }
  }

  function SaveState(r: Ring): Bytes {
    [r.getIndex, r.putIndex, r.count] + r.buffer
  }

  function RestoreState(state: Bytes): Ring
    requires |state| >= 3
  {
    Ring(state[3..], state[0], state[1], state[2])
  }

  /** The three counters, then the characters. */
  lemma SavedBytes(r: Ring)
    ensures |SaveState(r)| == 3 + |r.buffer|
    ensures SaveState(r)[0] == r.getIndex && SaveState(r)[1] == r.putIndex && SaveState(r)[2] == r.count
    ensures forall k :: 0 <= k < |r.buffer| ==> SaveState(r)[3 + k] == r.buffer[k]
  {
  }

  /** Restoring a saved state gives it back. */
  lemma SaveRestore(r: Ring)
    ensures RestoreState(SaveState(r)) == r
  {
    assert SaveState(r)[3..] == r.buffer;
  }

  /** The monitor object; restoring a state overwrites its fields in place. */
  class BufferMonitor {
    var buffer: array<Byte>
    var getIndex: Byte
    var putIndex: Byte
    var count: Byte

    ghost predicate Valid()
      reads this, buffer
    {
      buffer.Length == MAX_QUEUE_SIZE && State().Valid()
    }

    function State(): Ring
      reads this, buffer
    {
      Ring(buffer[..], getIndex, putIndex, count)
    }

    constructor ()
      ensures Valid() && State() == EMPTY && fresh(buffer)
    {
      buffer := new Byte[MAX_QUEUE_SIZE](_ => 0);
      getIndex, putIndex, count := 0, 0, 0;
      new;
      assert buffer[..] == [0, 0, 0, 0, 0];
    }

    method Save() returns (state: Bytes)
      ensures state == SaveState(State()) && RestoreState(state) == State()
      ensures |state| == 3 + buffer.Length && state[0] == getIndex && state[1] == putIndex && state[2] == count
      ensures forall k :: 0 <= k < buffer.Length ==> state[3 + k] == buffer[k]
    {
      SaveRestore(State());
      state := [getIndex, putIndex, count] + buffer[..];
    }

    /** A short state leaves the end of the buffer as it was; other sizes than these are out of bounds. */
    method Restore(state: Bytes)
      requires 3 <= |state| <= 3 + MAX_QUEUE_SIZE && buffer.Length == MAX_QUEUE_SIZE
      modifies this`getIndex, this`putIndex, this`count, buffer
      ensures State() == RestoreState(state).(buffer := state[3..] + old(buffer[..])[|state| - 3..])
      ensures |state| == 3 + MAX_QUEUE_SIZE ==> State() == RestoreState(state)
      ensures getIndex == state[0] && putIndex == state[1] && count == state[2]
      ensures forall k :: 0 <= k < MAX_QUEUE_SIZE ==>
                            buffer[k] == if 3 + k < |state| then state[3 + k] else old(buffer[k])
    {
      getIndex, putIndex, count := state[0], state[1], state[2];
      for k := 0 to |state| - 3
        invariant getIndex == state[0] && putIndex == state[1] && count == state[2]
        invariant forall l :: 0 <= l < k ==> buffer[l] == state[3 + l]
        invariant forall l :: k <= l < MAX_QUEUE_SIZE ==> buffer[l] == old(buffer[l])
      {
        buffer[k] := state[3 + k];
      }
      assert buffer[..] == state[3..] + old(buffer[..])[|state| - 3..];
    }

    method IsFull() returns (full: bool)
      requires Valid()
      ensures full == State().IsFull() && (full <==> |State().Contents()| == MAX_QUEUE_SIZE)
    {
      full := count == MAX_QUEUE_SIZE;
    }

    method IsEmpty() returns (empty: bool)
      requires Valid()
      ensures empty == State().IsEmpty() && (empty <==> State().Contents() == [])
    {
      empty := count == 0;
    }

    /** The body of produce after its wait. */
    method Produce(request: Byte)
      requires Valid() && |State().Contents()| < MAX_QUEUE_SIZE
      modifies this`putIndex, this`count, buffer
      ensures Valid() && State() == Put(old(State()), request)
      ensures buffer[..] == old(buffer[..])[old(putIndex) := request] && getIndex == old(getIndex)
      ensures count == old(count) + 1
      ensures putIndex == if old(putIndex) == MAX_QUEUE_SIZE - 1 then 0 else old(putIndex) + 1
      ensures State().Contents() == old(State().Contents()) + [request]
    {
      PutAppends(State(), request);
      buffer[putIndex] := request;
      count := count + 1;
      putIndex := (putIndex + 1) % MAX_QUEUE_SIZE;
    }

    /** The body of consume after its wait. */
    method Consume() returns (request: Byte)
      requires Valid() && State().Contents() != []
      modifies this`getIndex, this`count
      ensures Valid() && (State(), request) == Get(old(State())) && request == old(buffer[getIndex])
      ensures count == old(count) - 1
      ensures getIndex == if old(getIndex) == MAX_QUEUE_SIZE - 1 then 0 else old(getIndex) + 1
      ensures old(State().Contents()) == [request] + State().Contents()
    {
      GetRemoves(State());
      request := buffer[getIndex];
      count := count - 1;
      getIndex := (getIndex + 1) % MAX_QUEUE_SIZE;
    }
  }
}
