/**
  The layout of a SYNC message: one byte holding the length of the monitor's
  name, the name, the serialized state.

  The byte is a C++ `char`, which is signed on the platforms the program is
  built for; reading it back sign-extends it before it becomes a size.
*/
module SyncFormat {
  import opened Packets

  const SIZE_MODULUS: nat := 0x1_0000_0000_0000_0000
  const MAX_STRING: nat := 0x7FFF_FFFF_FFFF_FFFF

  function PackSync(name: Bytes, state: Bytes): Bytes {
    [|name| % 256] + name + state
  }

  /** The size a stored length byte turns into when it is read back. */
  function SizeOf(b: Byte): nat {
    if b < 128 then b else SIZE_MODULUS + b - 256
  }

  /** `substr`: None stands for the out-of-range exception. */
  function Substr(s: Bytes, pos: nat, len: nat): Option<Bytes> {
    if pos > |s| then None
    else if len >= |s| - pos then Some(s[pos..])
    else Some(s[pos..pos + len])
  }

  function ExtractName(message: Bytes): Option<Bytes> {
    // reading position 0 of an empty string gives the terminating zero
    var b: Byte := if message == [] then 0 else message[0];
    Substr(message, 1, SizeOf(b))
  }

  function ExtractData(message: Bytes): Option<Bytes> {
    var b: Byte := if message == [] then 0 else message[0];
    Substr(message, (SizeOf(b) + 1) % SIZE_MODULUS, |message|)
  }

  /** The monitors' length assertion admits 255, but a message is read back as it was packed
      exactly when the name has at most 127 bytes. */
  lemma {:induction false} SyncRoundTrip(name: Bytes, state: Bytes)
    requires 1 + |name| + |state| <= MAX_STRING
    ensures (ExtractName(PackSync(name, state)) == Some(name) && ExtractData(PackSync(name, state)) == Some(state))
            <==> |name| <= 127
  {
    var message := PackSync(name, state);
    var b := message[0];
    assert b == |name| % 256;
    assert message[1..] == name + state;
    if |name| <= 127 {
      assert message[1..1 + |name|] == name;
      assert message[|name| + 1..] == state;
      assert |message| - 1 == |name| ==> state == [] && message[1..] == name;
      assert |name| + 1 == 1 + |name| < SIZE_MODULUS;
    } else if b < 128 {
      assert |name| >= 256 && |ExtractName(message).value| == b;
    } else if b == 255 {
      assert (SizeOf(b) + 1) % SIZE_MODULUS == 0;
      assert ExtractData(message) == Some(message[0..]);
      assert |message[0..]| > |state|;
    } else {
      assert (SizeOf(b) + 1) % SIZE_MODULUS > |message|;
      assert ExtractData(message) == None;
    }
  }

  /** What happens to the names in between: the length byte reads back as a huge size, so the name is
      taken to be all that follows, and the state is out of range (or, for 255, the whole message). */
  lemma AdmittedNamesMisread(name: Bytes, state: Bytes)
    requires 128 <= |name| <= 255 && 1 + |name| + |state| <= MAX_STRING
    ensures ExtractName(PackSync(name, state)) == Some(name + state)
    ensures ExtractData(PackSync(name, state)) == if |name| == 255 then Some(PackSync(name, state)) else None
  {
    var message := PackSync(name, state);
    assert message[1..] == name + state && message[0..] == message;
    assert SizeOf(message[0]) == SIZE_MODULUS + |name| - 256;
    if |name| == 255 {
      assert (SizeOf(message[0]) + 1) % SIZE_MODULUS == 0;
    } else {
      assert (SizeOf(message[0]) + 1) % SIZE_MODULUS > |message|;
    }
  }

  /** What is read from any message at all, whoever packed it: with a length byte below 128, the name is that
      many bytes (or all there are) and the state what follows them, if the message is long enough. */
  lemma ExtractedExactly(message: Bytes)
    requires |message| <= MAX_STRING
    ensures message == [] ==> ExtractName(message) == None && ExtractData(message) == None
    ensures message != [] && message[0] < 128 && 1 + message[0] <= |message| ==>
              && ExtractName(message) == Some(message[1..1 + message[0]])
              && ExtractData(message) == Some(message[1 + message[0]..])
    ensures message != [] && message[0] < 128 && 1 + message[0] > |message| ==>
              ExtractName(message) == Some(message[1..]) && ExtractData(message) == None
    ensures message != [] && message[0] >= 128 ==>
              && ExtractName(message) == Some(message[1..])
              && ExtractData(message) == if message[0] == 255 then Some(message) else None
  {
    if message != [] && message[0] < 128 && 1 + message[0] == |message| {
      assert message[1..1 + message[0]] == message[1..];
    } else if message != [] && message[0] >= 128 && message[0] < 255 {
      assert (SizeOf(message[0]) + 1) % SIZE_MODULUS > |message|;
    } else if message != [] && message[0] == 255 {
      assert (SizeOf(message[0]) + 1) % SIZE_MODULUS == 0 && message[0..] == message;
    }
  }

  /** A SYNC message is taken by the monitor whose name it was packed with, and by no other. */
  lemma SyncRouting(name: Bytes, state: Bytes, other: Bytes)
    requires |name| <= 127 && 1 + |name| + |state| <= MAX_STRING
    ensures ExtractName(PackSync(name, state)) == Some(other) <==> other == name
  {
    SyncRoundTrip(name, state);
  }
}
