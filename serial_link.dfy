/** An in-memory stand-in for the pyserial port: the bytes the host has written
    and the queue of bytes the device has sent that the host has not read yet.
    A read takes at most what is pending, so a short read models the
    one-second read timeout. */
module SerialLink {
  import opened Common

  class Link {
    var isOpen: bool
    var output: seq<Byte>
    var input: seq<Byte>

    /** `Serial(port, ...)` opens the port at once; `pending` is what the device will send. */
    constructor (pending: seq<Byte>)
      ensures isOpen && output == [] && input == pending
    {
      isOpen := true;
      output := [];
      input := pending;
    }

    method Write(data: seq<Byte>)
      modifies this
      ensures output == old(output) + data
      ensures input == old(input) && isOpen == old(isOpen)
    {
      output := output + data;
    }

    /** `read(n)`: up to `n` bytes from the front of the queue. */
    method Read(n: nat) returns (got: seq<Byte>)
      modifies this
      ensures got == old(input)[..Min(n, |old(input)|)]
      ensures input == old(input)[Min(n, |old(input)|)..]
      ensures output == old(output) && isOpen == old(isOpen)
    {
      var k := Min(n, |input|);
      got := input[..k];
      input := input[k..];
    }

    /** `inWaiting()`: the number of unread bytes. */
    method InWaiting() returns (k: nat)
      ensures k == |input|
    {
      k := |input|;
    }

    /** `open()`: pyserial refuses to open a port that is already open. */
    method Open() returns (o: Outcome)
      modifies this`isOpen
      ensures o == (if old(isOpen) then Fail(SerialError) else Pass)
      ensures isOpen
    {
      if isOpen {
        return Fail(SerialError);
      }
      isOpen := true;
      return Pass;
    }

    /** `close()` on a closed port does nothing. */
    method Close()
      modifies this`isOpen
      ensures !isOpen
    {
      isOpen := false;
    }
  }
}
