/** One end of a connection. The system moves any number of bytes in a call; Send and Recv
    loop until all are moved, or close the socket. */
module Sockets {
  import opened Messages

  class Socket {
    var open: bool
    // The bytes still to be received, and those handed to the peer.
    var incoming: seq<Byte>
    var outgoing: seq<Byte>
    // How many bytes the coming system calls move at most, 0 for a failure. A call past the
    // end of the list moves all it is asked for.
    var arrivals: seq<nat>
    var accepts: seq<nat>

    constructor (stream: seq<Byte>, arrivals: seq<nat>, accepts: seq<nat>)
      ensures open && incoming == stream && outgoing == []
      ensures this.arrivals == arrivals && this.accepts == accepts
    {
      open, incoming, outgoing := true, stream, [];
      this.arrivals, this.accepts := arrivals, accepts;
    }

    /** The link does not fail, whatever sizes it moves. */
    ghost predicate Reliable()
      reads this
    {
      open && (forall k :: 0 <= k < |arrivals| ==> arrivals[k] > 0)
           && (forall k :: 0 <= k < |accepts| ==> accepts[k] > 0)
    }

    /** The system's receive call: 0 or less is a failure or the end of the stream. */
    method RecvSome(buffer: array<Byte>, offset: nat, size: nat) returns (n: int)
      requires 0 < size && offset + size <= buffer.Length
      modifies this`incoming, this`arrivals, buffer
      ensures n <= size
      ensures n <= 0 ==> incoming == old(incoming) && buffer[..] == old(buffer[..])
      ensures n > 0 ==> n <= |old(incoming)| && incoming == old(incoming)[n..]
      ensures forall k :: 0 <= k < buffer.Length ==>
                buffer[k] == if offset <= k < offset + n then old(incoming)[k - offset] else old(buffer[k])
      ensures old(Reliable()) ==> Reliable() && (old(incoming) != [] ==> n > 0)
    {
      if !open { return -1; }
      n := if arrivals != [] && arrivals[0] < size then arrivals[0] else size;
      if n > |incoming| { n := |incoming|; }
      if arrivals != [] { arrivals := arrivals[1..]; }
      for k := 0 to n
        invariant forall j :: 0 <= j < buffer.Length ==>
                    buffer[j] == if offset <= j < offset + k then incoming[j - offset] else old(buffer[j])
        modifies buffer
      {
        buffer[offset + k] := incoming[k];
      }
      incoming := incoming[n..];
    }

    /** The system's send call: less than 0 is a failure. */
    method SendSome(buffer: array<Byte>, offset: nat, size: nat) returns (n: int)
      requires 0 < size && offset + size <= buffer.Length
      modifies this`outgoing, this`accepts
      ensures n != 0 && n <= size
      ensures outgoing == old(outgoing) + if n > 0 then buffer[offset..offset + n] else []
      ensures old(Reliable()) ==> Reliable() && n > 0
    {
      if !open || (accepts != [] && accepts[0] == 0) { return -1; }
      n := if accepts != [] && accepts[0] < size then accepts[0] else size;
      if accepts != [] { accepts := accepts[1..]; }
      outgoing := outgoing + buffer[offset..offset + n];
    }

    method Close()
      modifies this`open
      ensures !open
    {
      open := false;
    }

    /** Fills the first `size` bytes of the buffer with the next bytes of the stream, however
        they arrive; otherwise the socket is closed, and only stream bytes are lost. */
    method Recv(buffer: array<Byte>, size: nat) returns (ok: bool)
      requires size <= buffer.Length
      modifies this`open, this`incoming, this`arrivals, buffer
      ensures ok ==>
                && size <= |old(incoming)| && buffer[..size] == old(incoming)[..size]
                && incoming == old(incoming)[size..]
      ensures ok ==> open == old(open)
      ensures !ok ==> !open && exists k: nat :: k <= |old(incoming)| && incoming == old(incoming)[k..]
      ensures forall k :: size <= k < buffer.Length ==> buffer[k] == old(buffer[k])
      ensures old(Reliable()) && size <= |old(incoming)| ==> ok && Reliable()
    {
      var offset: nat, left: nat := 0, size;
      while left > 0
        invariant open == old(open) && offset + left == size && offset <= |old(incoming)|
                  && incoming == old(incoming)[offset..]
        invariant forall k :: 0 <= k < offset ==> buffer[k] == old(incoming)[k]
        invariant forall k :: size <= k < buffer.Length ==> buffer[k] == old(buffer[k])
        invariant old(Reliable()) ==> Reliable()
      {
        var n := RecvSome(buffer, offset, left);
        if n <= 0 {
          Close();
          return false;
        }
        left, offset := left - n, offset + n;
      }
      return true;
    }

    /** Hands the first `size` bytes of the buffer to the peer, however they are taken;
        otherwise the socket is closed after some of them. */
    method Send(buffer: array<Byte>, size: nat) returns (ok: bool)
      requires size <= buffer.Length
      modifies this`open, this`outgoing, this`accepts
      ensures ok ==> outgoing == old(outgoing) + buffer[..size]
      ensures !ok ==> !open && exists k: nat :: k < size && outgoing == old(outgoing) + buffer[..k]
      ensures old(Reliable()) ==> ok && Reliable()
    {
      var offset: nat, left: nat := 0, size;
      while left > 0
        invariant offset + left == size && outgoing == old(outgoing) + buffer[..offset]
        invariant old(Reliable()) ==> Reliable()
      {
        var n := SendSome(buffer, offset, left);
        if n < 0 {
          Close();
          return false;
        }
        assert buffer[..offset] + buffer[offset..offset + n] == buffer[..offset + n];
        left, offset := left - n, offset + n;
      }
      return true;
    }
  }
}
