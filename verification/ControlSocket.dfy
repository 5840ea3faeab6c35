/** The loops that read and write frames, over a socket that moves as many bytes as it likes at a time. */
module ControlSocket {
  import opened Frames
  import Utf8

  /** How the kernel meets one call: it moves up to so many bytes, is interrupted by a signal, or fails. */
  datatype Turn = Moves(most: nat) | Interrupts | Breaks

  /** Calls may be interrupted and move as few bytes as one, but none fails. */
  predicate Willing(plan: seq<Turn>) {
    forall t | t in plan :: t.Interrupts? || (t.Moves? && t.most > 0)
  }

  datatype Reading = Got(bytes: string) | End | ReadInterrupted | ReadError

  datatype Writing = Took(count: nat) | WriteInterrupted | WriteError

  /** The kernel's side of the descriptor. Once its plan of turns is used up, calls move all they are asked to. */
  class Socket {
    /** What the other end has sent, or will have sent when it closes. */
    var arriving: string
    /** What it has been sent from here. */
    var accepted: string
    var plan: seq<Turn>
    /** A read has failed for good. */
    var broken: bool

    constructor (arriving: string, plan: seq<Turn>)
      ensures this.arriving == arriving && this.plan == plan && accepted == "" && !broken
    {
      this.arriving := arriving;
      this.plan := plan;
      accepted := "";
      broken := false;
    }

    method NextTurn(all: nat) returns (turn: Turn)
      modifies this`plan
      ensures |plan| == if old(plan) == [] then 0 else |old(plan)| - 1
      ensures turn.Interrupts? ==> |plan| < |old(plan)|
      ensures (turn in old(plan) || turn == Moves(all)) && forall t | t in plan :: t in old(plan)
    {
      turn := Moves(all);
      if plan != [] {
        turn := plan[0];
        plan := plan[1..];
      }
    }

    method Read(max: nat) returns (r: Reading)
      requires max > 0
      modifies this
      ensures accepted == old(accepted) && |plan| <= |old(plan)|
      ensures match r
              case Got(bytes) => 0 < |bytes| <= max && old(arriving) == bytes + arriving && broken == old(broken)
              case End => arriving == old(arriving) == "" && broken == old(broken)
              case ReadInterrupted => arriving == old(arriving) && |plan| < |old(plan)| && broken == old(broken)
              case ReadError => arriving == old(arriving) && broken
    {
      var turn := NextTurn(max);
      match turn
      case Interrupts => r := ReadInterrupted;
      case Breaks =>
        broken := true;
        r := ReadError;
      case Moves(most) =>
        if arriving == "" {
          return End;
        }
        var n := if most == 0 then 1 else if most > max then max else most;
        n := if n > |arriving| then |arriving| else n;
        r := Got(arriving[..n]);
        arriving := arriving[n..];
    }

    method Write(bytes: string) returns (w: Writing)
      requires bytes != ""
      modifies this
      ensures arriving == old(arriving) && broken == old(broken) && |plan| <= |old(plan)|
      ensures (forall t | t in plan :: t in old(plan)) && (Willing(old(plan)) ==> Willing(plan))
      ensures Willing(old(plan)) ==> !w.WriteError? && (w.Took? ==> w.count > 0)
      ensures match w
              case Took(n) => n <= |bytes| && accepted == old(accepted) + bytes[..n]
              case WriteInterrupted => accepted == old(accepted) && |plan| < |old(plan)|
              case WriteError => accepted == old(accepted)
    {
      var turn := NextTurn(|bytes|);
      match turn
      case Interrupts => w := WriteInterrupted;
      case Breaks => w := WriteError;
      case Moves(most) =>
        var n := if most > |bytes| then |bytes| else most;
        accepted := accepted + bytes[..n];
        w := Took(n);
    }
  }

  /** `read_exact`: the next `n` bytes however they come, or word that the stream ended or broke before them. */
  method ReadExact(socket: Socket, n: nat) returns (ok: bool, buf: string)
    modifies socket
    ensures old(socket.arriving) == buf + socket.arriving
    ensures ok <==> |buf| == n
    ensures |buf| <= n && socket.accepted == old(socket.accepted)
    ensures ok ==> socket.broken == old(socket.broken)
    ensures !ok ==> socket.broken || socket.arriving == ""
  {
    buf := "";
    while |buf| < n
      invariant |buf| <= n && old(socket.arriving) == buf + socket.arriving
      invariant socket.accepted == old(socket.accepted) && socket.broken == old(socket.broken)
      decreases n - |buf|, |socket.plan|
    {
      var r := socket.Read(n - |buf|);
      match r
      case Got(bytes) =>
        buf := buf + bytes;
      case End =>
        return false, buf;
      case ReadInterrupted =>
      case ReadError =>
        return false, buf;
    }
    ok := true;
  }

  /** `write_all`: everything, in order, or a first part of it. */
  method WriteAll(socket: Socket, buf: string) returns (ok: bool)
    modifies socket
    ensures socket.arriving == old(socket.arriving) && socket.broken == old(socket.broken)
    ensures old(socket.accepted) <= socket.accepted <= old(socket.accepted) + buf
    ensures ok <==> socket.accepted == old(socket.accepted) + buf
    ensures Willing(old(socket.plan)) ==> ok && Willing(socket.plan)
  {
    var sent := 0;
    while sent < |buf|
      invariant sent <= |buf| && socket.accepted == old(socket.accepted) + buf[..sent]
      invariant socket.arriving == old(socket.arriving) && socket.broken == old(socket.broken)
      invariant Willing(old(socket.plan)) ==> Willing(socket.plan)
      decreases |buf| - sent, |socket.plan|
    {
      var w := socket.Write(buf[sent..]);
      if w.Took? && w.count > 0 {
        assert buf[..sent] + buf[sent..][..w.count] == buf[..sent + w.count];
        sent := sent + w.count;
      } else if w.WriteInterrupted? {
      } else {
        assert w.Took? ==> buf[sent..][..0] == "";
        return false;
      }
    }
    assert buf[..|buf|] == buf;
    ok := true;
  }

  /** After `taken` a reader has dispatched `frames`, and goes on as if it started afresh. */
  ghost predicate Split(taken: string, frames: seq<string>) {
    forall rest: string :: Received(taken + rest) == frames + Received(rest)
  }

  lemma SplitStart()
    ensures Split("", [])
  {
    forall rest: string
      ensures Received("" + rest) == [] + Received(rest)
    {
      assert "" + rest == rest;
    }
  }

  lemma FrameFirst(header: string, payload: string, rest: string)
    requires |header| == 4 && Length(header) == |payload| <= CAP
    ensures Received(header + payload + rest) == [payload] + Received(rest)
  {
    hide Length;
    var data := header + payload + rest;
    assert data[..4] == header && data[4..4 + |payload|] == payload && data[4 + |payload|..] == rest;
  }

  lemma SplitGrows(taken: string, frames: seq<string>, header: string, payload: string)
    requires Split(taken, frames) && |header| == 4 && Length(header) == |payload| <= CAP
    ensures Split(taken + header + payload, frames + [payload])
  {
    hide Received, Length;
    forall rest: string
      ensures Received(taken + header + payload + rest) == frames + [payload] + Received(rest)
    {
      Regroup(taken, header, payload, rest);
      Regroup(frames, [payload], Received(rest), []);
      FrameFirst(header, payload, rest);
      assert taken + (header + payload + rest) == taken + header + payload + rest;
    }
  }

  /** Bytes that are no whole frame, or start one over the cap, add nothing. */
  lemma SplitEnds(taken: string, frames: seq<string>, rest: string)
    requires Split(taken, frames)
    requires |rest| < 4 || Length(rest[..4]) > CAP || |rest| < 4 + Length(rest[..4])
    ensures Received(taken + rest) == frames
  {
    assert Received(rest) == [];
    assert frames + [] == frames;
  }

  lemma LengthIs(h: string, len: nat)
    requires |h| == 4
    requires len == h[0] as int + h[1] as int * 0x100 + h[2] as int * 0x1_0000 + h[3] as int * 0x100_0000
    ensures Length(h) == len && h[..4] == h
  {
  }

  lemma HeaderFirst(header: string, rest: string)
    requires |header| == 4
    ensures (header + rest)[..4] == header
  {
  }

  lemma Regroup<T>(a: seq<T>, b: seq<T>, c: seq<T>, d: seq<T>)
    ensures a + (b + (c + d)) == a + b + c + d
    ensures a + ((b + c) + d) == a + b + c + d
    ensures d == [] ==> a + b + c + d == a + b + c == a + (b + c)
  {
  }

  /** What the loop leaves when it ends with `part` read of a frame, or of a length over the cap. */
  lemma SplitLeft(all: string, taken: string, frames: seq<string>, part: string, left: string)
    requires Split(taken, frames) && all == taken + part + left
    requires |part| < 4 || Length(part[..4]) > CAP || |part| < 4 + Length(part[..4])
    ensures all[..|all| - |left|] == taken + part && Received(taken + part) == frames
    ensures left == "" || (|part| >= 4 && Length(part[..4]) > CAP) ==> Received(all) == frames
  {
    hide Split, Received, Length;
    SplitEnds(taken, frames, part);
    if |part| >= 4 {
      assert (part + left)[..4] == part[..4];
    }
    if left == "" || (|part| >= 4 && Length(part[..4]) > CAP) {
      assert left == "" ==> part + left == part;
      SplitEnds(taken, frames, part + left);
      assert taken + (part + left) == all;
    }
  }

  class Channel {
    const socket: Socket
    /** The descriptor has not been closed by `stop`. */
    var isOpen: bool
    var active: bool
    /** The payloads handed to `dispatch`, in order. */
    var dispatched: seq<string>

    constructor (socket: Socket)
      ensures this.socket == socket && isOpen && active && dispatched == []
    {
      this.socket := socket;
      isOpen := true;
      active := true;
      dispatched := [];
    }

    /** One frame goes out whole, or the channel is inactive from then on. */
    method SendRaw(payload: string)
      modifies this`active, socket
      ensures socket.arriving == old(socket.arriving)
      ensures !old(active) || !isOpen ==> socket.accepted == old(socket.accepted) && active == old(active)
      ensures old(socket.accepted) <= socket.accepted <= old(socket.accepted) + Frame(payload)
      ensures old(active) && isOpen ==> (active <==> socket.accepted == old(socket.accepted) + Frame(payload))
      ensures old(active) && isOpen && Willing(old(socket.plan)) ==> active
    {
      if !active {
        return;
      }
      var len := |payload| % TWO_32;
      var header :=
        [Utf8.Byte(len % 0x100), Utf8.Byte(len / 0x100 % 0x100), Utf8.Byte(len / 0x1_0000 % 0x100),
         Utf8.Byte(len / 0x100_0000 % 0x100)];
      assert Frame(payload) == header + payload;
      if !isOpen {
        return;
      }
      ghost var was := socket.accepted;
      var ok := WriteAll(socket, header);
      assert was + header <= was + Frame(payload);
      if ok {
        ok := WriteAll(socket, payload);
        assert (was + header) + payload == was + Frame(payload);
      }
      if !ok {
        active := false;
      }
    }

    /**
     * `reader_loop`: whatever sizes the bytes come in, it dispatches the frames of what it read, and unless a read
     * failed, of all that was sent.
     */
    method ReaderLoop()
      modifies this, socket
      ensures !active && isOpen == old(isOpen) && socket.accepted == old(socket.accepted)
      ensures |socket.arriving| <= |old(socket.arriving)|
      ensures var taken := old(socket.arriving)[..|old(socket.arriving)| - |socket.arriving|];
              && old(socket.arriving) == taken + socket.arriving
              && dispatched == old(dispatched) + Received(taken)
      ensures !old(socket.broken) && !socket.broken ==> dispatched == old(dispatched) + Received(old(socket.arriving))
    {
      hide Split, Received, Length;
      ghost var all, start := socket.arriving, dispatched;
      ghost var taken, part, frames := "", "", [];
      SplitStart();
      assert start + frames == start;
      while true
        invariant all == taken + socket.arriving && socket.accepted == old(socket.accepted)
        invariant dispatched == start + frames && Split(taken, frames)
        invariant isOpen == old(isOpen) && socket.broken == old(socket.broken)
        decreases |socket.arriving|
      {
        ghost var left := socket.arriving;
        var ok, header := ReadExact(socket, 4);
        part := header;
        if !ok {
          break;
        }
        var len := header[0] as int + header[1] as int * 0x100 + header[2] as int * 0x1_0000
                   + header[3] as int * 0x100_0000;
        LengthIs(header, len);
        if len > CAP {
          break;
        }
        var payload := "";
        if len > 0 {
          ok, payload := ReadExact(socket, len);
          part := header + payload;
          HeaderFirst(header, payload);
          if !ok {
            break;
          }
        }
        dispatched := dispatched + [payload];
        SplitGrows(taken, frames, header, payload);
        Regroup(taken, header, payload, socket.arriving);
        Regroup(start, frames, [payload], []);
        taken, frames := taken + header + payload, frames + [payload];
      }
      active := false;
      SplitLeft(all, taken, frames, part, socket.arriving);
    }
  }
}
