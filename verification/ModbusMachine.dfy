/** The frame server as it runs: register arrays, a byte buffer filled and shifted in
    place, responses written into a scratch buffer. */
module ModbusMachine {
  import opened Modbus
  import opened Frames

  /** Bits packed by position, as the response loop leaves them after `i` of them. */
  predicate PackedSoFar(out: seq<Byte>, bits: seq<bool>, i: nat)
    requires i <= |bits| && |out| == (|bits| + 7) / 8
  {
    forall k :: 0 <= k < |out| ==> out[k] == PackByte(Eight(bits[..i], k))
  }

  /** The k-th group of eight, shorter at the end and empty beyond it. */
  function Eight(bits: seq<bool>, k: nat): (r: seq<bool>)
    ensures |r| <= 8
  {
    if 8 * k >= |bits| then []
    else if 8 * k + 8 <= |bits| then bits[8 * k..8 * k + 8] else bits[8 * k..]
  }

  lemma {:induction false} PackedGroups(bits: seq<bool>, k: nat)
    requires k < |Packed(bits)|
    ensures Packed(bits)[k] == PackByte(Eight(bits, k))
    decreases k
  {
    var n := if |bits| < 8 then |bits| else 8;
    PackedHead(bits);
    if k == 0 {
      assert Eight(bits, 0) == bits[..n];
    } else {
      PackedGroups(bits[n..], k - 1);
      assert Eight(bits[n..], k - 1) == Eight(bits, k);
      assert Packed(bits)[k] == Packed(bits)[1..][k - 1];
    }
  }

  /** Setting the next bit of a byte adds its weight: the bit was clear. */
  lemma {:induction false} PackAppends(bits: seq<bool>, b: bool)
    requires |bits| <= 7
    ensures PackByte(bits + [b]) == PackByte(bits) + if b then Pow2(|bits|) else 0
  {
    if bits == [] {
      assert bits + [b] == [b];
      assert PackByte([b]) == (if b then 1 else 0) + 2 * PackByte([]);
    } else {
      PackAppends(bits[1..], b);
      assert (bits + [b])[1..] == bits[1..] + [b];
    }
  }

  lemma EightGrows(bits: seq<bool>, i: nat)
    requires i < |bits|
    ensures |Eight(bits[..i], i / 8)| == i % 8
    ensures Eight(bits[..i + 1], i / 8) == Eight(bits[..i], i / 8) + [bits[i]]
  {
    assert 8 * (i / 8) + i % 8 == i;
    assert bits[..i + 1] == bits[..i] + [bits[i]];
  }

  lemma EightStays(bits: seq<bool>, i: nat, k: nat)
    requires i < |bits| && k != i / 8
    ensures Eight(bits[..i + 1], k) == Eight(bits[..i], k)
  {
    assert bits[..i + 1] == bits[..i] + [bits[i]];
    if k < i / 8 {
      assert 8 * k + 8 <= i;
    } else {
      assert 8 * k > i;
    }
  }

  lemma NextBit(out: seq<Byte>, bits: seq<bool>, i: nat, after: seq<Byte>)
    requires i < |bits| && |out| == |after| == (|bits| + 7) / 8 && PackedSoFar(out, bits, i)
    requires forall k :: 0 <= k < |out| && k != i / 8 ==> after[k] == out[k]
    requires after[i / 8] == out[i / 8] + if bits[i] then Pow2(i % 8) else 0
    ensures PackedSoFar(after, bits, i + 1)
  {
    forall k | 0 <= k < |after| ensures after[k] == PackByte(Eight(bits[..i + 1], k)) {
      if k == i / 8 {
        EightGrows(bits, i);
        PackAppends(Eight(bits[..i], k), bits[i]);
      } else {
        EightStays(bits, i, k);
      }
    }
  }

  lemma AllBits(out: seq<Byte>, bits: seq<bool>)
    requires |out| == (|bits| + 7) / 8 && PackedSoFar(out, bits, |bits|)
    ensures out == Packed(bits)
  {
    assert bits[..|bits|] == bits;
    forall k | 0 <= k < |out| ensures out[k] == Packed(bits)[k] {
      PackedGroups(bits, k);
    }
  }

  lemma {:induction false} WordsAppend(values: seq<nat>, v: nat)
    requires v < 0x10000 && forall i :: 0 <= i < |values| ==> values[i] < 0x10000
    ensures Words(values + [v]) == Words(values) + ToBe16(v)
  {
    if values == [] {
      assert values + [v] == [v];
      assert Words([v]) == ToBe16(v) + Words([]);
    } else {
      WordsAppend(values[1..], v);
      assert (values + [v])[1..] == values[1..] + [v];
      assert (values + [v])[0] == values[0];
    }
  }

  lemma SpliceGrows<T>(table: seq<T>, addr: nat, values: seq<T>, i: nat)
    requires addr + |values| <= |table| && i < |values|
    ensures Splice(table, addr, values[..i])[addr + i := values[i]] == Splice(table, addr, values[..i + 1])
  {
  }

  class RegisterTables {
    const coils: array<bool>
    const discrete: array<bool>
    const holding: array<nat>
    const inputs: array<nat>

    predicate Shaped() {
      && coils.Length == discrete.Length == holding.Length == inputs.Length == TableSize
      && coils != discrete && holding != inputs
    }

    function Value(): Tables
      reads coils, discrete, holding, inputs
    {
      Tables(coils[..], discrete[..], holding[..], inputs[..])
    }

    predicate Valid()
      reads coils, discrete, holding, inputs
    {
      Shaped() && Value().Valid()
    }

    constructor ()
      ensures Valid() && fresh(coils) && fresh(discrete) && fresh(holding) && fresh(inputs)
    {
      coils := new bool[TableSize](_ => false);
      discrete := new bool[TableSize](_ => false);
      holding := new nat[TableSize](_ => 0);
      inputs := new nat[TableSize](_ => 0);
    }

    method Clear(out: array<Byte>, nbytes: nat)
      requires 2 + nbytes <= out.Length
      modifies out
      ensures forall m :: 2 <= m < 2 + nbytes ==> out[m] == 0
      ensures out[0] == old(out[0]) && out[1] == old(out[1])
    {
      for k := 0 to nbytes
        invariant forall m :: 2 <= m < 2 + k ==> out[m] == 0
        invariant out[0] == old(out[0]) && out[1] == old(out[1])
      {
        out[2 + k] := 0;
      }
    }

    method SetBit(out: array<Byte>, nbytes: nat, i: nat)
      requires 2 + nbytes <= out.Length && i / 8 < nbytes && out[2 + i / 8] + Pow2(i % 8) < 256
      modifies out
      ensures out[2..2 + nbytes] == old(out[2..2 + nbytes])[i / 8 := old(out[2 + i / 8]) + Pow2(i % 8)]
      ensures out[0] == old(out[0]) && out[1] == old(out[1])
    {
      out[2 + i / 8] := out[2 + i / 8] + Pow2(i % 8);
    }

    /** Pack `count` bits of a table, low bit first. */
    method PutBits(table: array<bool>, addr: nat, count: nat, out: array<Byte>)
      requires addr + count <= table.Length && 2 + (count + 7) / 8 <= out.Length
      modifies out
      ensures out[2..2 + (count + 7) / 8] == Packed(table[addr..addr + count])
      ensures out[0] == old(out[0]) && out[1] == old(out[1])
    {
      var nbytes := (count + 7) / 8;
      ghost var bits := table[addr..addr + count];
      Clear(out, nbytes);
      assert PackedSoFar(out[2..2 + nbytes], bits, 0);
      for i := 0 to count
        invariant PackedSoFar(out[2..2 + nbytes], bits, i)
        invariant out[0] == old(out[0]) && out[1] == old(out[1])
      {
        ghost var before := out[2..2 + nbytes];
        GroupIndex(i, count);
        if table[addr + i] {
          ByteHasRoom(before, bits, i);
          SetBit(out, nbytes, i);
        }
        NextBit(before, bits, i, out[2..2 + nbytes]);
      }
      AllBits(out[2..2 + nbytes], bits);
    }

    /** Write `count` registers of a table, high byte first. */
    method PutWords(table: array<nat>, addr: nat, count: nat, out: array<Byte>)
      requires addr + count <= table.Length && 2 + 2 * count <= out.Length
      requires forall i :: 0 <= i < table.Length ==> table[i] < 0x10000
      modifies out
      ensures out[2..2 + 2 * count] == Words(table[addr..addr + count])
      ensures out[0] == old(out[0]) && out[1] == old(out[1])
    {
      for i := 0 to count
        invariant out[2..2 + 2 * i] == Words(table[addr..addr + i])
        invariant out[0] == old(out[0]) && out[1] == old(out[1])
      {
        var v := table[addr + i];
        WordsAppend(table[addr..addr + i], v);
        assert table[addr..addr + i + 1] == table[addr..addr + i] + [v];
        out[2 + 2 * i], out[2 + 2 * i + 1] := v / 256, v % 256;
        assert out[2..2 + 2 * (i + 1)] == out[2..2 + 2 * i] + [v / 256, v % 256];
      }
    }

    method Refuse(fc: Byte, out: array<Byte>) returns (n: nat)
      requires out.Length >= 2
      modifies out
      ensures n == 2 && out[..n] == Illegal(fc)
    {
      out[0] := if fc < 128 then fc + 128 else fc;
      out[1] := 1;
      n := 2;
    }

    method Echo(pdu: seq<Byte>, out: array<Byte>) returns (n: nat)
      requires |pdu| >= 5 && out.Length >= 5
      modifies out
      ensures n == 5 && out[..n] == pdu[..5]
    {
      for i := 0 to 5
        invariant out[..i] == pdu[..i]
      {
        out[i] := pdu[i];
      }
      n := 5;
    }

    method ReadBits(pdu: seq<Byte>, out: array<Byte>) returns (n: nat)
      requires Valid() && |pdu| >= 5 && (pdu[0] == 1 || pdu[0] == 2) && out.Length == BufSize - 7
      modifies out
      ensures n <= out.Length && (Value(), out[..n]) == Handle(Value(), pdu)
    {
      var fc, addr, count := pdu[0], Be16(pdu[1], pdu[2]), Be16(pdu[3], pdu[4]);
      if !InRange(addr, count, 2000) {
        n := Refuse(fc, out);
        return;
      }
      n := BitsResponse(fc, if fc == 1 then coils else discrete, addr, count, out);
    }

    method BitsResponse(fc: Byte, table: array<bool>, addr: nat, count: nat, out: array<Byte>) returns (n: nat)
      requires InRange(addr, count, 2000) && table.Length == TableSize && out.Length == BufSize - 7
      modifies out
      ensures n == 2 + (count + 7) / 8 <= out.Length
      ensures out[..n] == [fc, (count + 7) / 8] + Packed(table[addr..addr + count])
    {
      out[0], out[1] := fc, (count + 7) / 8;
      PutBits(table, addr, count, out);
      n := 2 + (count + 7) / 8;
      assert out[..n] == [out[0], out[1]] + out[2..n];
    }

    method ReadWords(pdu: seq<Byte>, out: array<Byte>) returns (n: nat)
      requires Valid() && |pdu| >= 5 && (pdu[0] == 3 || pdu[0] == 4) && out.Length == BufSize - 7
      modifies out
      ensures n <= out.Length && (Value(), out[..n]) == Handle(Value(), pdu)
    {
      var fc, addr, count := pdu[0], Be16(pdu[1], pdu[2]), Be16(pdu[3], pdu[4]);
      if !InRange(addr, count, 125) {
        n := Refuse(fc, out);
        return;
      }
      n := WordsResponse(fc, if fc == 3 then holding else inputs, addr, count, out);
    }

    method WordsResponse(fc: Byte, table: array<nat>, addr: nat, count: nat, out: array<Byte>) returns (n: nat)
      requires InRange(addr, count, 125) && table.Length == TableSize && out.Length == BufSize - 7
      requires forall i :: 0 <= i < table.Length ==> table[i] < 0x10000
      modifies out
      ensures n == 2 + count * 2 <= out.Length
      ensures out[..n] == [fc, count * 2] + Words(table[addr..addr + count])
    {
      out[0], out[1] := fc, count * 2;
      PutWords(table, addr, count, out);
      n := 2 + count * 2;
      assert out[..n] == [out[0], out[1]] + out[2..n];
    }

    method WriteWords(pdu: seq<Byte>, out: array<Byte>) returns (n: nat)
      requires Valid() && |pdu| >= 6 && pdu[0] == 16 && out.Length == BufSize - 7
      modifies holding, out
      ensures n <= out.Length && Valid() && (Value(), out[..n]) == Handle(old(Value()), pdu)
    {
      var addr, count := Be16(pdu[1], pdu[2]), Be16(pdu[3], pdu[4]);
      if !InRange(addr, count, 123) || |pdu| < 6 + 2 * count {
        n := Refuse(pdu[0], out);
        return;
      }
      ghost var values := Unwords(pdu[6..], count);
      for i := 0 to count
        invariant holding[..] == Splice(old(holding[..]), addr, values[..i])
      {
        SpliceGrows(old(holding[..]), addr, values, i);
        holding[addr + i] := Be16(pdu[6 + 2 * i], pdu[7 + 2 * i]);
      }
      assert values[..count] == values;
      n := Echo(pdu, out);
    }

    /** One request against the tables; the response is left at the front of `out`. */
    method HandlePdu(pdu: seq<Byte>, out: array<Byte>) returns (n: nat)
      requires Valid() && pdu != [] && out.Length == BufSize - 7
      modifies coils, holding, out
      ensures n <= out.Length && Valid() && (Value(), out[..n]) == Handle(old(Value()), pdu)
    {
      var fc := pdu[0];
      if (fc == 1 || fc == 2) && |pdu| >= 5 {
        n := ReadBits(pdu, out);
      } else if (fc == 3 || fc == 4) && |pdu| >= 5 {
        n := ReadWords(pdu, out);
      } else if fc == 5 && |pdu| >= 5 {
        var addr, value := Be16(pdu[1], pdu[2]), Be16(pdu[3], pdu[4]);
        if addr >= TableSize {
          n := Refuse(fc, out);
        } else {
          coils[addr] := value == 0xFF00;
          n := Echo(pdu, out);
        }
      } else if fc == 6 && |pdu| >= 5 {
        var addr := Be16(pdu[1], pdu[2]);
        if addr >= TableSize {
          n := Refuse(fc, out);
        } else {
          holding[addr] := Be16(pdu[3], pdu[4]);
          n := Echo(pdu, out);
        }
      } else if fc == 16 && |pdu| >= 6 {
        n := WriteWords(pdu, out);
      } else {
        n := Refuse(fc, out);
      }
    }
  }

  lemma GroupIndex(i: nat, count: nat)
    requires i < count
    ensures i / 8 < (count + 7) / 8
  {
  }

  lemma ByteHasRoom(out: seq<Byte>, bits: seq<bool>, i: nat)
    requires i < |bits| && |out| == (|bits| + 7) / 8 && PackedSoFar(out, bits, i) && bits[i]
    ensures out[i / 8] + Pow2(i % 8) < 256
  {
    var group := Eight(bits[..i], i / 8);
    EightGrows(bits, i);
    PackAppends(group, true);
    EightBits(group + [true]);
  }

  // -------------------------------------------------------------- the frames

  /** Serving `s` from here, after the replies already sent, reaches `goal`. */
  predicate Reaches(t: Tables, s: seq<Byte>, sent: seq<seq<Byte>>, goal: Outcome<Tables>) {
    var o := Serve(Respond, t, s);
    goal == o.(replies := sent + o.replies)
  }

  lemma ReachesOn(t: Tables, s: seq<Byte>, sent: seq<seq<Byte>>, goal: Outcome<Tables>)
    requires Reaches(t, s, sent, goal) && HasFrame(s)
    ensures
      var (u, response) := Respond(t, s[7..FrameLength(s)]);
      Reaches(u, s[FrameLength(s)..], sent + [Reply(s, response)], goal)
  {
    var (u, response) := Respond(t, s[7..FrameLength(s)]);
    var o := Serve(Respond, u, s[FrameLength(s)..]);
    assert (sent + [Reply(s, response)]) + o.replies == sent + ([Reply(s, response)] + o.replies);
  }

  lemma ReachesEnd(t: Tables, s: seq<Byte>, sent: seq<seq<Byte>>, goal: Outcome<Tables>)
    requires Reaches(t, s, sent, goal) && !HasFrame(s)
    ensures goal == if |s| >= 7 && Malformed(s) then Outcome(t, sent, [], true) else Outcome(t, sent, s, false)
  {
    assert sent + [] == sent;
  }

  /** One connection: its buffer, and the bytes that have arrived but not been read. */
  class ClientSlot {
    const buf: array<Byte>
    var have: nat
    var socket: seq<Byte>
    var replies: seq<seq<Byte>>
    var open: bool

    predicate Valid()
      reads this
    {
      buf.Length == BufSize && have <= BufSize
    }

    function Buffered(): seq<Byte>
      requires Valid()
      reads this, buf
    {
      buf[..have]
    }

    constructor ()
      ensures Valid() && fresh(buf) && have == 0 && socket == [] && replies == [] && open
    {
      buf := new Byte[BufSize](_ => 0);
      have, socket, replies, open := 0, [], [], true;
    }

    /** Read what has arrived, as far as the buffer goes. */
    method Fill()
      requires Valid()
      modifies this`have, this`socket, buf
      ensures Valid()
      ensures
        var n := if |old(socket)| < BufSize - old(have) then |old(socket)| else BufSize - old(have);
        Buffered() == old(Buffered()) + old(socket)[..n] && socket == old(socket)[n..]
    {
      ghost var k := 0;
      while socket != [] && have < BufSize
        invariant Valid() && k <= |old(socket)| && have == old(have) + k
        invariant Buffered() == old(Buffered()) + old(socket)[..k] && socket == old(socket)[k..]
        decreases |socket|
      {
        buf[have] := socket[0];
        assert old(socket)[..k + 1] == old(socket)[..k] + [socket[0]];
        have, socket, k := have + 1, socket[1..], k + 1;
      }
    }

    /** Shift the bytes behind the first `n` down to the front. */
    method Shift(n: nat)
      requires Valid() && n <= have
      modifies this`have, buf
      ensures Valid() && Buffered() == old(Buffered())[n..]
    {
      have := have - n;
      for i := 0 to have
        invariant Valid() && have == old(have) - n
        invariant forall k :: 0 <= k < i ==> buf[k] == old(buf[n + k])
        invariant forall k :: i <= k < old(have) ==> buf[k] == old(buf[k])
      {
        buf[i] := buf[n + i];
      }
    }

    method Drop()
      requires Valid()
      modifies this`have, this`open
      ensures Valid() && Buffered() == [] && !open
    {
      have, open := 0, false;
    }
  }

  /** The response behind the request's own header. */
  function Framed(s: seq<Byte>, response: seq<Byte>): (r: seq<Byte>)
    requires |s| >= 7 && |response| < BufSize
    ensures r == Reply(s, response)
  {
    s[..4] + ToBe16(|response| + 1) + [s[6]] + response
  }

  class FrameServer {
    const tables: RegisterTables

    predicate Valid()
      reads tables.coils, tables.discrete, tables.holding, tables.inputs
    {
      tables.Valid()
    }

    function Value(slot: ClientSlot): Slot<Tables>
      requires slot.Valid()
      reads slot, slot.buf, tables.coils, tables.discrete, tables.holding, tables.inputs
    {
      Slot(tables.Value(), slot.Buffered(), slot.socket, slot.replies, slot.open)
    }

    constructor ()
      ensures Valid() && fresh(tables)
      ensures fresh(tables.coils) && fresh(tables.discrete) && fresh(tables.holding) && fresh(tables.inputs)
    {
      tables := new RegisterTables();
    }

    /** The connection's buffer is none of the tables. */
    predicate Apart(slot: ClientSlot) {
      var buf: object := slot.buf;
      buf != tables.coils && buf != tables.discrete && buf != tables.holding && buf != tables.inputs
    }

    /** Handle the complete frame at the front of the buffer and answer it. */
    method Answer(slot: ClientSlot)
      requires Valid() && slot.Valid() && Apart(slot) && HasFrame(slot.Buffered())
      modifies slot`have, slot`replies, slot.buf, tables.coils, tables.holding
      ensures Valid() && slot.Valid()
      ensures
        var s := old(slot.Buffered());
        var (u, response) := Respond(old(tables.Value()), s[7..FrameLength(s)]);
        && tables.Value() == u && slot.replies == old(slot.replies) + [Reply(s, response)]
        && slot.Buffered() == s[FrameLength(s)..]
    {
      var s := slot.buf[..slot.have];
      var frame := 6 + Be16(s[4], s[5]);
      var out := new Byte[BufSize - 7](_ => 0);
      var n := tables.HandlePdu(s[7..frame], out);
      slot.replies := slot.replies + [Framed(s, out[..n])];
      slot.Shift(frame);
    }

    /** The same, on the way to what serving the whole buffer amounts to. */
    method AnswerNext(slot: ClientSlot, ghost sent: seq<seq<Byte>>, ghost answered: seq<seq<Byte>>, ghost goal: Outcome<Tables>)
      returns (ghost more: seq<seq<Byte>>)
      requires Valid() && slot.Valid() && Apart(slot) && HasFrame(slot.Buffered())
      requires slot.replies == sent + answered && Reaches(tables.Value(), slot.Buffered(), answered, goal)
      modifies slot`have, slot`replies, slot.buf, tables.coils, tables.holding
      ensures Valid() && slot.Valid() && slot.have < old(slot.have)
      ensures slot.replies == sent + more && Reaches(tables.Value(), slot.Buffered(), more, goal)
    {
      ghost var s := slot.Buffered();
      ReachesStep(tables.Value(), s, answered, goal);
      more := answered + [Reply(s, Respond(tables.Value(), s[7..FrameLength(s)]).1)];
      Answer(slot);
    }

    /** Handle every complete frame in the buffer. */
    method AnswerAll(slot: ClientSlot)
      requires Valid() && slot.Valid() && Apart(slot) && slot.open
      modifies slot`have, slot`replies, slot`open, slot.buf, tables.coils, tables.holding
      ensures Valid() && slot.Valid()
      ensures
        var o := Serve(Respond, old(tables.Value()), old(slot.Buffered()));
        Value(slot) == Slot(o.server, o.rest, old(slot.socket), old(slot.replies) + o.replies, !o.dropped)
    {
      ghost var sent, answered: seq<seq<Byte>> := slot.replies, [];
      ghost var goal := Serve(Respond, tables.Value(), slot.Buffered());
      assert [] + goal.replies == goal.replies;
      while slot.have >= 7
        invariant Valid() && slot.Valid() && slot.open
        invariant slot.replies == sent + answered
        invariant Reaches(tables.Value(), slot.Buffered(), answered, goal)
        decreases slot.have
      {
        ReachesStop(tables.Value(), slot.Buffered(), answered, goal);
        var frame := 6 + Be16(slot.buf[4], slot.buf[5]);
        if frame < 8 || frame > BufSize {
          slot.Drop();
          return;
        }
        if slot.have < frame { return; }
        answered := AnswerNext(slot, sent, answered, goal);
      }
      ReachesEnd(tables.Value(), slot.Buffered(), answered, goal);
    }

    /** One poll of a connection. */
    method Service(slot: ClientSlot)
      requires Valid() && slot.Valid() && Apart(slot) && slot.open
      modifies slot, slot.buf, tables.coils, tables.holding
      ensures Valid() && slot.Valid() && Value(slot) == Polled(Respond, old(Value(slot)))
    {
      slot.Fill();
      AnswerAll(slot);
    }
  }

  lemma ReachesStop(t: Tables, s: seq<Byte>, sent: seq<seq<Byte>>, goal: Outcome<Tables>)
    requires Reaches(t, s, sent, goal)
    ensures !HasFrame(s) ==>
      goal == if |s| >= 7 && Malformed(s) then Outcome(t, sent, [], true) else Outcome(t, sent, s, false)
  {
    if !HasFrame(s) { ReachesEnd(t, s, sent, goal); }
  }

  lemma ReachesStep(t: Tables, s: seq<Byte>, sent: seq<seq<Byte>>, goal: Outcome<Tables>)
    requires Reaches(t, s, sent, goal) && HasFrame(s)
    ensures
      var (u, response) := Respond(t, s[7..FrameLength(s)]);
      Reaches(u, s[FrameLength(s)..], sent + [Reply(s, response)], goal)
  {
    ReachesOn(t, s, sent, goal);
  }
}
