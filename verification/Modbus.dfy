/** Modbus requests: one PDU against the four register tables. */
module Modbus {

  type Byte = x: int | 0 <= x < 256

  const TableSize: nat := 1024
  const BufSize: nat := 300

  /** The four register tables. */
  datatype Tables = Tables(coils: seq<bool>, discrete: seq<bool>, holding: seq<nat>, inputs: seq<nat>)
  {
    predicate Valid() {
      && |coils| == |discrete| == |holding| == |inputs| == TableSize
      && (forall i :: 0 <= i < TableSize ==> holding[i] < 0x10000)
      && (forall i :: 0 <= i < TableSize ==> inputs[i] < 0x10000)
    }
  }

  function Be16(hi: Byte, lo: Byte): (r: nat)
    ensures r < 0x10000
  {
    hi * 256 + lo
  }

  function ToBe16(v: nat): (r: seq<Byte>)
    requires v < 0x10000
    ensures |r| == 2 && Be16(r[0], r[1]) == v
  {
    [v / 256, v % 256]
  }

  // ------------------------------------------------------------- encodings

  function Pow2(n: nat): (r: nat)
    ensures r >= 1
  {
    if n == 0 then 1 else 2 * Pow2(n - 1)
  }

  /** Coils packed low bit first. */
  function PackByte(bits: seq<bool>): (r: nat)
    requires |bits| <= 8
    ensures r < Pow2(|bits|)
  {
    if bits == [] then 0 else (if bits[0] then 1 else 0) + 2 * PackByte(bits[1..])
  }

  lemma EightBits(bits: seq<bool>)
    requires |bits| <= 8
    ensures PackByte(bits) < 256
  {
    assert Pow2(8) == 256;
    Pow2Grows(|bits|, 8);
  }

  lemma {:induction false} Pow2Grows(m: nat, n: nat)
    requires m <= n
    ensures Pow2(m) <= Pow2(n)
    decreases n - m
  {
    if m < n {
      Pow2Grows(m + 1, n);
    }
  }

  function Packed(bits: seq<bool>): (r: seq<Byte>)
    ensures |r| == (|bits| + 7) / 8
  {
    if bits == [] then []
    else
      var n := if |bits| < 8 then |bits| else 8;
      EightBits(bits[..n]);
      [PackByte(bits[..n])] + Packed(bits[n..])
  }

  predicate BitOf(b: nat, j: nat) {
    b / Pow2(j) % 2 == 1
  }

  lemma {:induction false} UnpackByte(bits: seq<bool>, j: nat)
    requires |bits| <= 8 && j < |bits|
    ensures BitOf(PackByte(bits), j) == bits[j]
  {
    var rest := PackByte(bits[1..]);
    if j > 0 {
      UnpackByte(bits[1..], j - 1);
      HalfThenShift(if bits[0] then 1 else 0, rest, Pow2(j - 1));
    }
  }

  lemma HalfThenShift(b: nat, x: nat, p: nat)
    requires b <= 1 && p >= 1
    ensures (b + 2 * x) / (2 * p) == x / p
  {
    var q, r := x / p, x % p;
    assert x == q * p + r;
    assert b + 2 * x == q * (2 * p) + (b + 2 * r);
    DivUnique(b + 2 * x, 2 * p, q, b + 2 * r);
  }

  lemma DivUnique(n: nat, d: nat, q: nat, r: nat)
    requires d > 0 && n == q * d + r && r < d
    ensures n / d == q
  {
    var m := n / d;
    assert n == m * d + n % d;
    assert (q - m) * d == n % d - r;
    SmallMultiple(q - m, d);
  }

  lemma SmallMultiple(k: int, d: int)
    requires d > 0 && -d < k * d < d
    ensures k == 0
  {
    Multiple(k, d);
    Multiple(-k, d);
    assert -k * d == -(k * d);
  }

  lemma Multiple(k: int, d: int)
    requires d > 0
    ensures k >= 1 ==> k * d >= d
  {
    if k >= 1 {
      assert k * d == (k - 1) * d + d;
    }
  }

  lemma PackedHead(bits: seq<bool>)
    requires bits != []
    ensures var n := if |bits| < 8 then |bits| else 8;
      Packed(bits)[0] == PackByte(bits[..n]) && Packed(bits)[1..] == Packed(bits[n..])
  {
  }

  lemma EightOn(i: nat)
    requires i >= 8
    ensures i / 8 == (i - 8) / 8 + 1 && i % 8 == (i - 8) % 8
  {
  }

  lemma PackedNext(bits: seq<bool>, k: nat)
    requires |bits| > 8 && k + 1 < |Packed(bits)|
    ensures k < |Packed(bits[8..])| && Packed(bits)[k + 1] == Packed(bits[8..])[k]
  {
    PackedHead(bits);
    assert Packed(bits)[1..][k] == Packed(bits)[k + 1];
  }

  /** Every bit a master reads back is the register's. */
  lemma {:induction false} PackedReads(bits: seq<bool>, i: nat)
    requires i < |bits|
    ensures i / 8 < |Packed(bits)| && BitOf(Packed(bits)[i / 8], i % 8) == bits[i]
    decreases |bits|
  {
    if i < 8 {
      PackedHead(bits);
      UnpackByte(bits[..if |bits| < 8 then |bits| else 8], i);
    } else {
      EightOn(i);
      PackedReads(bits[8..], i - 8);
      PackedNext(bits, (i - 8) / 8);
      assert bits[8..][i - 8] == bits[i];
    }
  }

  /** Registers as big-endian words. */
  function Words(values: seq<nat>): (r: seq<Byte>)
    requires forall i :: 0 <= i < |values| ==> values[i] < 0x10000
    ensures |r| == 2 * |values|
  {
    if values == [] then [] else ToBe16(values[0]) + Words(values[1..])
  }

  lemma FirstWord(values: seq<nat>)
    requires values != [] && forall k :: 0 <= k < |values| ==> values[k] < 0x10000
    ensures Words(values)[..2] == ToBe16(values[0]) && Words(values)[2..] == Words(values[1..])
  {
  }

  lemma {:induction false} WordsAt(values: seq<nat>, i: nat)
    requires forall k :: 0 <= k < |values| ==> values[k] < 0x10000
    requires i < |values|
    ensures Be16(Words(values)[2 * i], Words(values)[2 * i + 1]) == values[i]
  {
    var bytes := Words(values);
    FirstWord(values);
    if i == 0 {
      assert bytes[0] == bytes[..2][0] && bytes[1] == bytes[..2][1];
    } else {
      WordsAt(values[1..], i - 1);
      assert bytes[2 * i] == bytes[2..][2 * i - 2] && bytes[2 * i + 1] == bytes[2..][2 * i - 1];
    }
  }

  /** Decoding the encoded registers gives them back. */
  lemma WordsRoundTrip(values: seq<nat>)
    requires forall k :: 0 <= k < |values| ==> values[k] < 0x10000
    ensures Unwords(Words(values), |values|) == values
  {
    forall i | 0 <= i < |values| ensures Unwords(Words(values), |values|)[i] == values[i] {
      WordsAt(values, i);
    }
  }

  /** `count` big-endian words read off a byte string. */
  function Unwords(bytes: seq<Byte>, count: nat): (r: seq<nat>)
    requires 2 * count <= |bytes|
    ensures |r| == count && forall i :: 0 <= i < count ==> r[i] == Be16(bytes[2 * i], bytes[2 * i + 1])
  {
    seq(count, i requires 0 <= i < count => Be16(bytes[2 * i], bytes[2 * i + 1]))
  }

  // ------------------------------------------------------------------ a PDU

  function Splice<T>(table: seq<T>, addr: nat, values: seq<T>): (r: seq<T>)
    requires addr + |values| <= |table|
    ensures |r| == |table|
    ensures forall i :: 0 <= i < |table| ==> r[i] == if addr <= i < addr + |values| then values[i - addr] else table[i]
  {
    table[..addr] + values + table[addr + |values|..]
  }

  function Illegal(fc: Byte): seq<Byte> {
    [if fc < 128 then fc + 128 else fc, 1]
  }

  predicate InRange(addr: nat, count: nat, most: nat) {
    0 < count <= most && addr + count <= TableSize
  }

  /** The byte count, and the bits packed. */
  function BitsReply(fc: Byte, bits: seq<bool>): (r: seq<Byte>)
    requires |bits| <= 2000
    ensures |r| == 2 + (|bits| + 7) / 8
  {
    [fc, (|bits| + 7) / 8] + Packed(bits)
  }

  function WordsReply(fc: Byte, values: seq<nat>): (r: seq<Byte>)
    requires |values| <= 125 && forall i :: 0 <= i < |values| ==> values[i] < 0x10000
    ensures |r| == 2 + 2 * |values|
  {
    [fc, 2 * |values|] + Words(values)
  }

  /** One request: the tables afterwards and the response PDU. */
  function Handle(t: Tables, pdu: seq<Byte>): (r: (Tables, seq<Byte>))
    requires t.Valid() && pdu != []
    ensures r.0.Valid() && 2 <= |r.1| <= BufSize - 7
  {
    var fc := pdu[0];
    if (fc == 1 || fc == 2) && |pdu| >= 5 then
      var addr, count := Be16(pdu[1], pdu[2]), Be16(pdu[3], pdu[4]);
      if !InRange(addr, count, 2000) then (t, Illegal(fc))
      else
        var table := if fc == 1 then t.coils else t.discrete;
        (t, BitsReply(fc, table[addr..addr + count]))
    else if (fc == 3 || fc == 4) && |pdu| >= 5 then
      var addr, count := Be16(pdu[1], pdu[2]), Be16(pdu[3], pdu[4]);
      if !InRange(addr, count, 125) then (t, Illegal(fc))
      else
        var table := if fc == 3 then t.holding else t.inputs;
        (t, WordsReply(fc, table[addr..addr + count]))
    else if fc == 5 && |pdu| >= 5 then
      var addr, value := Be16(pdu[1], pdu[2]), Be16(pdu[3], pdu[4]);
      if addr >= TableSize then (t, Illegal(fc))
      else (t.(coils := t.coils[addr := value == 0xFF00]), pdu[..5])
    else if fc == 6 && |pdu| >= 5 then
      var addr := Be16(pdu[1], pdu[2]);
      if addr >= TableSize then (t, Illegal(fc))
      else (t.(holding := t.holding[addr := Be16(pdu[3], pdu[4])]), pdu[..5])
    else if fc == 16 && |pdu| >= 6 then
      var addr, count := Be16(pdu[1], pdu[2]), Be16(pdu[3], pdu[4]);
      if !InRange(addr, count, 123) || |pdu| < 6 + 2 * count then (t, Illegal(fc))
      else (t.(holding := Splice(t.holding, addr, Unwords(pdu[6..], count))), pdu[..5])
    else (t, Illegal(fc))
  }

  // -------------------------------------------------- what a master may count on

  /** The two words that follow the function code. */
  function AddrOf(pdu: seq<Byte>): nat
    requires |pdu| >= 5
  {
    Be16(pdu[1], pdu[2])
  }

  function CountOf(pdu: seq<Byte>): nat
    requires |pdu| >= 5
  {
    Be16(pdu[3], pdu[4])
  }

  /** Exactly the requests that are served. */
  predicate Served(pdu: seq<Byte>) {
    |pdu| >= 5 &&
    var a, n := AddrOf(pdu), CountOf(pdu);
    if pdu[0] == 1 || pdu[0] == 2 then 1 <= n <= 2000 && a + n <= 1024
    else if pdu[0] == 3 || pdu[0] == 4 then 1 <= n <= 125 && a + n <= 1024
    else if pdu[0] == 5 || pdu[0] == 6 then a < 1024
    else pdu[0] == 16 && 1 <= n <= 123 && a + n <= 1024 && |pdu| >= 6 + 2 * n
  }

  lemma ReadRefused(t: Tables, pdu: seq<Byte>)
    requires t.Valid() && pdu != [] && !Served(pdu) && 1 <= pdu[0] <= 4
    ensures Handle(t, pdu) == (t, [pdu[0] + 128, 1])
  {
    if |pdu| >= 5 {
      assert pdu[0] <= 2 ==> !InRange(AddrOf(pdu), CountOf(pdu), 2000);
      assert pdu[0] >= 3 ==> !InRange(AddrOf(pdu), CountOf(pdu), 125);
    }
  }

  lemma WriteRefused(t: Tables, pdu: seq<Byte>)
    requires t.Valid() && pdu != [] && !Served(pdu) && (pdu[0] == 5 || pdu[0] == 6 || pdu[0] == 16)
    ensures Handle(t, pdu) == (t, [pdu[0] + 128, 1])
  {
  }

  /** Anything else, be it short, out of range or unknown, changes nothing and is answered
      with the code's high bit set and the error code. */
  lemma OthersRefused(t: Tables, pdu: seq<Byte>)
    requires t.Valid() && pdu != [] && !Served(pdu)
    ensures Handle(t, pdu) == (t, [if pdu[0] >= 128 then pdu[0] else pdu[0] + 128, 1])
  {
    if 1 <= pdu[0] <= 4 {
      ReadRefused(t, pdu);
    } else if pdu[0] == 5 || pdu[0] == 6 || pdu[0] == 16 {
      WriteRefused(t, pdu);
    }
  }

  lemma {:induction false} HighBitsClear(b: nat, n: nat, j: nat)
    requires b < Pow2(n) && n <= j
    ensures !BitOf(b, j)
  {
    Pow2Grows(n, j);
    DivUnique(b, Pow2(j), 0, b);
  }

  lemma {:induction false} PackedPads(bits: seq<bool>, i: nat)
    requires |bits| <= i < 8 * |Packed(bits)|
    ensures !BitOf(Packed(bits)[i / 8], i % 8)
    decreases |bits|
  {
    if |bits| <= 8 {
      PackedHead(bits);
      assert bits[..|bits|] == bits && i < 8;
      HighBitsClear(PackByte(bits), |bits|, i);
    } else {
      EightOn(i);
      PackedHead(bits);
      PackedPads(bits[8..], i - 8);
      PackedNext(bits, (i - 8) / 8);
    }
  }

  /** The i-th bit of a response, and its i-th word. */
  predicate BitAt(r: seq<Byte>, i: nat) {
    2 + i / 8 < |r| && BitOf(r[2 + i / 8], i % 8)
  }

  function WordAt(r: seq<Byte>, i: nat): nat {
    if 3 + 2 * i < |r| then Be16(r[2 + 2 * i], r[3 + 2 * i]) else 0
  }

  /** The response carries these bits, padded with zeros. */
  ghost predicate ShowsBits(r: seq<Byte>, fc: Byte, bits: seq<bool>) {
    && |bits| <= 2000 && |r| == 2 + (|bits| + 7) / 8 && r[0] == fc && r[1] == (|bits| + 7) / 8
    && (forall i: nat :: i < |bits| ==> BitAt(r, i) == bits[i])
    && (forall i: nat :: |bits| <= i ==> !BitAt(r, i))
  }

  predicate ShowsWords(r: seq<Byte>, fc: Byte, values: seq<nat>) {
    && |values| <= 125 && |r| == 2 + 2 * |values| && r[0] == fc && r[1] == 2 * |values|
    && forall i: nat :: i < |values| ==> WordAt(r, i) == values[i]
  }

  lemma BehindHeader(r: seq<Byte>, body: seq<Byte>, i: nat)
    requires |r| == 2 + |body| && r[2..] == body
    ensures BitAt(r, i) <==> i / 8 < |body| && BitOf(body[i / 8], i % 8)
    ensures 2 * i + 1 < |body| ==> WordAt(r, i) == Be16(body[2 * i], body[2 * i + 1])
  {
    if i / 8 < |body| {
      assert r[2..][i / 8] == r[2 + i / 8];
    }
    if 2 * i + 1 < |body| {
      assert r[2..][2 * i] == r[2 + 2 * i] && r[2..][2 * i + 1] == r[3 + 2 * i];
    }
  }

  lemma BitShows(r: seq<Byte>, bits: seq<bool>, i: nat)
    requires |r| == 2 + |Packed(bits)| && r[2..] == Packed(bits)
    ensures if i < |bits| then BitAt(r, i) == bits[i] else !BitAt(r, i)
  {
    BehindHeader(r, Packed(bits), i);
    if i < |bits| {
      PackedReads(bits, i);
    } else if i / 8 < |Packed(bits)| {
      PackedPads(bits, i);
    }
  }

  lemma WordShows(r: seq<Byte>, values: seq<nat>, i: nat)
    requires (forall k :: 0 <= k < |values| ==> values[k] < 0x10000) && i < |values|
    requires |r| == 2 + |Words(values)| && r[2..] == Words(values)
    ensures WordAt(r, i) == values[i]
  {
    BehindHeader(r, Words(values), i);
    WordsAt(values, i);
  }

  lemma PackedShows(r: seq<Byte>, fc: Byte, bits: seq<bool>)
    requires |bits| <= 2000 && |r| == 2 + |Packed(bits)| && r[0] == fc && r[1] == |Packed(bits)| && r[2..] == Packed(bits)
    ensures ShowsBits(r, fc, bits)
  {
    forall i: nat | i < |bits| ensures BitAt(r, i) == bits[i] {
      BitShows(r, bits, i);
    }
    forall i: nat | |bits| <= i ensures !BitAt(r, i) {
      BitShows(r, bits, i);
    }
  }

  lemma WordsShow(r: seq<Byte>, fc: Byte, values: seq<nat>)
    requires |values| <= 125 && forall i :: 0 <= i < |values| ==> values[i] < 0x10000
    requires |r| == 2 + |Words(values)| && r[0] == fc && r[1] == 2 * |values| && r[2..] == Words(values)
    ensures ShowsWords(r, fc, values)
  {
    forall i: nat | i < |values| ensures WordAt(r, i) == values[i] {
      WordShows(r, values, i);
    }
  }

  lemma BitsHandled(t: Tables, pdu: seq<Byte>, bits: seq<bool>)
    requires t.Valid() && Served(pdu) && (pdu[0] == 1 || pdu[0] == 2)
    requires bits == (if pdu[0] == 1 then t.coils else t.discrete)[AddrOf(pdu)..AddrOf(pdu) + CountOf(pdu)]
    ensures Handle(t, pdu) == (t, BitsReply(pdu[0], bits))
  {
  }

  /** Codes 1 and 2 show, bit by bit, coils and discrete inputs. */
  lemma BitsAnswer(t: Tables, pdu: seq<Byte>)
    requires t.Valid() && Served(pdu) && (pdu[0] == 1 || pdu[0] == 2)
    ensures
      var a, n := AddrOf(pdu), CountOf(pdu);
      && Handle(t, pdu).0 == t
      && ShowsBits(Handle(t, pdu).1, pdu[0], if pdu[0] == 1 then t.coils[a..a + n] else t.discrete[a..a + n])
  {
    var bits := (if pdu[0] == 1 then t.coils else t.discrete)[AddrOf(pdu)..AddrOf(pdu) + CountOf(pdu)];
    BitsHandled(t, pdu, bits);
    assert BitsReply(pdu[0], bits)[2..] == Packed(bits);
    PackedShows(Handle(t, pdu).1, pdu[0], bits);
  }

  /** Codes 3 and 4 show, word by word, holding and input registers. */
  lemma WordsAnswer(t: Tables, pdu: seq<Byte>)
    requires t.Valid() && Served(pdu) && (pdu[0] == 3 || pdu[0] == 4)
    ensures
      var a, n := AddrOf(pdu), CountOf(pdu);
      && Handle(t, pdu).0 == t
      && ShowsWords(Handle(t, pdu).1, pdu[0], if pdu[0] == 3 then t.holding[a..a + n] else t.inputs[a..a + n])
  {
    var a, n := AddrOf(pdu), CountOf(pdu);
    WordsShow(Handle(t, pdu).1, pdu[0], if pdu[0] == 3 then t.holding[a..a + n] else t.inputs[a..a + n]);
  }

  /** A holding register after a served request. */
  function RegisterThen(t: Tables, pdu: seq<Byte>, i: nat): nat
    requires t.Valid() && Served(pdu) && i < 1024
  {
    var a, n := AddrOf(pdu), CountOf(pdu);
    if pdu[0] == 6 && i == a then n
    else if pdu[0] == 16 && a <= i < a + n then Be16(pdu[6 + 2 * (i - a)], pdu[7 + 2 * (i - a)])
    else t.holding[i]
  }

  /** What a write sets: one coil, on exactly for 0xFF00; one register; or `count`
      registers from the words behind the header. */
  predicate Sets(t: Tables, pdu: seq<Byte>, u: Tables)
    requires t.Valid() && u.Valid() && Served(pdu)
  {
    var a, n := AddrOf(pdu), CountOf(pdu);
    && u.discrete == t.discrete && u.inputs == t.inputs
    && (forall i :: 0 <= i < 1024 ==> u.coils[i] == if pdu[0] == 5 && i == a then n == 0xFF00 else t.coils[i])
    && (forall i :: 0 <= i < 1024 ==> u.holding[i] == RegisterThen(t, pdu, i))
  }

  /** Codes 5, 6 and 16 set what they name and nothing else, and echo their header. */
  lemma WritesAnswer(t: Tables, pdu: seq<Byte>)
    requires t.Valid() && Served(pdu) && (pdu[0] == 5 || pdu[0] == 6 || pdu[0] == 16)
    ensures Sets(t, pdu, Handle(t, pdu).0) && Handle(t, pdu).1 == pdu[..5]
  {
    if pdu[0] == 16 {
      var bytes := pdu[6..];
      forall i | 0 <= i < CountOf(pdu) ensures Unwords(bytes, CountOf(pdu))[i] == Be16(pdu[6 + 2 * i], pdu[7 + 2 * i]) {
      }
    }
  }

  /** What a single write sets is what the matching read then shows. */
  lemma SingleWriteThenRead(t: Tables, write: seq<Byte>, read: seq<Byte>)
    requires t.Valid() && Served(write) && Served(read) && AddrOf(read) == AddrOf(write) && CountOf(read) == 1
    requires (write[0] == 5 && read[0] == 1) || (write[0] == 6 && read[0] == 3)
    ensures
      var r := Handle(Handle(t, write).0, read).1;
      if write[0] == 5 then |r| == 3 && (BitAt(r, 0) <==> CountOf(write) == 0xFF00)
      else |r| == 4 && WordAt(r, 0) == CountOf(write)
  {
    var u := Handle(t, write).0;
    WritesAnswer(t, write);
    if write[0] == 5 {
      BitsAnswer(u, read);
      assert BitAt(Handle(u, read).1, 0) == u.coils[AddrOf(read)..AddrOf(read) + 1][0];
    } else {
      WordsAnswer(u, read);
      assert WordAt(Handle(u, read).1, 0) == u.holding[AddrOf(read)..AddrOf(read) + 1][0];
    }
  }

  function ReadHolding(addr: nat, count: nat): seq<Byte>
    requires addr < 0x10000 && count < 0x10000
  {
    [3] + ToBe16(addr) + ToBe16(count)
  }

  function WriteHolding(addr: nat, values: seq<nat>): seq<Byte>
    requires addr < 0x10000 && |values| < 0x80
    requires forall i :: 0 <= i < |values| ==> values[i] < 0x10000
  {
    [16] + ToBe16(addr) + ToBe16(|values|) + [2 * |values|] + Words(values)
  }

  lemma WriteHandled(t: Tables, addr: nat, values: seq<nat>)
    requires t.Valid() && InRange(addr, |values|, 123)
    requires forall i :: 0 <= i < |values| ==> values[i] < 0x10000
    ensures Handle(t, WriteHolding(addr, values)) ==
      (t.(holding := Splice(t.holding, addr, values)), [16] + ToBe16(addr) + ToBe16(|values|))
  {
    var pdu := WriteHolding(addr, values);
    assert pdu[0] == 16 && pdu[1..3] == ToBe16(addr) && pdu[3..5] == ToBe16(|values|);
    assert pdu[1] == ToBe16(addr)[0] && pdu[2] == ToBe16(addr)[1];
    assert pdu[3] == ToBe16(|values|)[0] && pdu[4] == ToBe16(|values|)[1];
    assert pdu[6..] == Words(values);
    WordsRoundTrip(values);
    assert pdu[..5] == [16] + ToBe16(addr) + ToBe16(|values|);
  }

  lemma ReadHandled(t: Tables, addr: nat, count: nat)
    requires t.Valid() && InRange(addr, count, 125)
    ensures Handle(t, ReadHolding(addr, count)) == (t, [3, count * 2] + Words(t.holding[addr..addr + count]))
  {
    var pdu := ReadHolding(addr, count);
    assert pdu[1] == ToBe16(addr)[0] && pdu[2] == ToBe16(addr)[1];
    assert pdu[3] == ToBe16(count)[0] && pdu[4] == ToBe16(count)[1];
  }

  /** What was written is what is read back, register by register. */
  lemma WriteThenRead(t: Tables, addr: nat, values: seq<nat>, u: Tables)
    requires t.Valid() && InRange(addr, |values|, 123)
    requires forall i :: 0 <= i < |values| ==> values[i] < 0x10000
    requires u == Written(t, addr, values)
    ensures Handle(u, ReadHolding(addr, |values|)) == (u, [3, |values| * 2] + Words(values))
  {
    WriteHandled(t, addr, values);
    WrittenReads(t, addr, values);
    SameRead(u, t.(holding := Splice(t.holding, addr, values)), addr, |values|);
  }

  lemma SameRead(u: Tables, v: Tables, addr: nat, count: nat)
    requires u == v && v.Valid() && InRange(addr, count, 125)
    ensures Handle(u, ReadHolding(addr, count)) == (u, [3, count * 2] + Words(v.holding[addr..addr + count]))
  {
    ReadHandled(v, addr, count);
  }

  /** The tables after the multiple-register write. */
  function Written(t: Tables, addr: nat, values: seq<nat>): Tables
    requires t.Valid() && InRange(addr, |values|, 123)
    requires forall i :: 0 <= i < |values| ==> values[i] < 0x10000
  {
    Handle(t, WriteHolding(addr, values)).0
  }

  lemma WrittenReads(t: Tables, addr: nat, values: seq<nat>)
    requires t.Valid() && InRange(addr, |values|, 123)
    requires forall i :: 0 <= i < |values| ==> values[i] < 0x10000
    ensures
      var u := t.(holding := Splice(t.holding, addr, values));
      u.Valid() && u.holding[addr..addr + |values|] == values
  {
  }

  // --------------------------------------------------------- as a handler

  /** A request to tables that are what they should be; anything else changes nothing. */
  function Respond(t: Tables, pdu: seq<Byte>): (Tables, seq<Byte>) {
    if t.Valid() && pdu != [] then Handle(t, pdu) else (t, [])
  }
}
