/** The 16-bit CRC of DelegateMQ/extras/util/crc16.h: the table-driven and the loop-driven form of
    Crc16CalcBlock, and the polynomial division over GF(2) that both of them perform.
    The generator x^16 + x^12 + x^5 + 1 is the one of section 2 of ITU-T Recommendation V.41. */
module Crc16 {

  const POLY: bv16 := 0x1021
  const CRC_START: bv16 := 0xFFFF

  // ---------- 16-bit registers as polynomials of degree below 16 ----------

  function Plus(a: bv16, b: bv16): bv16 { a ^ b }

  function Up(a: bv16): bv16 { a << 1 }

  predicate Top(a: bv16) { a & 0x8000 != 0 }

  function Up8(a: bv16): bv16 { a << 8 }

  function Low(a: bv16): bv16 { a & 0xFF }

  /** The table index for the next message byte. */
  function Index(crc: bv16, b: bv8): bv16 { (crc >> 8) ^ (b as bv16) }

  function ShiftOut(a: bv16, n: nat): bv16 {
    if n == 0 then a else Up(ShiftOut(a, n - 1))
  }

  /** A byte in the upper half of a register. */
  function High(b: bv8): bv16 { (b as bv16) << 8 }

  function ShiftBit(crc: bv16): bv16 {
    if Top(crc) then Plus(Up(crc), POLY) else Up(crc)
  }

  function ShiftBits(crc: bv16, n: nat): bv16 {
    if n == 0 then crc else ShiftBit(ShiftBits(crc, n - 1))
  }

  function Shift8(crc: bv16): bv16 {
    ShiftBit(ShiftBit(ShiftBit(ShiftBit(ShiftBit(ShiftBit(ShiftBit(ShiftBit(crc))))))))
  }

  function FeedByte(crc: bv16, b: bv8): bv16 {
    Shift8(Plus(crc, High(b)))
  }

  /** The CRC of a message as a plain fold over its bytes. */
  function Crc(msg: seq<bv8>, start: bv16): bv16 {
    if msg == [] then start else FeedByte(Crc(msg[..|msg| - 1], start), msg[|msg| - 1])
  }

  // ---------- The lookup table, one row for each high nibble of the index ----------

  function Nibbles(h: bv16, l: bv16): bv16 { (h << 12) | (l << 8) }

  function TableRow0(l: bv16): (r: bv16)
    ensures l < 16 ==> r == Shift8(Nibbles(0, l))
  {
    match l
    case 0 => 0x0000 case 1 => 0x1021 case 2 => 0x2042 case 3 => 0x3063
    case 4 => 0x4084 case 5 => 0x50a5 case 6 => 0x60c6 case 7 => 0x70e7
    case 8 => 0x8108 case 9 => 0x9129 case 10 => 0xa14a case 11 => 0xb16b
    case 12 => 0xc18c case 13 => 0xd1ad case 14 => 0xe1ce case _ => 0xf1ef
  }

  function TableRow1(l: bv16): (r: bv16)
    ensures l < 16 ==> r == Shift8(Nibbles(1, l))
  {
    match l
    case 0 => 0x1231 case 1 => 0x0210 case 2 => 0x3273 case 3 => 0x2252
    case 4 => 0x52b5 case 5 => 0x4294 case 6 => 0x72f7 case 7 => 0x62d6
    case 8 => 0x9339 case 9 => 0x8318 case 10 => 0xb37b case 11 => 0xa35a
    case 12 => 0xd3bd case 13 => 0xc39c case 14 => 0xf3ff case _ => 0xe3de
  }

  function TableRow2(l: bv16): (r: bv16)
    ensures l < 16 ==> r == Shift8(Nibbles(2, l))
  {
    match l
    case 0 => 0x2462 case 1 => 0x3443 case 2 => 0x0420 case 3 => 0x1401
    case 4 => 0x64e6 case 5 => 0x74c7 case 6 => 0x44a4 case 7 => 0x5485
    case 8 => 0xa56a case 9 => 0xb54b case 10 => 0x8528 case 11 => 0x9509
    case 12 => 0xe5ee case 13 => 0xf5cf case 14 => 0xc5ac case _ => 0xd58d
  }

  function TableRow3(l: bv16): (r: bv16)
    ensures l < 16 ==> r == Shift8(Nibbles(3, l))
  {
    match l
    case 0 => 0x3653 case 1 => 0x2672 case 2 => 0x1611 case 3 => 0x0630
    case 4 => 0x76d7 case 5 => 0x66f6 case 6 => 0x5695 case 7 => 0x46b4
    case 8 => 0xb75b case 9 => 0xa77a case 10 => 0x9719 case 11 => 0x8738
    case 12 => 0xf7df case 13 => 0xe7fe case 14 => 0xd79d case _ => 0xc7bc
  }

  function TableRow4(l: bv16): (r: bv16)
    ensures l < 16 ==> r == Shift8(Nibbles(4, l))
  {
    match l
    case 0 => 0x48c4 case 1 => 0x58e5 case 2 => 0x6886 case 3 => 0x78a7
    case 4 => 0x0840 case 5 => 0x1861 case 6 => 0x2802 case 7 => 0x3823
    case 8 => 0xc9cc case 9 => 0xd9ed case 10 => 0xe98e case 11 => 0xf9af
    case 12 => 0x8948 case 13 => 0x9969 case 14 => 0xa90a case _ => 0xb92b
  }

  function TableRow5(l: bv16): (r: bv16)
    ensures l < 16 ==> r == Shift8(Nibbles(5, l))
  {
    match l
    case 0 => 0x5af5 case 1 => 0x4ad4 case 2 => 0x7ab7 case 3 => 0x6a96
    case 4 => 0x1a71 case 5 => 0x0a50 case 6 => 0x3a33 case 7 => 0x2a12
    case 8 => 0xdbfd case 9 => 0xcbdc case 10 => 0xfbbf case 11 => 0xeb9e
    case 12 => 0x9b79 case 13 => 0x8b58 case 14 => 0xbb3b case _ => 0xab1a
  }

  function TableRow6(l: bv16): (r: bv16)
    ensures l < 16 ==> r == Shift8(Nibbles(6, l))
  {
    match l
    case 0 => 0x6ca6 case 1 => 0x7c87 case 2 => 0x4ce4 case 3 => 0x5cc5
    case 4 => 0x2c22 case 5 => 0x3c03 case 6 => 0x0c60 case 7 => 0x1c41
    case 8 => 0xedae case 9 => 0xfd8f case 10 => 0xcdec case 11 => 0xddcd
    case 12 => 0xad2a case 13 => 0xbd0b case 14 => 0x8d68 case _ => 0x9d49
  }

  function TableRow7(l: bv16): (r: bv16)
    ensures l < 16 ==> r == Shift8(Nibbles(7, l))
  {
    match l
    case 0 => 0x7e97 case 1 => 0x6eb6 case 2 => 0x5ed5 case 3 => 0x4ef4
    case 4 => 0x3e13 case 5 => 0x2e32 case 6 => 0x1e51 case 7 => 0x0e70
    case 8 => 0xff9f case 9 => 0xefbe case 10 => 0xdfdd case 11 => 0xcffc
    case 12 => 0xbf1b case 13 => 0xaf3a case 14 => 0x9f59 case _ => 0x8f78
  }

  function TableRow8(l: bv16): (r: bv16)
    ensures l < 16 ==> r == Shift8(Nibbles(8, l))
  {
    match l
    case 0 => 0x9188 case 1 => 0x81a9 case 2 => 0xb1ca case 3 => 0xa1eb
    case 4 => 0xd10c case 5 => 0xc12d case 6 => 0xf14e case 7 => 0xe16f
    case 8 => 0x1080 case 9 => 0x00a1 case 10 => 0x30c2 case 11 => 0x20e3
    case 12 => 0x5004 case 13 => 0x4025 case 14 => 0x7046 case _ => 0x6067
  }

  function TableRow9(l: bv16): (r: bv16)
    ensures l < 16 ==> r == Shift8(Nibbles(9, l))
  {
    match l
    case 0 => 0x83b9 case 1 => 0x9398 case 2 => 0xa3fb case 3 => 0xb3da
    case 4 => 0xc33d case 5 => 0xd31c case 6 => 0xe37f case 7 => 0xf35e
    case 8 => 0x02b1 case 9 => 0x1290 case 10 => 0x22f3 case 11 => 0x32d2
    case 12 => 0x4235 case 13 => 0x5214 case 14 => 0x6277 case _ => 0x7256
  }

  function TableRowA(l: bv16): (r: bv16)
    ensures l < 16 ==> r == Shift8(Nibbles(10, l))
  {
    match l
    case 0 => 0xb5ea case 1 => 0xa5cb case 2 => 0x95a8 case 3 => 0x8589
    case 4 => 0xf56e case 5 => 0xe54f case 6 => 0xd52c case 7 => 0xc50d
    case 8 => 0x34e2 case 9 => 0x24c3 case 10 => 0x14a0 case 11 => 0x0481
    case 12 => 0x7466 case 13 => 0x6447 case 14 => 0x5424 case _ => 0x4405
  }

  function TableRowB(l: bv16): (r: bv16)
    ensures l < 16 ==> r == Shift8(Nibbles(11, l))
  {
    match l
    case 0 => 0xa7db case 1 => 0xb7fa case 2 => 0x8799 case 3 => 0x97b8
    case 4 => 0xe75f case 5 => 0xf77e case 6 => 0xc71d case 7 => 0xd73c
    case 8 => 0x26d3 case 9 => 0x36f2 case 10 => 0x0691 case 11 => 0x16b0
    case 12 => 0x6657 case 13 => 0x7676 case 14 => 0x4615 case _ => 0x5634
  }

  function TableRowC(l: bv16): (r: bv16)
    ensures l < 16 ==> r == Shift8(Nibbles(12, l))
  {
    match l
    case 0 => 0xd94c case 1 => 0xc96d case 2 => 0xf90e case 3 => 0xe92f
    case 4 => 0x99c8 case 5 => 0x89e9 case 6 => 0xb98a case 7 => 0xa9ab
    case 8 => 0x5844 case 9 => 0x4865 case 10 => 0x7806 case 11 => 0x6827
    case 12 => 0x18c0 case 13 => 0x08e1 case 14 => 0x3882 case _ => 0x28a3
  }

  function TableRowD(l: bv16): (r: bv16)
    ensures l < 16 ==> r == Shift8(Nibbles(13, l))
  {
    match l
    case 0 => 0xcb7d case 1 => 0xdb5c case 2 => 0xeb3f case 3 => 0xfb1e
    case 4 => 0x8bf9 case 5 => 0x9bd8 case 6 => 0xabbb case 7 => 0xbb9a
    case 8 => 0x4a75 case 9 => 0x5a54 case 10 => 0x6a37 case 11 => 0x7a16
    case 12 => 0x0af1 case 13 => 0x1ad0 case 14 => 0x2ab3 case _ => 0x3a92
  }

  function TableRowE(l: bv16): (r: bv16)
    ensures l < 16 ==> r == Shift8(Nibbles(14, l))
  {
    match l
    case 0 => 0xfd2e case 1 => 0xed0f case 2 => 0xdd6c case 3 => 0xcd4d
    case 4 => 0xbdaa case 5 => 0xad8b case 6 => 0x9de8 case 7 => 0x8dc9
    case 8 => 0x7c26 case 9 => 0x6c07 case 10 => 0x5c64 case 11 => 0x4c45
    case 12 => 0x3ca2 case 13 => 0x2c83 case 14 => 0x1ce0 case _ => 0x0cc1
  }

  function TableRowF(l: bv16): (r: bv16)
    ensures l < 16 ==> r == Shift8(Nibbles(15, l))
  {
    match l
    case 0 => 0xef1f case 1 => 0xff3e case 2 => 0xcf5d case 3 => 0xdf7c
    case 4 => 0xaf9b case 5 => 0xbfba case 6 => 0x8fd9 case 7 => 0x9ff8
    case 8 => 0x6e17 case 9 => 0x7e36 case 10 => 0x4e55 case 11 => 0x5e74
    case 12 => 0x2e93 case 13 => 0x3eb2 case 14 => 0x0ed1 case _ => 0x1ef0
  }

  function TableRow(h: bv16, l: bv16): bv16 {
    match h
    case 0 => TableRow0(l) case 1 => TableRow1(l) case 2 => TableRow2(l) case 3 => TableRow3(l)
    
    case 4 => TableRow4(l) case 5 => TableRow5(l) case 6 => TableRow6(l) case 7 => TableRow7(l)
    case 8 => TableRow8(l) case 9 => TableRow9(l) case 10 => TableRowA(l) case 11 => TableRowB(l)
    
    case 12 => TableRowC(l) case 13 => TableRowD(l) case 14 => TableRowE(l) case _ => TableRowF(l)
  }

  function CrcTable(i: bv16): bv16
    requires i < 256
  {
    TableRow(i >> 4, i & 15)
  }

  lemma TableRowCorrect(h: bv16, l: bv16)
    requires h < 16 && l < 16
    ensures TableRow(h, l) == Shift8(Nibbles(h, l))
  {
    hide Nibbles, Shift8;
    hide TableRow0, TableRow1, TableRow2, TableRow3, TableRow4, TableRow5, TableRow6, TableRow7;
    hide TableRow8, TableRow9, TableRowA, TableRowB, TableRowC, TableRowD, TableRowE, TableRowF;
  }

  /** All 256 entries hold the remainder of their index shifted up by 16 bits. */
  lemma TableCorrect(i: bv16)
    requires i < 256
    ensures CrcTable(i) == Shift8(Up8(i))
  {
    hide TableRow, Shift8;
    TableRowCorrect(i >> 4, i & 15);
    assert i << 8 == ((i >> 4) << 12) | ((i & 15) << 8);
  }

  // ---------- Shifting is linear ----------

  lemma XorAlgebra(a: bv16, b: bv16, c: bv16)
    ensures a ^ b == b ^ a && (a ^ b) ^ c == a ^ (b ^ c)
    ensures (a ^ b) ^ b == a && a ^ a == 0 && a ^ 0 == a
    ensures (a ^ b) << 1 == (a << 1) ^ (b << 1)
    ensures ((a ^ b) & 0x8000 != 0) == ((a & 0x8000 != 0) != (b & 0x8000 != 0))
  {}

  lemma PlusAlgebra(a: bv16, b: bv16, c: bv16)
    ensures Plus(a, b) == Plus(b, a)
    ensures Plus(Plus(a, b), c) == Plus(a, Plus(b, c))
    ensures Plus(Plus(a, b), b) == a && Plus(a, a) == 0 && Plus(a, 0) == a
  {
    XorAlgebra(a, b, c);
  }

  lemma UpPlus(a: bv16, b: bv16)
    ensures Up(Plus(a, b)) == Plus(Up(a), Up(b))
    ensures Top(Plus(a, b)) == (Top(a) != Top(b))
  {
    XorAlgebra(a, b, 0);
  }

  lemma PolyOnce(a: bv16, b: bv16)
    ensures Plus(Plus(a, POLY), Plus(b, POLY)) == Plus(a, b)
    ensures Plus(Plus(a, POLY), b) == Plus(Plus(a, b), POLY)
    ensures Plus(a, Plus(b, POLY)) == Plus(Plus(a, b), POLY)
  {
    hide Plus;
    PlusAlgebra(a, b, POLY);
    PlusAlgebra(a, POLY, b);
    PlusAlgebra(b, POLY, 0);
    PlusAlgebra(a, POLY, Plus(b, POLY));
    PlusAlgebra(Plus(b, POLY), POLY, 0);
  }

  lemma ShiftBitLinear(x: bv16, y: bv16)
    ensures ShiftBit(Plus(x, y)) == Plus(ShiftBit(x), ShiftBit(y))
  {
    hide Plus, Up, Top;
    UpPlus(x, y);
    PolyOnce(Up(x), Up(y));
  }

  lemma {:induction false} ShiftBitsLinear(x: bv16, y: bv16, n: nat)
    ensures ShiftBits(Plus(x, y), n) == Plus(ShiftBits(x, n), ShiftBits(y, n))
  {
    hide Plus, ShiftBit;
    if n > 0 {
      ShiftBitsLinear(x, y, n - 1);
      ShiftBitLinear(ShiftBits(x, n - 1), ShiftBits(y, n - 1));
    }
  }

  lemma EightShifts(x: bv16)
    ensures ShiftBits(x, 8) == Shift8(x)
  {
    hide ShiftBit;
    assert ShiftBits(x, 2) == ShiftBit(ShiftBits(x, 1)) && ShiftBits(x, 1) == ShiftBit(x);
    assert ShiftBits(x, 4) == ShiftBit(ShiftBit(ShiftBits(x, 2)));
    assert ShiftBits(x, 6) == ShiftBit(ShiftBit(ShiftBits(x, 4)));
  }

  lemma Shift8Linear(x: bv16, y: bv16)
    ensures Shift8(Plus(x, y)) == Plus(Shift8(x), Shift8(y))
  {
    hide Plus, Shift8, ShiftBits;
    EightShifts(x);
    EightShifts(y);
    EightShifts(Plus(x, y));
    ShiftBitsLinear(x, y, 8);
  }

  /** A byte in the low half is moved up untouched: nothing reaches the top bit. */
  lemma ShiftLow(x: bv16)
    requires x < 256
    ensures Shift8(x) == Up8(x)
  {}

  /** In the low byte of Shift8 every change of the high byte is still visible. */
  lemma ShiftHigh(d: bv16)
    requires d & 0xFF == 0 && Shift8(d) & 0xFF == 0
    ensures d == 0
  {}

  // ---------- The two forms of Crc16CalcBlock ----------

  method TableCrc(msg: seq<bv8>, start: bv16 := CRC_START) returns (crc: bv16)
    ensures crc == Crc(msg, start)
  {
    hide CrcTable, Plus, Up8, Index, FeedByte;
    crc := start;
    var p := 0;
    while p < |msg|
      invariant 0 <= p <= |msg|
      invariant crc == Crc(msg[..p], start)
    {
      TableStep(crc, msg[p]);
      crc := Plus(Up8(crc), CrcTable(Index(crc, msg[p])));
      assert msg[..p + 1][..p] == msg[..p];
      p := p + 1;
    }
    assert msg[..p] == msg;
  }

  lemma TableStep(crc: bv16, b: bv8)
    ensures Index(crc, b) < 256
    ensures Plus(Up8(crc), CrcTable(Index(crc, b))) == FeedByte(crc, b)
  {
    hide CrcTable, Plus, High, Up8, Low, Index, Shift8;
    SplitRegister(crc, b);
    TableCorrect(Index(crc, b));
    Shift8Linear(Low(crc), Up8(Index(crc, b)));
    ShiftLow(Low(crc));
  }

  lemma SplitBits(crc: bv16, b: bv8)
    ensures (crc >> 8) ^ (b as bv16) < 256 && crc & 0xFF < 256
    ensures crc ^ ((b as bv16) << 8) == (crc & 0xFF) ^ (((crc >> 8) ^ (b as bv16)) << 8)
    ensures (crc & 0xFF) << 8 == crc << 8
  {}

  lemma SplitSum(crc: bv16, b: bv8)
    ensures Plus(crc, High(b)) == Plus(Low(crc), Up8(Index(crc, b)))
  {
    SplitBits(crc, b);
  }

  lemma SplitRegister(crc: bv16, b: bv8)
    ensures Index(crc, b) < 256 && Low(crc) < 256
    ensures Plus(crc, High(b)) == Plus(Low(crc), Up8(Index(crc, b)))
    ensures Up8(Low(crc)) == Up8(crc)
  {
    hide Plus, High;
    SplitSum(crc, b);
    SplitBits(crc, b);
  }

  method LoopCrc(msg: seq<bv8>, start: bv16 := CRC_START) returns (crc: bv16)
    ensures crc == Crc(msg, start)
  {
    hide Plus, Up, Top, High, ShiftBit, Shift8;
    crc := start;
    var p := 0;
    while p < |msg|
      invariant 0 <= p <= |msg|
      invariant crc == Crc(msg[..p], start)
    {
      var data := High(msg[p]);
      ghost var x := Plus(crc, data);
      var i := 8;
      while i > 0
        invariant 0 <= i <= 8
        invariant Plus(crc, data) == ShiftBits(x, 8 - i)
        invariant data == ShiftOut(High(msg[p]), 8 - i)
      {
        ShiftBoth(crc, data);
        if Top(Plus(data, crc)) {
          crc := Plus(Up(crc), POLY);
        } else {
          crc := Up(crc);
        }
        data := Up(data);
        i := i - 1;
      }
      EightShifts(x);
      ByteShiftedOut(msg[p]);
      PlusAlgebra(crc, data, data);
      assert msg[..p + 1][..p] == msg[..p];
      p := p + 1;
    }
    assert msg[..p] == msg;
  }

  lemma ByteShiftedOut(b: bv8)
    ensures ShiftOut(High(b), 8) == 0
  {
    var d := High(b);
    assert ShiftOut(d, 2) == ShiftOut(d, 1) << 1 && ShiftOut(d, 1) == d << 1;
    assert ShiftOut(d, 4) == ShiftOut(d, 2) << 2;
    assert ShiftOut(d, 6) == ShiftOut(d, 4) << 2;
  }

  lemma ShiftBoth(crc: bv16, data: bv16)
    ensures ShiftBit(Plus(crc, data))
         == Plus(if Top(Plus(data, crc)) then Plus(Up(crc), POLY) else Up(crc), Up(data))
  {
    hide Plus, Up, Top;
    UpPlus(crc, data);
    PolyOnce(Up(crc), Up(data));
    PlusAlgebra(crc, data, 0);
  }

  // ---------- What the CRC promises ----------

  /** A message may be fed in pieces, the CRC of one piece starting the next. */
  lemma {:induction false} Compose(a: seq<bv8>, b: seq<bv8>, start: bv16)
    ensures Crc(a + b, start) == Crc(b, Crc(a, start))
  {
    hide FeedByte;
    if b == [] {
      assert a + b == a;
    } else {
      var m := a + b;
      assert m[..|m| - 1] == a + b[..|b| - 1];
      Compose(a, b[..|b| - 1], start);
    }
  }

  lemma OneByte(b: bv8, start: bv16)
    ensures Crc([b], start) == FeedByte(start, b)
  {
    hide FeedByte;
    assert [b][..0] == [];
  }

  lemma TwoBytes(x: bv8, y: bv8, start: bv16)
    ensures Crc([x, y], start) == FeedByte(FeedByte(start, x), y)
  {
    hide FeedByte;
    OneByte(x, start);
    assert [x, y][..1] == [x];
  }

  function WithCrc(msg: seq<bv8>, start: bv16): seq<bv8> {
    var c := Crc(msg, start);
    msg + [(c >> 8) as bv8, (c & 0xFF) as bv8]
  }

  /** A message followed by its own CRC, high byte first, has CRC 0. */
  lemma SelfCheck(msg: seq<bv8>, start: bv16)
    ensures Crc(WithCrc(msg, start), start) == 0
  {
    hide Crc, FeedByte;
    var c := Crc(msg, start);
    var hi, lo := (c >> 8) as bv8, (c & 0xFF) as bv8;
    Compose(msg, [hi, lo], start);
    TwoBytes(hi, lo, c);
    FeedOwnBytes(c);
  }

  lemma FeedOwnBytes(c: bv16)
    ensures FeedByte(FeedByte(c, (c >> 8) as bv8), (c & 0xFF) as bv8) == 0
  {
    hide Shift8;
    var hi, lo := (c >> 8) as bv8, (c & 0xFF) as bv8;
    assert Plus(c, High(hi)) == c & 0xFF;
    ShiftLow(c & 0xFF);
    assert Plus((c & 0xFF) << 8, High(lo)) == 0;
    ShiftLow(0);
  }

  /** Undoes one shift: the constant term of the generator tells what was shifted out. */
  function UnshiftBit(crc: bv16): bv16 {
    if crc & 1 != 0 then ((crc ^ POLY) >> 1) | 0x8000 else crc >> 1
  }

  lemma UnshiftTop(x: bv16)
    requires x & 0x8000 != 0
    ensures ((x << 1) ^ POLY) & 1 != 0 && ((((x << 1) ^ POLY) ^ POLY) >> 1) | 0x8000 == x
  {}

  lemma UnshiftLow(x: bv16)
    requires x & 0x8000 == 0
    ensures (x << 1) & 1 == 0 && (x << 1) >> 1 == x
  {}

  lemma UnshiftCarry(x: bv16)
    requires Top(x)
    ensures UnshiftBit(Plus(Up(x), POLY)) == x
  {
    UnshiftTop(x);
  }

  lemma UnshiftNoCarry(x: bv16)
    requires !Top(x)
    ensures UnshiftBit(Up(x)) == x
  {
    UnshiftLow(x);
  }

  lemma ShiftBitInvertible(x: bv16)
    ensures UnshiftBit(ShiftBit(x)) == x
  {
    hide UnshiftBit, Top, Up, Plus;
    if Top(x) {
      UnshiftCarry(x);
    } else {
      UnshiftNoCarry(x);
    }
  }

  lemma {:induction false} ShiftBitsInjective(x: bv16, y: bv16, n: nat)
    requires ShiftBits(x, n) == ShiftBits(y, n)
    ensures x == y
  {
    hide ShiftBit, UnshiftBit;
    if n > 0 {
      ShiftBitInvertible(ShiftBits(x, n - 1));
      ShiftBitInvertible(ShiftBits(y, n - 1));
      ShiftBitsInjective(x, y, n - 1);
    }
  }

  lemma Shift8Injective(x: bv16, y: bv16)
    requires Shift8(x) == Shift8(y)
    ensures x == y
  {
    hide Shift8, ShiftBits;
    EightShifts(x);
    EightShifts(y);
    ShiftBitsInjective(x, y, 8);
  }

  /** For a fixed byte the CRC register is permuted; for a fixed register the byte can be read back. */
  lemma FeedByteInjective(c1: bv16, b1: bv8, c2: bv16, b2: bv8)
    ensures b1 == b2 && FeedByte(c1, b1) == FeedByte(c2, b2) ==> c1 == c2
    ensures c1 == c2 && FeedByte(c1, b1) == FeedByte(c2, b2) ==> b1 == b2
  {
    hide Plus, High, Shift8;
    if FeedByte(c1, b1) == FeedByte(c2, b2) {
      Shift8Injective(Plus(c1, High(b1)), Plus(c2, High(b2)));
      PlusAlgebra(c1, High(b1), 0);
      PlusAlgebra(c2, High(b2), 0);
      SameBytes(c1, b1, b2);
    }
  }

  /** Equal tails never make two different CRCs meet again. */
  lemma {:induction false} TailKeepsDifference(c1: bv16, c2: bv16, tail: seq<bv8>)
    ensures Crc(tail, c1) == Crc(tail, c2) <==> c1 == c2
  {
    hide FeedByte;
    if tail != [] {
      var front, b := tail[..|tail| - 1], tail[|tail| - 1];
      TailKeepsDifference(c1, c2, front);
      FeedByteInjective(Crc(front, c1), b, Crc(front, c2), b);
    }
  }

  /** Two messages of one length that differ only inside a window of two adjacent bytes share a CRC
      only when they are the same message. */
  lemma BurstDetected(head: seq<bv8>, x1: bv8, y1: bv8, x2: bv8, y2: bv8, tail: seq<bv8>, start: bv16)
    ensures Crc(head + [x1, y1] + tail, start) == Crc(head + [x2, y2] + tail, start)
       <==> x1 == x2 && y1 == y2
  {
    hide Crc, FeedByte;
    var c := Crc(head, start);
    Compose(head, [x1, y1], start);
    Compose(head, [x2, y2], start);
    Compose(head + [x1, y1], tail, start);
    Compose(head + [x2, y2], tail, start);
    TailKeepsDifference(Crc([x1, y1], c), Crc([x2, y2], c), tail);
    TwoBytes(x1, y1, c);
    TwoBytes(x2, y2, c);
    WindowInjective(c, x1, y1, x2, y2);
  }

  lemma WindowInjective(c: bv16, x1: bv8, y1: bv8, x2: bv8, y2: bv8)
    ensures FeedByte(FeedByte(c, x1), y1) == FeedByte(FeedByte(c, x2), y2) <==> x1 == x2 && y1 == y2
  {
    hide Plus, High, Shift8;
    var u1, u2 := Plus(c, High(x1)), Plus(c, High(x2));
    if FeedByte(FeedByte(c, x1), y1) == FeedByte(FeedByte(c, x2), y2) {
      Shift8Injective(Plus(Shift8(u1), High(y1)), Plus(Shift8(u2), High(y2)));
      Shift8Linear(u1, u2);
      XorMoves(Shift8(u1), y1, Shift8(u2), y2);
      SameBytes(c, x1, x2);
      ShiftHigh(Plus(u1, u2));
      SameBytes(Shift8(u1), y1, y2);
    }
  }

  lemma XorMoves(s1: bv16, y1: bv8, s2: bv16, y2: bv8)
    requires Plus(s1, High(y1)) == Plus(s2, High(y2))
    ensures Plus(s1, s2) & 0xFF == 0
  {
    assert s1 & 0xFF == Plus(s1, High(y1)) & 0xFF;
    assert s2 & 0xFF == Plus(s2, High(y2)) & 0xFF;
  }

  lemma ByteBelow(b1: bv8, b2: bv8)
    ensures (((b1 as bv16) << 8) ^ ((b2 as bv16) << 8)) & 0xFF == 0
    ensures ((b1 as bv16) << 8) ^ ((b2 as bv16) << 8) == 0 ==> b1 == b2
  {}

  lemma BytesApart(b1: bv8, b2: bv8)
    ensures Plus(High(b1), High(b2)) & 0xFF == 0
    ensures Plus(High(b1), High(b2)) == 0 ==> b1 == b2
  {
    ByteBelow(b1, b2);
  }

  lemma SumOfSums(c: bv16, a: bv16, b: bv16)
    ensures Plus(Plus(c, a), Plus(c, b)) == Plus(a, b)
    ensures Plus(c, a) == Plus(c, b) ==> Plus(a, b) == 0
  {
    PlusAlgebra(c, a, Plus(c, b));
    PlusAlgebra(c, b, a);
    PlusAlgebra(Plus(c, a), c, b);
    PlusAlgebra(a, c, b);
    PlusAlgebra(c, c, b);
    hide Plus;
  }

  lemma SameBytes(c: bv16, b1: bv8, b2: bv8)
    ensures Plus(c, High(b1)) == Plus(c, High(b2)) ==> b1 == b2
    ensures Plus(Plus(c, High(b1)), Plus(c, High(b2))) == Plus(High(b1), High(b2))
    ensures Plus(High(b1), High(b2)) & 0xFF == 0
    ensures Plus(High(b1), High(b2)) == 0 ==> b1 == b2
  {
    BytesApart(b1, b2);
    SumOfSums(c, High(b1), High(b2));
    hide Plus, High;
  }

  /** The one-byte case, stated on whole messages. */
  lemma OneByteErrorDetected(m1: seq<bv8>, m2: seq<bv8>, k: nat, start: bv16)
    requires |m1| == |m2| && k < |m1| && m1[k] != m2[k]
    requires forall i | 0 <= i < |m1| && i != k :: m1[i] == m2[i]
    ensures Crc(m1, start) != Crc(m2, start)
  {
    hide Crc, FeedByte;
    var head, tail := m1[..k], m1[k + 1..];
    assert m1 == head + [m1[k]] + tail;
    assert m2 == head + [m2[k]] + tail;
    var c := Crc(head, start);
    Compose(head + [m1[k]], tail, start);
    Compose(head + [m2[k]], tail, start);
    Compose(head, [m1[k]], start);
    Compose(head, [m2[k]], start);
    OneByte(m1[k], c);
    OneByte(m2[k], c);
    FeedByteInjective(c, m1[k], c, m2[k]);
    TailKeepsDifference(FeedByte(c, m1[k]), FeedByte(c, m2[k]), tail);
  }

  // ---------- The CRC is the remainder of a polynomial division over GF(2) ----------

  function Xor(a: bool, b: bool): bool { a != b }

  /** Coefficient of x^k of the polynomial held in a 16-bit register. */
  function Bit(w: bv16, k: int): bool {
    0 <= k < 16 && Top(ShiftOut(w, 15 - k))
  }

  function ByteBits(b: bv8): seq<bool> {
    [b & 0x80 != 0, b & 0x40 != 0, b & 0x20 != 0, b & 0x10 != 0,
     b & 0x08 != 0, b & 0x04 != 0, b & 0x02 != 0, b & 0x01 != 0]
  }

  /** The bits of a message in the order they are sent, most significant bit of each byte first. */
  function MessageBits(msg: seq<bv8>): seq<bool> {
    if msg == [] then [] else MessageBits(msg[..|msg| - 1]) + ByteBits(msg[|msg| - 1])
  }

  /** Coefficient of x^k of a polynomial given from its highest coefficient down. */
  ghost function Coef(p: seq<bool>, k: int): bool {
    0 <= k < |p| && p[|p| - 1 - k]
  }

  /** Coefficient of x^k of q * (x^16 + x^12 + x^5 + 1). */
  ghost function TimesGenerator(q: seq<bool>, k: int): bool {
    Xor(Xor(Coef(q, k - 16), Coef(q, k - 12)), Xor(Coef(q, k - 5), Coef(q, k)))
  }

  /** Coefficient of x^k of message * x^16 + start * x^|message|. */
  ghost function Dividend(bits: seq<bool>, start: bv16, k: int): bool {
    Xor(Coef(bits, k - 16), Bit(start, k - |bits|))
  }

  /** The dividend is quotient * generator + remainder, coefficient by coefficient. */
  ghost predicate Divides(bits: seq<bool>, start: bv16, quotient: seq<bool>, remainder: bv16) {
    forall k: int :: Dividend(bits, start, k) == Xor(TimesGenerator(quotient, k), Bit(remainder, k))
  }

  function FeedBit(crc: bv16, bit: bool): bv16 {
    if Bit(crc, 15) != bit then Plus(Up(crc), POLY) else Up(crc)
  }

  lemma CoefAppend(p: seq<bool>, bit: bool, k: int)
    ensures Coef(p + [bit], k) == Xor(Coef(p, k - 1), k == 0 && bit)
  {}

  lemma {:induction false} ShiftOutUp(w: bv16, n: nat)
    ensures ShiftOut(Up(w), n) == Up(ShiftOut(w, n))
  {
    hide Up;
    if n > 0 {
      ShiftOutUp(w, n - 1);
    }
  }

  lemma {:induction false} ShiftOutPlus(a: bv16, b: bv16, n: nat)
    ensures ShiftOut(Plus(a, b), n) == Plus(ShiftOut(a, n), ShiftOut(b, n))
  {
    hide Plus, Up, Top;
    if n > 0 {
      ShiftOutPlus(a, b, n - 1);
      UpPlus(ShiftOut(a, n - 1), ShiftOut(b, n - 1));
    }
  }

  lemma FourShifts(a: bv16, n: nat)
    ensures ShiftOut(a, n + 4) == ShiftOut(a, n) << 4
  {
    hide Up;
    assert ShiftOut(a, n + 2) == Up(Up(ShiftOut(a, n)));
    FourUps(ShiftOut(a, n));
  }

  lemma FourUps(b: bv16)
    ensures Up(Up(Up(Up(b)))) == b << 4
  {
    assert (((b << 1) << 1) << 1) << 1 == b << 4;
  }

  lemma AllShiftedOut(a: bv16)
    ensures ShiftOut(a, 16) == 0
  {
    FourShifts(a, 0);
    FourShifts(a, 4);
    FourShifts(a, 8);
    FourShifts(a, 12);
    assert (((a << 4) << 4) << 4) << 4 == 0;
  }

  lemma BitOfShift(w: bv16, k: int)
    ensures Bit(Up(w), k) == (k < 16 && Bit(w, k - 1))
  {
    hide Up, Top;
    if 0 < k < 16 {
      ShiftOutUp(w, 15 - k);
    } else if k == 0 {
      SixteenShifts(w);
    }
  }

  lemma SixteenShifts(w: bv16)
    ensures !Top(ShiftOut(Up(w), 15))
  {
    hide Up;
    ShiftOutUp(w, 15);
    AllShiftedOut(w);
    assert ShiftOut(w, 16) == Up(ShiftOut(w, 15));
    assert 0 & 0x8000 == 0 as bv16;
  }

  lemma BitOfPoly(w: bv16, k: int)
    ensures Bit(Plus(w, POLY), k) == Xor(Bit(w, k), k == 12 || k == 5 || k == 0)
  {
    hide Plus, Top, ShiftOut;
    if 0 <= k < 16 {
      ShiftOutPlus(w, POLY, 15 - k);
      UpPlus(ShiftOut(w, 15 - k), ShiftOut(POLY, 15 - k));
      BitsOfPoly(15 - k);
    }
  }

  lemma BitsOfPoly(n: nat)
    requires n < 16
    ensures Top(ShiftOut(POLY, n)) == (n == 3 || n == 10 || n == 15)
  {
    assert ShiftOut(POLY, 0) == 0x1021 && ShiftOut(POLY, 1) == 0x2042
        && ShiftOut(POLY, 2) == 0x4084 && ShiftOut(POLY, 3) == 0x8108;
    assert ShiftOut(POLY, 4) == 0x0210 && ShiftOut(POLY, 5) == 0x0420
        && ShiftOut(POLY, 6) == 0x0840 && ShiftOut(POLY, 7) == 0x1080;
    assert ShiftOut(POLY, 8) == 0x2100 && ShiftOut(POLY, 9) == 0x4200
        && ShiftOut(POLY, 10) == 0x8400 && ShiftOut(POLY, 11) == 0x0800;
    assert ShiftOut(POLY, 12) == 0x1000 && ShiftOut(POLY, 13) == 0x2000
        && ShiftOut(POLY, 14) == 0x4000 && ShiftOut(POLY, 15) == 0x8000;
  }

  /** The bit that leaves the register when another one is fed. */
  function Carry(crc: bv16, bit: bool): bool {
    Xor(Bit(crc, 15), bit)
  }

  lemma FeedBitAt(crc: bv16, bit: bool, k: int)
    ensures Bit(FeedBit(crc, bit), k)
         == Xor(k < 16 && Bit(crc, k - 1), Carry(crc, bit) && (k == 12 || k == 5 || k == 0))
  {
    hide Plus, Up, Bit;
    BitOfShift(crc, k);
    BitOfPoly(Up(crc), k);
  }

  lemma QuotientGrows(q: seq<bool>, t: bool, k: int)
    ensures TimesGenerator(q + [t], k)
         == Xor(TimesGenerator(q, k - 1), t && (k == 16 || k == 12 || k == 5 || k == 0))
  {
    hide Coef;
    CoefAppend(q, t, k - 16);
    CoefAppend(q, t, k - 12);
    CoefAppend(q, t, k - 5);
    CoefAppend(q, t, k);
  }

  lemma MessageGrows(bits: seq<bool>, start: bv16, bit: bool, k: int)
    ensures Dividend(bits + [bit], start, k) == Xor(Dividend(bits, start, k - 1), bit && k == 16)
  {
    hide Coef, Bit;
    CoefAppend(bits, bit, k - 16);
    assert k - 1 - |bits| == k - |bits + [bit]|;
  }

  /** Feeding one more bit keeps the division: the quotient grows by the bit that was shifted out. */
  lemma DivideStep(bits: seq<bool>, start: bv16, q: seq<bool>, crc: bv16, bit: bool)
    requires Divides(bits, start, q, crc)
    ensures Divides(bits + [bit], start, q + [Carry(crc, bit)], FeedBit(crc, bit))
  {
    hide Dividend, TimesGenerator, Bit, FeedBit;
    forall k: int
      ensures Dividend(bits + [bit], start, k)
           == Xor(TimesGenerator(q + [Carry(crc, bit)], k), Bit(FeedBit(crc, bit), k))
    {
      assert Dividend(bits, start, k - 1) == Xor(TimesGenerator(q, k - 1), Bit(crc, k - 1));
      MessageGrows(bits, start, bit, k);
      QuotientGrows(q, Carry(crc, bit), k);
      FeedBitAt(crc, bit, k);
      BitRange(crc, k - 1);
    }
  }

  lemma BitRange(w: bv16, k: int)
    ensures Bit(w, k) ==> 0 <= k < 16
  {}

  function FeedAll(crc: bv16, bits: seq<bool>): bv16 {
    if bits == [] then crc else FeedBit(FeedAll(crc, bits[..|bits| - 1]), bits[|bits| - 1])
  }

  lemma {:induction false} DivideAll(start: bv16, bits: seq<bool>) returns (q: seq<bool>)
    ensures |q| == |bits| && Divides(bits, start, q, FeedAll(start, bits))
  {
    hide Divides, Carry, FeedBit;
    if bits == [] {
      q := [];
      DivideNothing(start);
    } else {
      var front, bit := bits[..|bits| - 1], bits[|bits| - 1];
      q := DivideAll(start, front);
      DivideStep(front, start, q, FeedAll(start, front), bit);
      assert front + [bit] == bits;
      q := q + [Carry(FeedAll(start, front), bit)];
    }
  }

  lemma DivideNothing(start: bv16)
    ensures Divides([], start, [], start)
  {
    hide Bit;
  }

  // Feeding a byte is feeding its eight bits.

  /** The first n bits that leave the top of a register. */
  ghost function TopBits(data: bv16, n: nat): seq<bool> {
    if n == 0 then [] else TopBits(data, n - 1) + [Top(ShiftOut(data, n - 1))]
  }

  lemma {:induction false} TopBitsAt(data: bv16, n: nat)
    ensures |TopBits(data, n)| == n
    ensures forall i | 0 <= i < n :: TopBits(data, n)[i] == Top(ShiftOut(data, i))
  {
    hide Top, ShiftOut;
    if n > 0 {
      TopBitsAt(data, n - 1);
    }
  }

  lemma ByteBitsAreTopBits(b: bv8)
    ensures ByteBits(b) == TopBits(High(b), 8)
  {
    hide ByteBits, High, Top, TopBits, ShiftOut;
    TopBitsAt(High(b), 8);
    ByteBitAt(b, 0);
    forall i | 0 <= i < 8
      ensures ByteBits(b)[i] == TopBits(High(b), 8)[i]
    {
      ByteBitAt(b, i);
    }
  }

  lemma ByteMasks(b: bv8)
    ensures var d := (b as bv16) << 8;
            && (d & 0x8000 != 0) == (b & 0x80 != 0) && ((d << 1) & 0x8000 != 0) == (b & 0x40 != 0)
            && ((d << 2) & 0x8000 != 0) == (b & 0x20 != 0) && ((d << 3) & 0x8000 != 0) == (b & 0x10 != 0)
            && ((d << 4) & 0x8000 != 0) == (b & 0x08 != 0) && ((d << 5) & 0x8000 != 0) == (b & 0x04 != 0)
            && ((d << 6) & 0x8000 != 0) == (b & 0x02 != 0) && ((d << 7) & 0x8000 != 0) == (b & 0x01 != 0)
  {}

  lemma ThreeShifts(d: bv16, n: nat)
    requires n <= 4 && (n == 0 || ShiftOut(d, 4) == d << 4)
    ensures n == 0 ==> ShiftOut(d, 1) == d << 1 && ShiftOut(d, 2) == d << 2 && ShiftOut(d, 3) == d << 3
    ensures n == 4 ==> ShiftOut(d, 5) == d << 5 && ShiftOut(d, 6) == d << 6 && ShiftOut(d, 7) == d << 7
  {}

  lemma ByteBitAt(b: bv8, i: nat)
    requires i < 8
    ensures |ByteBits(b)| == 8 && ByteBits(b)[i] == Top(ShiftOut(High(b), i))
  {
    hide Up, ShiftOut;
    var d := High(b);
    assert ShiftOut(d, 0) == d by { ShiftOutZero(d); }
    FourShifts(d, 0);
    ThreeShifts(d, 0);
    ThreeShifts(d, 4);
    ByteMasks(b);
  }

  lemma ShiftOutZero(d: bv16)
    ensures ShiftOut(d, 0) == d
  {}

  lemma {:induction false} FeedTopBits(crc: bv16, data: bv16, n: nat)
    ensures Plus(FeedAll(crc, TopBits(data, n)), ShiftOut(data, n)) == ShiftBits(Plus(crc, data), n)
  {
    hide Plus, Up, Top, ShiftBit;
    if n > 0 {
      FeedTopBits(crc, data, n - 1);
      var c, d, bits := FeedAll(crc, TopBits(data, n - 1)), ShiftOut(data, n - 1), TopBits(data, n);
      assert bits[..|bits| - 1] == TopBits(data, n - 1);
      ShiftBoth(c, d);
      UpPlus(d, c);
      assert Bit(c, 15) == Top(ShiftOut(c, 0));
    }
  }

  lemma FeedByteBits(crc: bv16, b: bv8)
    ensures FeedAll(crc, ByteBits(b)) == FeedByte(crc, b)
  {
    hide Plus, High, ByteBits, TopBits, ShiftOut, ShiftBits, Shift8, FeedAll;
    ByteBitsAreTopBits(b);
    FeedTopBits(crc, High(b), 8);
    EightShifts(Plus(crc, High(b)));
    ByteShiftedOut(b);
    PlusAlgebra(FeedAll(crc, ByteBits(b)), 0, 0);
  }

  lemma {:induction false} FeedAllConcat(crc: bv16, a: seq<bool>, b: seq<bool>)
    ensures FeedAll(crc, a + b) == FeedAll(FeedAll(crc, a), b)
  {
    hide FeedBit;
    if b == [] {
      assert a + b == a;
    } else {
      assert (a + b)[..|a + b| - 1] == a + b[..|b| - 1];
      FeedAllConcat(crc, a, b[..|b| - 1]);
    }
  }

  lemma {:induction false} FeedMessage(msg: seq<bv8>, start: bv16)
    ensures FeedAll(start, MessageBits(msg)) == Crc(msg, start)
  {
    hide ByteBits, FeedBit, FeedByte;
    if msg != [] {
      var front, b := msg[..|msg| - 1], msg[|msg| - 1];
      FeedMessage(front, start);
      FeedAllConcat(start, MessageBits(front), ByteBits(b));
      FeedByteBits(Crc(front, start), b);
    }
  }

  // A generator of degree 16 leaves only one remainder of lower degree.

  lemma {:induction false} QuotientUnique(
      bits: seq<bool>, start: bv16, q1: seq<bool>, r1: bv16, q2: seq<bool>, r2: bv16, k: int)
    requires Divides(bits, start, q1, r1) && Divides(bits, start, q2, r2)
    ensures Coef(q1, k) == Coef(q2, k)
    decreases |q1| + |q2| - k
  {
    hide Bit, Dividend;
    if 0 <= k < |q1| + |q2| {
      QuotientUnique(bits, start, q1, r1, q2, r2, k + 4);
      QuotientUnique(bits, start, q1, r1, q2, r2, k + 11);
      QuotientUnique(bits, start, q1, r1, q2, r2, k + 16);
      BitRange(r1, k + 16);
      BitRange(r2, k + 16);
      assert Dividend(bits, start, k + 16) == Xor(TimesGenerator(q1, k + 16), Bit(r1, k + 16));
      assert Dividend(bits, start, k + 16) == Xor(TimesGenerator(q2, k + 16), Bit(r2, k + 16));
      assert k + 16 - 16 == k && k + 16 - 12 == k + 4 && k + 16 - 5 == k + 11;
    }
  }

  lemma RemainderUnique(bits: seq<bool>, start: bv16, q1: seq<bool>, r1: bv16, q2: seq<bool>, r2: bv16)
    requires Divides(bits, start, q1, r1) && Divides(bits, start, q2, r2)
    ensures r1 == r2
  {
    hide Bit, Coef, Dividend;
    forall k: int
      ensures Bit(r1, k) == Bit(r2, k)
    {
      QuotientUnique(bits, start, q1, r1, q2, r2, k - 16);
      QuotientUnique(bits, start, q1, r1, q2, r2, k - 12);
      QuotientUnique(bits, start, q1, r1, q2, r2, k - 5);
      QuotientUnique(bits, start, q1, r1, q2, r2, k);
      assert Dividend(bits, start, k) == Xor(TimesGenerator(q1, k), Bit(r1, k));
      assert Dividend(bits, start, k) == Xor(TimesGenerator(q2, k), Bit(r2, k));
    }
    SameBits(r1, r2);
  }

  lemma SameBits(a: bv16, b: bv16)
    requires forall k: int :: Bit(a, k) == Bit(b, k)
    ensures a == b
  {
    hide Plus, Up, Top, ShiftOut;
    forall n: nat | n < 16
      ensures !Top(ShiftOut(Plus(a, b), n))
    {
      assert Bit(a, 15 - n) == Bit(b, 15 - n) && 15 - (15 - n) == n;
      ShiftOutPlus(a, b, n);
      UpPlus(ShiftOut(a, n), ShiftOut(b, n));
    }
    NoBits(Plus(a, b), 0);
    PlusZero(a, b);
  }

  lemma {:induction false} NoBits(d: bv16, n: nat)
    requires n <= 16 && forall i: nat | i < 16 :: !Top(ShiftOut(d, i))
    ensures ShiftOut(d, n) == 0
    decreases 16 - n
  {
    hide Up, Top;
    if n == 16 {
      AllShiftedOut(d);
    } else {
      NoBits(d, n + 1);
      UpZero(ShiftOut(d, n));
    }
  }

  lemma UpZero(x: bv16)
    requires !Top(x) && Up(x) == 0
    ensures x == 0
  {}

  lemma PlusZero(a: bv16, b: bv16)
    requires ShiftOut(Plus(a, b), 0) == 0
    ensures a == b
  {
    assert a ^ b == 0;
  }

  /** The CRC of a message is the one remainder that message * x^16 + start * x^|message| leaves when
      divided by x^16 + x^12 + x^5 + 1 over GF(2). */
  lemma CrcIsTheRemainder(msg: seq<bv8>, start: bv16, r: bv16)
    ensures (exists q :: Divides(MessageBits(msg), start, q, r)) <==> r == Crc(msg, start)
  {
    hide Divides, MessageBits, Crc, FeedAll;
    FeedMessage(msg, start);
    var q := DivideAll(start, MessageBits(msg));
    forall q2 | Divides(MessageBits(msg), start, q2, r)
      ensures r == Crc(msg, start)
    {
      RemainderUnique(MessageBits(msg), start, q, Crc(msg, start), q2, r);
    }
  }
}
