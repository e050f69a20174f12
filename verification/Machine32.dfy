/**
 Case 04: the fragment of x86-64 the two committed listings of `fits` use: 32-bit registers, 32-bit
 stack slots, the frame pointer, and the flags the jumps and `setle` read.
*/
module Machine32 {
  import opened Arith

  const TWO31: int := 0x8000_0000
  const TWO32: int := 0x1_0000_0000

  type word = n: nat | n < TWO32
  type int32 = x: int | -TWO31 <= x < TWO31

  function ToWord(x: int32): word { if x < 0 then x + TWO32 else x }

  function Signed(w: word): (x: int32)
    ensures ToWord(x) == w
  {
    if w < TWO31 then w else w - TWO32
  }

  function Wrap(x: int): word { x % TWO32 }

  /** Bitwise or and exclusive or, lowest bit first. */
  function Or(a: nat, b: nat): nat {
    if a == 0 then b
    else if b == 0 then a
    else 2 * Or(a / 2, b / 2) + (if a % 2 == 1 || b % 2 == 1 then 1 else 0)
  }

  function Xor(a: nat, b: nat): nat {
    if a == 0 then b
    else if b == 0 then a
    else 2 * Xor(a / 2, b / 2) + (if a % 2 != b % 2 then 1 else 0)
  }

  lemma {:induction false} OrReaches(a: nat, b: nat, k: nat)
    ensures Or(a, b) >= Pow2(k) <==> a >= Pow2(k) || b >= Pow2(k)
  {
    if a != 0 && b != 0 && k > 0 {
      OrReaches(a / 2, b / 2, k - 1);
    } else if a != 0 && b != 0 {
      OrReaches(a / 2, b / 2, 0);
    }
  }

  lemma {:induction false} XorBelow(a: nat, b: nat, k: nat)
    requires a < Pow2(k) && b < Pow2(k)
    ensures Xor(a, b) < Pow2(k)
  {
    if a != 0 && b != 0 {
      XorBelow(a / 2, b / 2, k - 1);
    }
  }

  lemma {:induction false} XorSelf(a: nat)
    ensures Xor(a, a) == 0
  {
    if a != 0 {
      XorSelf(a / 2);
    }
  }

  predicate Bit(n: nat, k: nat) {
    if k == 0 then n % 2 == 1 else Bit(n / 2, k - 1)
  }

  lemma {:induction false} NoBits(k: nat)
    ensures !Bit(0, k)
  {
    if k > 0 {
      NoBits(k - 1);
    }
  }

  /** Both operations, bit by bit. */
  lemma {:induction false} BitByBit(a: nat, b: nat, k: nat)
    ensures Bit(Or(a, b), k) <==> Bit(a, k) || Bit(b, k)
    ensures Bit(Xor(a, b), k) <==> Bit(a, k) != Bit(b, k)
  {
    if a == 0 || b == 0 {
      NoBits(k);
    } else if k > 0 {
      BitByBit(a / 2, b / 2, k - 1);
    }
  }

  /** A number is its bits. */
  lemma {:induction false} BitsDiffer(a: nat, b: nat) returns (k: nat)
    requires a != b
    ensures Bit(a, k) != Bit(b, k)
  {
    if a % 2 != b % 2 {
      k := 0;
    } else {
      var j := BitsDiffer(a / 2, b / 2);
      k := j + 1;
    }
  }

  lemma WordBits()
    ensures Pow2(31) == TWO31 && Pow2(32) == TWO32
  {
    Pow2Of32();
    assert Pow2(32) == 2 * Pow2(31);
  }

  function OrWord(a: word, b: word): word {
    WordBits();
    OrReaches(a, b, 32);
    Or(a, b)
  }

  function XorWord(a: word, b: word): word {
    WordBits();
    XorBelow(a, b, 32);
    Xor(a, b)
  }

  /** The sign of an or is the or of the signs. */
  lemma {:induction false} OrSign(a: word, b: word)
    ensures Signed(OrWord(a, b)) < 0 <==> Signed(a) < 0 || Signed(b) < 0
  {
    WordBits();
    OrReaches(a, b, 31);
  }

  datatype Reg = EAX | EDX | EDI | ESI

  datatype Operand = R(reg: Reg) | Slot(disp: int) | Imm(value: word)

  // AT&T operand order: source, destination.
  datatype Instr =
    | Endbr64
    | PushRbp
    | MovRspRbp
    | PopRbp
    | Mov(src: Operand, dst: Operand)
    | Add(src: Operand, dst: Operand)
    | OrI(src: Operand, dst: Operand)
    | XorI(src: Operand, dst: Operand)
    | Cmp(src: Operand, dst: Operand)
    | Js(target: int)
    | Jns(target: int)
    | Jge(target: int)
    | Jmp(target: int)
    | SetleAl
    | Ret

  datatype Code = At(instr: Instr, next: int) | Nowhere

  datatype Flags = Flags(sf: bool, zf: bool, of: bool)

  datatype Cpu = Cpu(
    pc: int,
    eax: word, edx: word, edi: word, esi: word,
    flags: Flags,
    rsp: int, rbp: int,
    slots: map<int, word>,   // 32-bit cells of the stack, by address
    saved: map<int, int>,    // 64-bit cells, by address
    halted: bool)

  function Get(m: Cpu, o: Operand): word {
    match o
    case R(EAX) => m.eax
    case R(EDX) => m.edx
    case R(EDI) => m.edi
    case R(ESI) => m.esi
    case Slot(d) => if m.rbp + d in m.slots then m.slots[m.rbp + d] else 0
    case Imm(v) => v
  }

  function Put(m: Cpu, o: Operand, w: word): Cpu {
    match o
    case R(EAX) => m.(eax := w)
    case R(EDX) => m.(edx := w)
    case R(EDI) => m.(edi := w)
    case R(ESI) => m.(esi := w)
    case Slot(d) => m.(slots := m.slots[m.rbp + d := w])
    case Imm(_) => m
  }

  function FlagsOf(w: word, overflow: bool): Flags {
    Flags(Signed(w) < 0, w == 0, overflow)
  }

  predicate Fits32(x: int) { -TWO31 <= x < TWO31 }

  function Jump(m: Cpu, taken: bool, target: int, next: int): Cpu {
    m.(pc := if taken then target else next)
  }

  function Step(code: Code, m: Cpu): Cpu {
    if m.halted || code.Nowhere? then m
    else
      var n := m.(pc := code.next);
      match code.instr
      case Endbr64 => n
      case PushRbp => n.(rsp := m.rsp - 8, saved := m.saved[m.rsp - 8 := m.rbp])
      case MovRspRbp => n.(rbp := m.rsp)
      case PopRbp => n.(rbp := if m.rsp in m.saved then m.saved[m.rsp] else 0, rsp := m.rsp + 8)
      case Mov(s, d) => Put(n, d, Get(m, s))
      case Add(s, d) =>
        var sum := Signed(Get(m, d)) + Signed(Get(m, s));
        Put(n, d, Wrap(sum)).(flags := FlagsOf(Wrap(sum), !Fits32(sum)))
      case OrI(s, d) =>
        var w := OrWord(Get(m, d), Get(m, s));
        Put(n, d, w).(flags := FlagsOf(w, false))
      case XorI(s, d) =>
        var w := XorWord(Get(m, d), Get(m, s));
        Put(n, d, w).(flags := FlagsOf(w, false))
      case Cmp(s, d) =>
        var diff := Signed(Get(m, d)) - Signed(Get(m, s));
        n.(flags := FlagsOf(Wrap(diff), !Fits32(diff)))
      case Js(t) => Jump(m, m.flags.sf, t, code.next)
      case Jns(t) => Jump(m, !m.flags.sf, t, code.next)
      case Jge(t) => Jump(m, m.flags.sf == m.flags.of, t, code.next)
      case Jmp(t) => Jump(m, true, t, code.next)
      case SetleAl =>
        var bit := if m.flags.zf || m.flags.sf != m.flags.of then 1 else 0;
        n.(eax := m.eax - m.eax % 256 + bit)
      case Ret => m.(halted := true)
  }

  /** After a comparison the signed conditions read the signed order, overflow or not. */
  lemma {:induction false} SignedConditions(x: int32, y: int32)
    ensures var f := FlagsOf(Wrap(x - y), !Fits32(x - y));
            && (f.sf == f.of <==> x >= y)
            && (f.zf || f.sf != f.of <==> x <= y)
  {
  }

  lemma {:induction false} SignedWraps(x: int)
    ensures Fits32(x) ==> Signed(Wrap(x)) == x
    ensures TWO31 <= x < TWO32 ==> Signed(Wrap(x)) == x - TWO32
  {
  }

  /** A written operand reads back, and no other register or slot changes. */
  lemma {:induction false} PutGet(m: Cpu, o: Operand, w: word, other: Operand)
    requires !o.Imm? && other != o
    ensures Get(Put(m, o, w), o) == w
    ensures Get(Put(m, o, w), other) == Get(m, other)
  {
  }

  /** Addition leaves the sum modulo 2^32; zero and the true sign are in the flags even if it does not fit. */
  lemma {:induction false} AddLeaves(m: Cpu, s: Operand, d: Operand, next: int)
    requires !m.halted && !d.Imm?
    ensures var t, sum := Step(At(Add(s, d), next), m), Signed(Get(m, d)) + Signed(Get(m, s));
            && Get(t, d) == Wrap(sum)
            && (t.flags.zf <==> Get(t, d) == 0)
            && (t.flags.sf != t.flags.of <==> sum < 0)
  {
    SumSign(Signed(Get(m, d)) + Signed(Get(m, s)));
  }

  lemma {:induction false} SumSign(sum: int)
    requires -TWO32 <= sum < TWO32
    ensures (Signed(Wrap(sum)) < 0) != !Fits32(sum) <==> sum < 0
  {
  }

  /** The bitwise instructions leave sign and zero of their value and never overflow. */
  lemma {:induction false} BitwiseLeaves(m: Cpu, s: Operand, d: Operand, next: int, exclusive: bool)
    requires !m.halted && !d.Imm?
    ensures var t := Step(At(if exclusive then XorI(s, d) else OrI(s, d), next), m);
            && Get(t, d) == (if exclusive then XorWord(Get(m, d), Get(m, s)) else OrWord(Get(m, d), Get(m, s)))
            && t.flags == Flags(Signed(Get(t, d)) < 0, Get(t, d) == 0, false)
  {
  }

  /** A comparison changes the flags alone. */
  lemma {:induction false} CmpLeaves(m: Cpu, s: Operand, d: Operand, next: int)
    requires !m.halted
    ensures var t, x, y := Step(At(Cmp(s, d), next), m), Signed(Get(m, d)), Signed(Get(m, s));
            && t == m.(pc := next, flags := t.flags)
            && (t.flags.sf == t.flags.of <==> x >= y) && (t.flags.zf <==> x == y)
  {
    SignedConditions(Signed(Get(m, d)), Signed(Get(m, s)));
  }

  /** Whatever happens to the frame pointer in between, popping brings back what was pushed, and the stack
      pointer with it. */
  lemma {:induction false} PushPop(m: Cpu, rbp: int, next: int, next': int)
    requires !m.halted
    ensures var pushed := Step(At(PushRbp, next), m);
            var popped := Step(At(PopRbp, next'), pushed.(rbp := rbp));
            && pushed.rsp == m.rsp - 8 && popped.rsp == m.rsp && popped.rbp == m.rbp && popped.pc == next'
  {
  }
}
