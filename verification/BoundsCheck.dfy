/**
 Case 04: the two versions of `fits` as C++ defines them, the two instruction listings of the adding
 one, and what each listing decides.
*/
module BoundsCheck {
  import opened Machine32

  const BUFFER_SIZE: int := 1024

  // ---- The source ----

  /** What the C++ abstract machine says: a value, or undefined behaviour. */
  datatype Answer = Value(b: bool) | Undefined

  function FitsAdding(offset: int32, length: int32): Answer {
    if offset < 0 || length < 0 then Value(false)
    else if !Fits32(offset + length) then Undefined
    else
      var end := offset + length;
      if end < offset then Value(false) else Value(end <= BUFFER_SIZE)
  }

  function FitsSubtracting(offset: int32, length: int32): Answer {
    if offset < 0 || length < 0 then Value(false)
    else if offset > BUFFER_SIZE then Value(false)
    else if !Fits32(BUFFER_SIZE - offset) then Undefined
    else Value(length <= BUFFER_SIZE - offset)
  }

  /** The question both are meant to answer, over the integers. */
  predicate InBuffer(offset: int, length: int) {
    0 <= offset && 0 <= length && offset + length <= BUFFER_SIZE
  }

  /** The subtracting check has no undefined intermediate and answers the question on all inputs. */
  lemma {:induction false} SubtractingIsExact(offset: int32, length: int32)
    ensures FitsSubtracting(offset, length) == Value(InBuffer(offset, length))
  {
  }

  /** The adding check is undefined on exactly the non-negative pairs whose sum leaves the type,
      and right everywhere else. */
  lemma {:induction false} AddingIsPartial(offset: int32, length: int32)
    ensures FitsAdding(offset, length) ==
            if 0 <= offset && 0 <= length && offset + length >= TWO31 then Undefined
            else Value(InBuffer(offset, length))
  {
  }

  // ---- The listings ----

  datatype Listing = O0 | O2 {
    function Entry(): int { if O0? then 0x1169 else 0x1220 }

    function Fetch(pc: int): Code {
      if O0? then FetchO0(pc) else FetchO2(pc)
    }
  }

  function FetchO0(pc: int): Code {
    match pc
    case 0x1169 => At(Endbr64, 0x116d)
    case 0x116d => At(PushRbp, 0x116e)
    case 0x116e => At(MovRspRbp, 0x1171)
    case 0x1171 => At(Mov(R(EDI), Slot(-0x14)), 0x1174)
    case 0x1174 => At(Mov(R(ESI), Slot(-0x18)), 0x1177)
    case 0x1177 => At(Cmp(Imm(0), Slot(-0x14)), 0x117b)
    case 0x117b => At(Js(0x1183), 0x117d)
    case 0x117d => At(Cmp(Imm(0), Slot(-0x18)), 0x1181)
    case 0x1181 => At(Jns(0x118a), 0x1183)
    case 0x1183 => At(Mov(Imm(0), R(EAX)), 0x1188)
    case 0x1188 => At(Jmp(0x11ae), 0x118a)
    case 0x118a => At(Mov(Slot(-0x14), R(EDX)), 0x118d)
    case 0x118d => At(Mov(Slot(-0x18), R(EAX)), 0x1190)
    case 0x1190 => At(Add(R(EDX), R(EAX)), 0x1192)
    case 0x1192 => At(Mov(R(EAX), Slot(-0x4)), 0x1195)
    case 0x1195 => At(Mov(Slot(-0x4), R(EAX)), 0x1198)
    case 0x1198 => At(Cmp(Slot(-0x14), R(EAX)), 0x119b)
    case 0x119b => At(Jge(0x11a4), 0x119d)
    case 0x119d => At(Mov(Imm(0), R(EAX)), 0x11a2)
    case 0x11a2 => At(Jmp(0x11ae), 0x11a4)
    case 0x11a4 => At(Cmp(Imm(0x400), Slot(-0x4)), 0x11ab)
    case 0x11ab => At(SetleAl, 0x11ae)
    case 0x11ae => At(PopRbp, 0x11af)
    case 0x11af => At(Ret, 0x11b0)
    case _ => Nowhere
  }

  function FetchO2(pc: int): Code {
    match pc
    case 0x1220 => At(Mov(R(EDI), R(EDX)), 0x1222)
    case 0x1222 => At(XorI(R(EAX), R(EAX)), 0x1224)
    case 0x1224 => At(OrI(R(ESI), R(EDX)), 0x1226)
    case 0x1226 => At(Js(0x1233), 0x1228)
    case 0x1228 => At(Add(R(ESI), R(EDI)), 0x122a)
    case 0x122a => At(Cmp(Imm(0x400), R(EDI)), 0x1230)
    case 0x1230 => At(SetleAl, 0x1233)
    case 0x1233 => At(Ret, 0x1234)
    case _ => Nowhere
  }

  function Next(l: Listing, m: Cpu): Cpu { Step(l.Fetch(m.pc), m) }

  function Run(l: Listing, m: Cpu, n: nat): Cpu
    decreases n
  {
    if n == 0 then m else Run(l, Next(l, m), n - 1)
  }

  /** The function is entered with its arguments in edi and esi; everything else is arbitrary. */
  predicate Called(l: Listing, m: Cpu, offset: int32, length: int32) {
    m.pc == l.Entry() && !m.halted && m.edi == ToWord(offset) && m.esi == ToWord(length)
  }

  function Al(m: Cpu): nat { m.eax % 256 }

  /** The call returns `answer` in al and gives the caller its stack and frame back. */
  predicate Returns(m: Cpu, end: Cpu, answer: bool) {
    && end.halted
    && Al(end) == (if answer then 1 else 0)
    && end.rsp == m.rsp && end.rbp == m.rbp
  }

  lemma {:induction false} RunAppend(l: Listing, m: Cpu, i: nat, j: nat)
    ensures Run(l, m, i + j) == Run(l, Run(l, m, i), j)
    decreases i
  {
    if i > 0 {
      RunAppend(l, Next(l, m), i - 1, j);
      assert i + j - 1 == i - 1 + j;
    }
  }

  /** One more instruction at the end of a run. */
  lemma {:induction false} Link(l: Listing, start: Cpu, k: nat, m: Cpu, code: Code) returns (k': nat, m': Cpu)
    requires Run(l, start, k) == m && l.Fetch(m.pc) == code
    ensures Run(l, start, k') == m' == Step(code, m)
  {
    RunAppend(l, start, k, 1);
    k', m' := k + 1, Next(l, m);
  }

  // ---- -O0 ----

  /** The frame once the arguments are stored. */
  predicate Frame(m: Cpu, rsp: int, rbp: int, offset: int32, length: int32) {
    && !m.halted
    && m.rbp == m.rsp == rsp - 8
    && m.rsp in m.saved && m.saved[m.rsp] == rbp
    && Get(m, Slot(-0x14)) == ToWord(offset)
    && Get(m, Slot(-0x18)) == ToWord(length)
  }

  lemma {:induction false} Prologue(start: Cpu, offset: int32, length: int32) returns (k: nat, m: Cpu)
    requires Called(O0, start, offset, length)
    ensures Run(O0, start, k) == m && m.pc == 0x1177 && Frame(m, start.rsp, start.rbp, offset, length)
  {
    k, m := Link(O0, start, 0, start, At(Endbr64, 0x116d));
    k, m := Link(O0, start, k, m, At(PushRbp, 0x116e));
    k, m := Link(O0, start, k, m, At(MovRspRbp, 0x1171));
    k, m := Link(O0, start, k, m, At(Mov(R(EDI), Slot(-0x14)), 0x1174));
    k, m := Link(O0, start, k, m, At(Mov(R(ESI), Slot(-0x18)), 0x1177));
  }

  lemma {:induction false} OffsetTest(start: Cpu, k: nat, m: Cpu, rsp: int, rbp: int, offset: int32, length: int32)
    returns (k': nat, m': Cpu)
    requires Run(O0, start, k) == m && m.pc == 0x1177 && Frame(m, rsp, rbp, offset, length)
    ensures Run(O0, start, k') == m' && Frame(m', rsp, rbp, offset, length)
    ensures m'.pc == if offset < 0 then 0x1183 else 0x117d
  {
    SignedConditions(offset, 0);
    k', m' := Link(O0, start, k, m, At(Cmp(Imm(0), Slot(-0x14)), 0x117b));
    k', m' := Link(O0, start, k', m', At(Js(0x1183), 0x117d));
  }

  lemma {:induction false} LengthTest(start: Cpu, k: nat, m: Cpu, rsp: int, rbp: int, offset: int32, length: int32)
    returns (k': nat, m': Cpu)
    requires Run(O0, start, k) == m && m.pc == 0x117d && Frame(m, rsp, rbp, offset, length)
    ensures Run(O0, start, k') == m' && Frame(m', rsp, rbp, offset, length)
    ensures m'.pc == if length < 0 then 0x1183 else 0x118a
  {
    SignedConditions(length, 0);
    k', m' := Link(O0, start, k, m, At(Cmp(Imm(0), Slot(-0x18)), 0x1181));
    k', m' := Link(O0, start, k', m', At(Jns(0x118a), 0x1183));
  }

  /** Either `mov $0,%eax; jmp` pair. */
  lemma {:induction false} Reject(start: Cpu, k: nat, m: Cpu, rsp: int, rbp: int, offset: int32, length: int32)
    returns (k': nat, m': Cpu)
    requires Run(O0, start, k) == m && Frame(m, rsp, rbp, offset, length)
    requires m.pc == 0x1183 || m.pc == 0x119d
    ensures Run(O0, start, k') == m' && Frame(m', rsp, rbp, offset, length)
    ensures m'.pc == 0x11ae && Al(m') == 0
  {
    if m.pc == 0x1183 {
      k', m' := Link(O0, start, k, m, At(Mov(Imm(0), R(EAX)), 0x1188));
      k', m' := Link(O0, start, k', m', At(Jmp(0x11ae), 0x118a));
    } else {
      k', m' := Link(O0, start, k, m, At(Mov(Imm(0), R(EAX)), 0x11a2));
      k', m' := Link(O0, start, k', m', At(Jmp(0x11ae), 0x11a4));
    }
  }

  lemma {:induction false} Sum(start: Cpu, k: nat, m: Cpu, rsp: int, rbp: int, offset: int32, length: int32)
    returns (k': nat, m': Cpu)
    requires Run(O0, start, k) == m && m.pc == 0x118a && Frame(m, rsp, rbp, offset, length)
    ensures Run(O0, start, k') == m' && m'.pc == 0x1192 && Frame(m', rsp, rbp, offset, length)
    ensures m'.eax == Wrap(offset + length)
  {
    k', m' := Link(O0, start, k, m, At(Mov(Slot(-0x14), R(EDX)), 0x118d));
    k', m' := Link(O0, start, k', m', At(Mov(Slot(-0x18), R(EAX)), 0x1190));
    k', m' := Link(O0, start, k', m', At(Add(R(EDX), R(EAX)), 0x1192));
  }

  lemma {:induction false} Spill(start: Cpu, k: nat, m: Cpu, rsp: int, rbp: int, offset: int32, length: int32)
    returns (k': nat, m': Cpu)
    requires Run(O0, start, k) == m && m.pc == 0x1192 && Frame(m, rsp, rbp, offset, length)
    ensures Run(O0, start, k') == m' && m'.pc == 0x1198 && Frame(m', rsp, rbp, offset, length)
    ensures m'.eax == m.eax && Get(m', Slot(-0x4)) == m.eax
  {
    k', m' := Link(O0, start, k, m, At(Mov(R(EAX), Slot(-0x4)), 0x1195));
    k', m' := Link(O0, start, k', m', At(Mov(Slot(-0x4), R(EAX)), 0x1198));
  }

  /** The overflow guard `if (end < offset) return false`. */
  lemma {:induction false} Guard(start: Cpu, k: nat, m: Cpu, rsp: int, rbp: int, offset: int32, length: int32)
    returns (k': nat, m': Cpu)
    requires Run(O0, start, k) == m && m.pc == 0x1198 && Frame(m, rsp, rbp, offset, length)
    ensures Run(O0, start, k') == m' && Frame(m', rsp, rbp, offset, length)
    ensures Get(m', Slot(-0x4)) == Get(m, Slot(-0x4))
    ensures m'.pc == if Signed(m.eax) < offset then 0x119d else 0x11a4
  {
    SignedConditions(Signed(m.eax), offset);
    k', m' := Link(O0, start, k, m, At(Cmp(Slot(-0x14), R(EAX)), 0x119b));
    k', m' := Link(O0, start, k', m', At(Jge(0x11a4), 0x119d));
  }

  /** The comparison of the sum with the buffer size. */
  lemma {:induction false} Compare(start: Cpu, k: nat, m: Cpu, rsp: int, rbp: int, offset: int32, length: int32)
    returns (k': nat, m': Cpu)
    requires Run(O0, start, k) == m && m.pc == 0x11a4 && Frame(m, rsp, rbp, offset, length)
    ensures Run(O0, start, k') == m' && m'.pc == 0x11ae && Frame(m', rsp, rbp, offset, length)
    ensures Al(m') == if Signed(Get(m, Slot(-0x4))) <= BUFFER_SIZE then 1 else 0
  {
    SignedConditions(Signed(Get(m, Slot(-0x4))), BUFFER_SIZE);
    k', m' := Link(O0, start, k, m, At(Cmp(Imm(0x400), Slot(-0x4)), 0x11ab));
    k', m' := Link(O0, start, k', m', At(SetleAl, 0x11ae));
  }

  lemma {:induction false} Epilogue(start: Cpu, k: nat, m: Cpu, rsp: int, rbp: int, offset: int32, length: int32)
    returns (k': nat, m': Cpu)
    requires Run(O0, start, k) == m && m.pc == 0x11ae && Frame(m, rsp, rbp, offset, length)
    ensures Run(O0, start, k') == m' && m'.halted && m'.eax == m.eax && m'.rsp == rsp && m'.rbp == rbp
  {
    k', m' := Link(O0, start, k, m, At(PopRbp, 0x11af));
    k', m' := Link(O0, start, k', m', At(Ret, 0x11b0));
  }

  /** The -O0 listing answers the question over the integers for all 32-bit inputs: it wraps where
      the source is undefined, and its guard catches the wrapped sum. */
  lemma {:induction false} O0Decides(start: Cpu, offset: int32, length: int32) returns (k: nat)
    requires Called(O0, start, offset, length)
    ensures Returns(start, Run(O0, start, k), InBuffer(offset, length))
  {
    var m: Cpu;
    k, m := Prologue(start, offset, length);
    k, m := OffsetTest(start, k, m, start.rsp, start.rbp, offset, length);
    if offset >= 0 {
      k, m := LengthTest(start, k, m, start.rsp, start.rbp, offset, length);
    }
    if offset < 0 || length < 0 {
      k, m := Reject(start, k, m, start.rsp, start.rbp, offset, length);
    } else {
      k, m := Sum(start, k, m, start.rsp, start.rbp, offset, length);
      k, m := Spill(start, k, m, start.rsp, start.rbp, offset, length);
      k, m := Guard(start, k, m, start.rsp, start.rbp, offset, length);
      SignedWraps(offset + length);
      if m.pc == 0x119d {
        k, m := Reject(start, k, m, start.rsp, start.rbp, offset, length);
      } else {
        k, m := Compare(start, k, m, start.rsp, start.rbp, offset, length);
      }
    }
    k, m := Epilogue(start, k, m, start.rsp, start.rbp, offset, length);
  }

  // ---- -O2 ----

  /** What the -O2 listing decides: the guard is gone, so a sum that wraps below zero passes. */
  predicate WrappedSumFits(offset: int32, length: int32) {
    0 <= offset && 0 <= length && Signed(Wrap(offset + length)) <= BUFFER_SIZE
  }

  lemma {:induction false} SignTest(start: Cpu, offset: int32, length: int32) returns (k: nat, m: Cpu)
    requires Called(O2, start, offset, length)
    ensures Run(O2, start, k) == m && !m.halted && m.eax == 0
    ensures m.edi == ToWord(offset) && m.esi == ToWord(length)
    ensures m.rsp == start.rsp && m.rbp == start.rbp
    ensures m.pc == if offset < 0 || length < 0 then 0x1233 else 0x1228
  {
    OrSign(ToWord(offset), ToWord(length));
    XorSelf(start.eax);
    k, m := Link(O2, start, 0, start, At(Mov(R(EDI), R(EDX)), 0x1222));
    k, m := Link(O2, start, k, m, At(XorI(R(EAX), R(EAX)), 0x1224));
    k, m := Link(O2, start, k, m, At(OrI(R(ESI), R(EDX)), 0x1226));
    k, m := Link(O2, start, k, m, At(Js(0x1233), 0x1228));
  }

  lemma {:induction false} AddAndCompare(start: Cpu, k: nat, m: Cpu, offset: int32, length: int32)
    returns (k': nat, m': Cpu)
    requires Run(O2, start, k) == m && m.pc == 0x1228 && !m.halted && m.eax == 0
    requires m.edi == ToWord(offset) && m.esi == ToWord(length)
    ensures Run(O2, start, k') == m' && m'.pc == 0x1233 && !m'.halted
    ensures Al(m') == if Signed(Wrap(offset + length)) <= BUFFER_SIZE then 1 else 0
    ensures m'.rsp == m.rsp && m'.rbp == m.rbp
  {
    k', m' := Link(O2, start, k, m, At(Add(R(ESI), R(EDI)), 0x122a));
    assert m'.edi == Wrap(offset + length);
    SignedConditions(Signed(m'.edi), BUFFER_SIZE);
    k', m' := Link(O2, start, k', m', At(Cmp(Imm(0x400), R(EDI)), 0x1230));
    k', m' := Link(O2, start, k', m', At(SetleAl, 0x1233));
  }

  lemma {:induction false} O2Decides(start: Cpu, offset: int32, length: int32) returns (k: nat)
    requires Called(O2, start, offset, length)
    ensures Returns(start, Run(O2, start, k), WrappedSumFits(offset, length))
  {
    var m: Cpu;
    k, m := SignTest(start, offset, length);
    if offset >= 0 && length >= 0 {
      k, m := AddAndCompare(start, k, m, offset, length);
    }
    k, m := Link(O2, start, k, m, At(Ret, 0x1234));
  }

  /** The -O2 listing is a correct translation wherever the source is defined, and wrongly accepts
      exactly the non-negative pairs whose sum exceeds the largest int. */
  lemma {:induction false} O2WrongExactlyOnOverflow(offset: int32, length: int32)
    ensures FitsAdding(offset, length).Value? ==>
              FitsAdding(offset, length) == Value(WrappedSumFits(offset, length))
    ensures 0 <= offset && 0 <= length && offset + length > TWO31 - 1
            <==> WrappedSumFits(offset, length) != InBuffer(offset, length)
    ensures 0 <= offset && 0 <= length && offset + length > TWO31 - 1 ==> WrappedSumFits(offset, length)
  {
    SignedWraps(offset + length);
  }

  // ---- Running a listing ----

  lemma {:induction false} HaltedStays(l: Listing, m: Cpu, n: nat)
    requires m.halted
    ensures Run(l, m, n) == m
    decreases n
  {
    if n > 0 {
      HaltedStays(l, m, n - 1);
    }
  }

  /** Executes a call until it returns. */
  method Execute(l: Listing, start: Cpu, offset: int32, length: int32) returns (m: Cpu)
    requires Called(l, start, offset, length)
    ensures Returns(start, m, if l.O0? then InBuffer(offset, length) else WrappedSumFits(offset, length))
  {
    ghost var n: nat;
    if l.O0? {
      n := O0Decides(start, offset, length);
    } else {
      n := O2Decides(start, offset, length);
    }
    m := start;
    ghost var k := 0;
    while !m.halted
      invariant k <= n && m == Run(l, start, k)
      decreases n - k
    {
      RunAppend(l, start, k, 1);
      m := Step(l.Fetch(m.pc), m);
      k := k + 1;
    }
    RunAppend(l, start, k, n - k);
    HaltedStays(l, m, n - k);
  }
}
