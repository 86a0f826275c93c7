// The JSON command layer: the 32-bit FNV-1a key hash, the binder-list lookup
// by hash and by index, the instruction record, the instruction list and the
// instruction stack, the in-place scanners for names and quoted strings, and
// the object parser that fills an instruction list from a command buffer.
//
// Buffers are modelled as sequences of characters (the scanners' results) and
// as arrays (the methods that rewrite a buffer in place); a pointer into a
// buffer is an index.

module MotateJson {

  import opened Wrappers
  import Utilities

  const NUL: char := '\0'

  // ---------------------------------------------------------------- FNV-1a

  type Hash = bv32

  const FnvOffsetBasis: Hash := 0x811C9DC5
  const FnvPrime: Hash := 0x01000193

  /** uint32_t(c) for an 8-bit unsigned char. */
  function CharWord(c: char): Hash
  {
    ((c as int) % 256) as Hash
  }

  /** One FNV-1a round: xor in the character, multiply by the prime modulo 2^32. */
  function Fold(val: Hash, c: char): Hash
  {
    (val ^ CharWord(c)) * FnvPrime
  }

  /** fnv1a::hash(s, val): fold every character up to the NUL into val. */
  function Fnv1a(s: string, val: Hash): Hash
    requires Utilities.Terminated(s)
    decreases |s|
  {
    if s[0] == NUL then val
    else
      Utilities.TerminatedTail(s);
      Fnv1a(s[1..], Fold(val, s[0]))
  }

  /** hash(s) starts from the offset basis. */
  function HashOf(s: string): Hash
    requires Utilities.Terminated(s)
  {
    Fnv1a(s, FnvOffsetBasis)
  }

  /** The reference definition: a left fold over the text, last character folded last. */
  function FoldLeft(val: Hash, t: string): Hash
    decreases |t|
  {
    if |t| == 0 then val else Fold(FoldLeft(val, t[..|t| - 1]), t[|t| - 1])
  }

  lemma {:induction false} FoldLeftCons(val: Hash, c: char, t: string)
    ensures FoldLeft(Fold(val, c), t) == FoldLeft(val, [c] + t)
    decreases |t|
  {
    if |t| == 0 {
      assert ([c] + t)[..0] == [];
    } else {
      FoldLeftCons(val, c, t[..|t| - 1]);
      assert ([c] + t)[..|[c] + t| - 1] == [c] + t[..|t| - 1];
    }
  }

  /** The recursive hash is the left fold of the characters before the NUL. */
  lemma {:induction false} HashIsFold(s: string, val: Hash)
    requires Utilities.Terminated(s)
    ensures Fnv1a(s, val) == FoldLeft(val, s[..Utilities.Len(s)])
    decreases |s|
  {
    if s[0] == NUL {
      assert s[..Utilities.Len(s)] == [];
    } else {
      Utilities.TerminatedTail(s);
      HashIsFold(s[1..], Fold(val, s[0]));
      FoldLeftCons(val, s[0], s[1..][..Utilities.Len(s[1..])]);
      assert [s[0]] + s[1..][..Utilities.Len(s[1..])] == s[..Utilities.Len(s)];
    }
  }

  /** hash("") is the offset basis, and each further character folds val = (val ^ c) * prime. */
  lemma HashAppend(t: string, c: char)
    requires NUL !in t && c != NUL
    ensures HashOf(t + [NUL]) == FoldLeft(FnvOffsetBasis, t)
    ensures HashOf(t + [c, NUL]) == Fold(HashOf(t + [NUL]), c)
  {
    assert Utilities.Terminated(t + [NUL]) by { assert (t + [NUL])[|t|] == NUL; }
    assert Utilities.Terminated(t + [c, NUL]) by { assert (t + [c, NUL])[|t| + 1] == NUL; }
    LenOfText(t);
    LenOfText(t + [c]);
    assert t + [c] + [NUL] == t + [c, NUL];
    HashIsFold(t + [NUL], FnvOffsetBasis);
    HashIsFold(t + [c, NUL], FnvOffsetBasis);
    assert (t + [NUL])[..|t|] == t;
    assert (t + [c, NUL])[..|t| + 1] == t + [c];
    assert (t + [c])[..|t + [c]| - 1] == t;
  }

  lemma LenOfText(t: string)
    requires NUL !in t
    ensures Utilities.Terminated(t + [NUL]) && Utilities.Len(t + [NUL]) == |t|
  {
    assert (t + [NUL])[|t|] == NUL;
    forall k | 0 <= k < |t|
      ensures (t + [NUL])[k] != NUL
    {
      assert (t + [NUL])[k] == t[k];
    }
  }

  // ---------------------------------------------------------------- binder lists

  /**
   * A binder list, seen through what find uses: the hash of each element's
   * token, first element first. An index into the sequence stands for the
   * pointer find returns; None is nullptr.
   */
  type BinderList = seq<Hash>

  /** find(hash): the first element whose hash matches, else nullptr. */
  function FindHash(l: BinderList, h: Hash): (r: Option<nat>)
    ensures r.Some? ==> r.value < |l| && l[r.value] == h
    ensures r.Some? ==> forall k :: 0 <= k < r.value ==> l[k] != h
    ensures r.None? <==> h !in l
    decreases |l|
  {
    if |l| == 0 then None
    else if l[0] == h then Some(0)
    else
      match FindHash(l[1..], h)
      case None => None
      case Some(k) => Some(k + 1)
  }

  /** find(const char*): find by the hash of the name. */
  function FindName(l: BinderList, s: string): Option<nat>
    requires Utilities.Terminated(s)
  {
    FindHash(l, HashOf(s))
  }

  /** find(int i): element i counting from the head; any index outside the list gives nullptr. */
  function FindIndex(l: BinderList, i: int): (r: Option<nat>)
    ensures r == (if 0 <= i < |l| then Some(i) else None)
    decreases |l|
  {
    if |l| == 0 then None
    else if i == 0 then Some(0)
    else
      match FindIndex(l[1..], i - 1)
      case None => None
      case Some(k) => Some(k + 1)
  }

  // ---------------------------------------------------------------- instruction_t

  /** The search key: a token (a pointer into the buffer, None for nullptr) or an index. */
  datatype Search = Token(at: Option<nat>) | Index(i: int)

  /**
   * The instruction's type and the value that goes with it. A number keeps
   * the characters atof consumed; the float conversion is not modelled.
   */
  datatype Kind = Empty | Null | Number(text: string) | Str(at: Option<nat>) | Bool(b: bool) | Array | Parent | Container

  datatype Instruction = Instruction(search: Search, kind: Kind, depth: int)
  {
    /** clear(): no token, empty, depth 0. */
    function Clear(): Instruction { Cleared() }
    function SetToken(t: Option<nat>): Instruction { this.(search := Token(t)) }
    function SetIndex(i: int): Instruction { this.(search := Index(i)) }
    function GetToken(): Option<nat> { if search.Token? then search.at else None }
    function GetIndex(): int { if search.Index? then search.i else -1 }
    function SetNumber(text: string): Instruction { this.(kind := Number(text)) }
    function SetStr(at: Option<nat>): Instruction { this.(kind := Str(at)) }
    function SetBool(b: bool): Instruction { this.(kind := Bool(b)) }
    function SetIsNull(): Instruction { this.(kind := Null) }
    function SetIsParent(): Instruction { this.(kind := Parent) }
    function SetIsArray(): Instruction { this.(kind := Array) }
    function SetIsContainer(): Instruction { this.(kind := Container) }
    function SetDepth(d: int): Instruction { this.(depth := d) }

    /** findIn(t): a token searches by name hash, an index by position. */
    function FindIn(l: BinderList, tokenHash: Hash): Option<nat>
    {
      if search.Token? then FindHash(l, tokenHash) else FindIndex(l, search.i)
    }
  }

  function Cleared(): Instruction
  {
    Instruction(Token(None), Empty, 0)
  }

  /** A token and an index share storage: setting one hides the other, and clear hides both. */
  lemma SearchExclusive(ins: Instruction, t: nat, i: int)
    ensures ins.SetToken(Some(t)).GetToken() == Some(t) && ins.SetToken(Some(t)).GetIndex() == -1
    ensures ins.SetIndex(i).GetIndex() == i && ins.SetIndex(i).GetToken() == None
    ensures ins.Clear().GetToken() == None && ins.Clear().GetIndex() == -1 && ins.Clear().kind == Empty
    ensures ins.SetIndex(i).SetToken(Some(t)).kind == ins.kind
  {
  }

  // ---------------------------------------------------------------- instruction_list_t

  /** A fixed array of instructions with a current position. */
  class InstructionList {
    const ins: array<Instruction>
    var pos: int

    predicate Valid()
      reads this
    {
      0 <= pos
    }

    constructor (size: nat)
      ensures Valid() && pos == 0 && ins.Length == size && fresh(ins)
      ensures forall k :: 0 <= k < size ==> ins[k] == Cleared()
    {
      ins := new Instruction[size](_ => Cleared());
      pos := 0;
    }

    /** next(): advance; false exactly when the position reaches the size. */
    method Next() returns (more: bool)
      requires Valid()
      modifies this
      ensures Valid() && pos == old(pos) + 1
      ensures more <==> pos != ins.Length
    {
      pos := pos + 1;
      more := pos != ins.Length;
    }

    /** reset(): clear entries pos down to 1 (entry 0 is left alone) and return to 0. */
    method Reset()
      requires Valid() && pos < ins.Length
      modifies this, ins
      ensures Valid() && pos == 0
      ensures forall k :: 1 <= k <= old(pos) ==> ins[k] == Cleared()
      ensures forall k :: 0 <= k < ins.Length && !(1 <= k <= old(pos)) ==> ins[k] == old(ins[k])
    {
      while pos != 0
        invariant 0 <= pos <= old(pos)
        invariant forall k :: pos < k <= old(pos) ==> ins[k] == Cleared()
        invariant forall k :: 0 <= k < ins.Length && !(pos < k <= old(pos)) ==> ins[k] == old(ins[k])
        decreases pos
      {
        ins[pos] := ins[pos].Clear();
        pos := pos - 1;
      }
    }
  }

  // ---------------------------------------------------------------- instruction_stack_t

  /** One stack slot: the binder (an index into the binder tree, None for nullptr) and its flags. */
  datatype StackItem = StackItem(binder: Option<nat>, isArray: bool, index: int, isWritten: bool)

  function EmptyItem(): StackItem
  {
    StackItem(None, false, -1, false)
  }

  const MaxStackDepth: nat := 25

  class InstructionStack {
    const ops: array<StackItem>
    var stackPtr: int
    var inArray: bool

    /** Every slot above the stack pointer is in its reset state. */
    predicate Valid()
      reads this, ops
    {
      ops.Length == MaxStackDepth && -1 <= stackPtr < MaxStackDepth
      && forall k :: stackPtr < k < ops.Length ==> ops[k] == EmptyItem()
    }

    constructor ()
      ensures Valid() && stackPtr == -1 && !inArray && fresh(ops)
    {
      ops := new StackItem[MaxStackDepth](_ => EmptyItem());
      stackPtr := -1;
      inArray := false;
    }

    /** push(t, isArray): a fresh slot on top, and in_array follows it. */
    method Push(binder: Option<nat>, isArray: bool)
      requires Valid() && stackPtr + 1 < MaxStackDepth
      modifies this, ops
      ensures Valid() && stackPtr == old(stackPtr) + 1 && inArray == isArray
      ensures ops[stackPtr] == StackItem(binder, isArray, -1, false)
      ensures forall k :: 0 <= k < stackPtr ==> ops[k] == old(ops[k])
    {
      stackPtr := stackPtr + 1;
      ops[stackPtr] := StackItem(binder, isArray, -1, false);
      inArray := isArray;
    }

    /** current(): the binder of the top slot. */
    function Current(): (r: Option<nat>)
      requires Valid() && stackPtr >= 0
      reads this, ops
    {
      ops[stackPtr].binder
    }

    /**
     * setDepth_(depth) without an output buffer: at the same depth the top
     * index advances; deeper slots are popped and reset; a positive depth
     * marks the new top unwritten.
     */
    method SetDepth(depth: int) returns (ok: bool)
      requires Valid() && depth >= -1
      requires stackPtr == depth ==> depth >= 0
      requires depth > 0 ==> stackPtr >= 0
      modifies this, ops
      ensures Valid() && ok
      ensures stackPtr == Utilities.Min(old(stackPtr), depth)
      ensures forall k :: 0 <= k < stackPtr ==> ops[k] == old(ops[k])
      ensures var t := stackPtr;
              t >= 0 ==> ops[t] == old(ops[t]).(index := old(ops[t]).index + (if old(stackPtr) == depth then 1 else 0),
                                                isWritten := old(ops[t]).isWritten && depth <= 0)
      ensures inArray <==> stackPtr > 0 && ops[stackPtr].isArray
    {
      if stackPtr == depth {
        ops[stackPtr] := ops[stackPtr].(index := ops[stackPtr].index + 1);
      }
      ghost var mid := ops[..];
      while stackPtr > depth
        invariant -1 <= stackPtr <= old(stackPtr)
        invariant stackPtr == old(stackPtr) || depth <= stackPtr
        invariant forall k :: stackPtr < k < ops.Length ==> ops[k] == EmptyItem()
        invariant forall k :: 0 <= k <= stackPtr ==> ops[k] == mid[k]
        decreases stackPtr
      {
        ops[stackPtr] := EmptyItem();
        stackPtr := stackPtr - 1;
      }
      if depth > 0 {
        ops[stackPtr] := ops[stackPtr].(isWritten := false);
      }
      if stackPtr > 0 {
        inArray := ops[stackPtr].isArray;
      } else {
        inArray := false;
      }
      ok := true;
    }
  }

  // ---------------------------------------------------------------- skip_whitespace

  /** The characters skip_whitespace passes over. */
  predicate IsBlank(c: char)
  {
    c == ' ' || c == '\t' || c == '\r' || c == '\n'
  }

  /** skip_whitespace(p): the index of the first character that is not blank. */
  function SkipWhitespace(s: string): (r: nat)
    requires Utilities.Terminated(s)
    ensures r < |s| && !IsBlank(s[r])
    ensures forall k :: 0 <= k < r ==> IsBlank(s[k])
    decreases |s|
  {
    if IsBlank(s[0]) then
      Utilities.TerminatedTail(s);
      1 + SkipWhitespace(s[1..])
    else 0
  }

  /** The blank test inside parse_json_object_, as written: '\t' twice and no '\r'. */
  predicate ParserBlankAsWritten(c: char)
  {
    c == ' ' || c == '\t' || c == '\t' || c == '\n'
  }

  /** The same test with the four blanks skip_whitespace uses; the parser below uses this one. */
  predicate ParserBlank(c: char)
  {
    IsBlank(c)
  }

  /** The parser as written rejects a carriage return that skip_whitespace would skip. */
  lemma ParserBlankMissesCr()
    ensures !ParserBlankAsWritten('\r') && ParserBlank('\r')
    ensures forall c :: ParserBlankAsWritten(c) ==> ParserBlank(c)
    ensures forall c :: ParserBlank(c) && c != '\r' ==> ParserBlankAsWritten(c)
  {
  }

  // ---------------------------------------------------------------- in-place rewrites

  /** The result of an in-place scan: the rewritten buffer and the end position, or a read or write outside the buffer. */
  datatype Rewrite = Rewritten(buf: string, at: nat) | OutOfBuffer

  // ---------------------------------------------------------------- find_end_of_name_bare_

  predicate IsNameLower(c: char)
  {
    ('a' <= c <= 'z') || ('0' <= c <= '9') || c == '_'
  }

  predicate IsUpper(c: char)
  {
    'A' <= c <= 'Z'
  }

  predicate IsNameChar(c: char)
  {
    IsNameLower(c) || IsUpper(c)
  }

  /** The rewrite of an uppercase letter as written: 'a' + ('A' - c). */
  function LowerAsWritten(c: char): char
    requires IsUpper(c)
  {
    ('a' as int + ('A' as int - c as int)) as char
  }

  /** Only 'A' comes out as a lowercase letter; 'B' becomes '`', 'C' becomes '_', 'Z' becomes 'H'. */
  lemma LowerAsWrittenOnlyA(c: char)
    requires IsUpper(c)
    ensures 'a' <= LowerAsWritten(c) <= 'z' <==> c == 'A'
    ensures LowerAsWritten('B') == '`' && LowerAsWritten('C') == '_' && LowerAsWritten('Z') == 'H'
  {
    var r := LowerAsWritten(c);
    assert r as int == 162 - c as int;
    if c == 'A' {
      assert r == 'a';
    } else {
      assert c as int != 65;
      assert 72 <= r as int <= 96;
    }
  }

  /** The lowercase letter in the same position of the alphabet. */
  function Lower(c: char): (r: char)
    requires IsUpper(c)
    ensures 'a' <= r <= 'z'
  {
    (c as int - 'A' as int + 'a' as int) as char
  }

  /** Lowercasing loses nothing: distinct letters stay distinct. */
  lemma LowerInjective(c: char, d: char)
    requires IsUpper(c) && IsUpper(d) && Lower(c) == Lower(d)
    ensures c == d
  {
  }

  function LowerChar(c: char): char
  {
    if IsUpper(c) then Lower(c) else c
  }

  /** The index of the first character that is not a name character. */
  function NameEnd(s: string): (r: Option<nat>)
    ensures r.Some? ==> r.value < |s| && !IsNameChar(s[r.value])
    ensures r.Some? ==> forall k :: 0 <= k < r.value ==> IsNameChar(s[k])
    ensures r.None? ==> forall k :: 0 <= k < |s| ==> IsNameChar(s[k])
    decreases |s|
  {
    if |s| == 0 then None
    else if !IsNameChar(s[0]) then Some(0)
    else
      match NameEnd(s[1..])
      case None => None
      case Some(k) => Some(k + 1)
  }

  /** find_end_of_name_bare_(p): skip name characters, lowercasing uppercase ones in place. */
  function NameBare(buf: string, i: nat): (r: Rewrite)
    ensures r.Rewritten? ==> |r.buf| == |buf| && i <= r.at < |buf|
    decreases |buf| - i
  {
    if i >= |buf| then OutOfBuffer
    else if IsNameLower(buf[i]) then NameBare(buf, i + 1)
    else if IsUpper(buf[i]) then NameBare(buf[i := Lower(buf[i])], i + 1)
    else Rewritten(buf, i)
  }

  /**
   * The bare scan stops at the first non-name character; every name
   * character before it ends up lowercase, and nothing else changes.
   */
  lemma {:induction false} NameBareMeaning(buf: string, i: nat)
    requires i <= |buf|
    ensures NameBare(buf, i).Rewritten? <==> NameEnd(buf[i..]).Some?
    ensures NameEnd(buf[i..]).Some? ==>
              var r := NameBare(buf, i);
              r.at == i + NameEnd(buf[i..]).value
              && (forall k :: 0 <= k < |buf| ==> r.buf[k] == if i <= k < r.at then LowerChar(buf[k]) else buf[k])
              && (forall k :: i <= k < r.at ==> IsNameLower(r.buf[k]))
    decreases |buf| - i
  {
    if i < |buf| && IsNameLower(buf[i]) {
      NameBareMeaning(buf, i + 1);
      LowerStep(buf, i);
    } else if i < |buf| && IsUpper(buf[i]) {
      NameBareMeaning(buf[i := Lower(buf[i])], i + 1);
      UpperStep(buf, i);
    } else if i < |buf| {
      assert buf[i..][0] == buf[i];
    }
  }

  /** The statement of NameBareMeaning for one starting point. */
  predicate NameBareSpec(buf: string, i: nat)
    requires i <= |buf|
  {
    && (NameBare(buf, i).Rewritten? <==> NameEnd(buf[i..]).Some?)
    && (NameEnd(buf[i..]).Some? ==>
          var r := NameBare(buf, i);
          r.at == i + NameEnd(buf[i..]).value
          && (forall k :: 0 <= k < |buf| ==> r.buf[k] == if i <= k < r.at then LowerChar(buf[k]) else buf[k])
          && (forall k :: i <= k < r.at ==> IsNameLower(r.buf[k])))
  }

  /** A lowercase name character is passed over unchanged. */
  lemma LowerStep(buf: string, i: nat)
    requires i < |buf| && IsNameLower(buf[i])
    requires NameBareSpec(buf, i + 1)
    ensures NameBareSpec(buf, i)
  {
    assert buf[i..][1..] == buf[i + 1..];
  }

  /** An uppercase letter is lowercased in place and passed over. */
  lemma UpperStep(buf: string, i: nat)
    requires i < |buf| && IsUpper(buf[i])
    requires NameBareSpec(buf[i := Lower(buf[i])], i + 1)
    ensures NameBareSpec(buf, i)
  {
    var b1 := buf[i := Lower(buf[i])];
    assert buf[i..][1..] == buf[i + 1..];
    assert b1[i + 1..] == buf[i + 1..];
  }

  method FindEndOfNameBare(a: array<char>, i: nat) returns (end: nat)
    requires i <= a.Length && NameEnd(a[i..]).Some?
    modifies a
    ensures NameBare(old(a[..]), i) == Rewritten(a[..], end)
    decreases a.Length - i
  {
    assert a[i..][1..] == a[i + 1..];
    if IsNameLower(a[i]) {
      end := FindEndOfNameBare(a, i + 1);
    } else if IsUpper(a[i]) {
      a[i] := Lower(a[i]);
      assert a[i + 1..] == old(a[i + 1..]);
      end := FindEndOfNameBare(a, i + 1);
    } else {
      end := i;
    }
  }

  // ---------------------------------------------------------------- find_end_of_str_

  /** The text of a quoted string up to its first unescaped quote, and that quote's index. */
  datatype Quoted = Quoted(text: string, close: nat)

  /** The reference reading of a quoted string: \" stands for ", anything else for itself. */
  function Unquote(s: string): (r: Option<Quoted>)
    ensures r.Some? ==> r.value.close < |s| && s[r.value.close] == '"' && |r.value.text| <= r.value.close
    decreases |s|
  {
    if |s| == 0 then None
    else if s[0] == '\\' && |s| >= 2 && s[1] == '"' then
      match Unquote(s[2..])
      case None => None
      case Some(q) => Some(Quoted(['"'] + q.text, q.close + 2))
    else if s[0] != '"' then
      match Unquote(s[1..])
      case None => None
      case Some(q) => Some(Quoted([s[0]] + q.text, q.close + 1))
    else Some(Quoted([], 0))
  }

  /**
   * find_end_of_str_(p, offset), with the escaped quote written escapeSlot
   * places from where the offset says: every character moves left by
   * -offset, an escape \" becomes " and grows the shift by one, and the
   * first unescaped quote becomes the NUL whose position is returned.
   */
  function StrEnd(buf: string, i: int, offset: int, escapeSlot: int): (r: Rewrite)
    ensures r.Rewritten? ==> |r.buf| == |buf| && i + offset <= r.at < |buf|
    decreases |buf| - i
  {
    if !(0 <= i < |buf|) then OutOfBuffer
    else if buf[i] == '\\' && i + 1 >= |buf| then OutOfBuffer
    else if buf[i] == '\\' && buf[i + 1] == '"' then
      var w := i + offset + escapeSlot;
      if 0 <= w < |buf| then StrEnd(buf[w := '"'], i + 2, offset - 1, escapeSlot) else OutOfBuffer
    else
      var w := i + offset;
      if !(0 <= w < |buf|) then OutOfBuffer
      else if buf[i] != '"' then StrEnd(buf[w := buf[i]], i + 1, offset, escapeSlot)
      else Rewritten(buf[w := NUL], w)
  }

  /** The scan as written stores the escaped quote at p[offset - 1]. */
  function StrEndAsWritten(buf: string, i: int, offset: int): Rewrite
  {
    StrEnd(buf, i, offset, -1)
  }

  /** The scan with the escaped quote stored at p[offset], in place of its backslash. */
  function FindEndOfStr(buf: string, i: int, offset: int): Rewrite
  {
    StrEnd(buf, i, offset, 0)
  }

  /**
   * For the one-escape string "\"", the scan as written leaves the
   * backslash where the quote belongs (and for "a\"b" it overwrites the a);
   * the corrected scan yields the quote.
   */
  lemma StrEndAsWrittenLosesQuote()
    ensures Unquote(['\\', '"', '"', NUL]) == Some(Quoted(['"'], 2))
    ensures StrEndAsWritten(['"', '\\', '"', '"', NUL], 1, 0) == Rewritten(['"', '\\', NUL, '"', NUL], 2)
    ensures FindEndOfStr(['"', '\\', '"', '"', NUL], 1, 0) == Rewritten(['"', '"', NUL, '"', NUL], 2)
  {
    UnquoteEscapedQuote(['"', NUL], Quoted([], 0));
    assert ['\\', '"'] + ['"', NUL] == ['\\', '"', '"', NUL];
    assert ['"'] + [] == ['"'];
    var buf := ['"', '\\', '"', '"', NUL];
    assert buf[0 := '"'] == buf;
    assert StrEnd(buf, 3, -1, -1) == Rewritten(buf[2 := NUL], 2);
    assert buf[2 := NUL] == ['"', '\\', NUL, '"', NUL];
    var b1 := buf[1 := '"'];
    assert StrEnd(b1, 3, -1, 0) == Rewritten(b1[2 := NUL], 2);
    assert b1[2 := NUL] == ['"', '"', NUL, '"', NUL];
  }

  /**
   * r is the buffer with the text q written from start on and a NUL after
   * it, and with every position before start or after the closing quote
   * (the quote being q.close places after from) as it was.
   */
  predicate Compacted(r: Rewrite, buf: string, start: int, q: Quoted, from: int)
  {
    r.Rewritten? && |r.buf| == |buf| && r.at == start + |q.text| && r.at < |r.buf| && r.buf[r.at] == NUL
    && (forall k :: 0 <= k < |q.text| ==> 0 <= start + k < |r.buf| && r.buf[start + k] == q.text[k])
    && (forall k :: 0 <= k < |buf| && (k < start || k > from + q.close) ==> r.buf[k] == buf[k])
  }

  /**
   * The corrected scan succeeds exactly when the string has a closing
   * quote, and then writes the unescaped text at the shifted start followed
   * by a NUL, leaving the buffer before the shifted start and after the
   * closing quote untouched.
   */
  lemma {:induction false} StrEndUnquotes(buf: string, i: nat, offset: int)
    requires i <= |buf| && offset <= 0 && 0 <= i + offset
    ensures FindEndOfStr(buf, i, offset).Rewritten? <==> Unquote(buf[i..]).Some?
    ensures Unquote(buf[i..]).Some? ==>
              Compacted(FindEndOfStr(buf, i, offset), buf, i + offset, Unquote(buf[i..]).value, i)
    decreases |buf| - i
  {
    if i < |buf| && buf[i] == '\\' && i + 1 < |buf| && buf[i + 1] == '"' {
      StrEndUnquotes(buf[i + offset := '"'], i + 2, offset - 1);
      EscapeCase(buf, i, offset);
    } else if i < |buf| && buf[i] != '"' && !(buf[i] == '\\' && i + 1 >= |buf|) {
      StrEndUnquotes(buf[i + offset := buf[i]], i + 1, offset);
      CopyCase(buf, i, offset);
    } else {
      EndCase(buf, i, offset);
    }
  }

  /** The end of the buffer, a lone final backslash, or the closing quote. */
  lemma EndCase(buf: string, i: nat, offset: int)
    requires i <= |buf| && offset <= 0 && 0 <= i + offset
    requires !(i < |buf| && buf[i] == '\\' && i + 1 < |buf| && buf[i + 1] == '"')
    requires !(i < |buf| && buf[i] != '"' && !(buf[i] == '\\' && i + 1 >= |buf|))
    ensures StrEndSpec(buf, i, offset)
  {
    if i == |buf| {
      assert buf[i..] == [];
    } else if buf[i] == '\\' {
      assert buf[i..][1..] == [];
    }
  }

  /** The statement of StrEndUnquotes for one starting point. */
  predicate StrEndSpec(buf: string, i: nat, offset: int)
    requires i <= |buf| && offset <= 0 && 0 <= i + offset
  {
    && (FindEndOfStr(buf, i, offset).Rewritten? <==> Unquote(buf[i..]).Some?)
    && (Unquote(buf[i..]).Some? ==>
          Compacted(FindEndOfStr(buf, i, offset), buf, i + offset, Unquote(buf[i..]).value, i))
  }

  /** An escaped quote: the statement after it gives the statement before it. */
  lemma EscapeCase(buf: string, i: nat, offset: int)
    requires i + 1 < |buf| && offset <= 0 && 0 <= i + offset
    requires buf[i] == '\\' && buf[i + 1] == '"'
    requires StrEndSpec(buf[i + offset := '"'], i + 2, offset - 1)
    ensures StrEndSpec(buf, i, offset)
  {
    var b1 := buf[i + offset := '"'];
    assert b1[i + 2..] == buf[i + 2..];
    assert buf[i..][2..] == buf[i + 2..];
    if Unquote(buf[i + 2..]).Some? {
      EscapeStep(buf, i, offset, Unquote(buf[i + 2..]).value);
    }
  }

  /** Any other character before the closing quote is copied one step to the left. */
  lemma CopyCase(buf: string, i: nat, offset: int)
    requires i < |buf| && offset <= 0 && 0 <= i + offset
    requires buf[i] != '"' && !(buf[i] == '\\' && i + 1 >= |buf|) && !(buf[i] == '\\' && buf[i + 1] == '"')
    requires StrEndSpec(buf[i + offset := buf[i]], i + 1, offset)
    ensures StrEndSpec(buf, i, offset)
  {
    var b1 := buf[i + offset := buf[i]];
    assert b1[i + 1..] == buf[i + 1..];
    assert buf[i..][1..] == buf[i + 1..];
    if Unquote(buf[i + 1..]).Some? {
      CopyStep(buf, i, offset, Unquote(buf[i + 1..]).value);
    }
  }

  lemma EscapeStep(buf: string, i: nat, offset: int, q1: Quoted)
    requires i + 1 < |buf| && offset <= 0 && 0 <= i + offset
    requires buf[i] == '\\' && buf[i + 1] == '"'
    requires Compacted(FindEndOfStr(buf[i + offset := '"'], i + 2, offset - 1), buf[i + offset := '"'], i + offset + 1, q1, i + 2)
    ensures Compacted(FindEndOfStr(buf, i, offset), buf, i + offset, Quoted(['"'] + q1.text, q1.close + 2), i)
  {
    var r := FindEndOfStr(buf, i, offset);
    var q := Quoted(['"'] + q1.text, q1.close + 2);
    forall k | 0 <= k < |q.text|
      ensures 0 <= i + offset + k < |r.buf| && r.buf[i + offset + k] == q.text[k]
    {
      if k > 0 {
        assert r.buf[(i + offset + 1) + (k - 1)] == q1.text[k - 1];
      }
    }
  }

  lemma CopyStep(buf: string, i: nat, offset: int, q1: Quoted)
    requires i < |buf| && offset <= 0 && 0 <= i + offset
    requires buf[i] != '"' && !(buf[i] == '\\' && i + 1 >= |buf|) && !(buf[i] == '\\' && buf[i + 1] == '"')
    requires Compacted(FindEndOfStr(buf[i + offset := buf[i]], i + 1, offset), buf[i + offset := buf[i]], i + offset + 1, q1, i + 1)
    ensures Compacted(FindEndOfStr(buf, i, offset), buf, i + offset, Quoted([buf[i]] + q1.text, q1.close + 1), i)
  {
    var r := FindEndOfStr(buf, i, offset);
    var q := Quoted([buf[i]] + q1.text, q1.close + 1);
    forall k | 0 <= k < |q.text|
      ensures 0 <= i + offset + k < |r.buf| && r.buf[i + offset + k] == q.text[k]
    {
      if k > 0 {
        assert r.buf[(i + offset + 1) + (k - 1)] == q1.text[k - 1];
      }
    }
  }

  /** Escaping for a quoted string: every quote gets a backslash. */
  function Escape(t: string): (r: string)
    ensures |r| >= |t|
    decreases |t|
  {
    if |t| == 0 then []
    else (if t[0] == '"' then ['\\', '"'] else [t[0]]) + Escape(t[1..])
  }

  /** Reading an escaped text back, up to the closing quote, gives the text again. */
  lemma {:induction false} UnquoteEscape(t: string, rest: string)
    requires |t| == 0 || t[|t| - 1] != '\\'
    ensures Unquote(Escape(t) + ['"'] + rest) == Some(Quoted(t, |Escape(t)|))
    decreases |t|
  {
    if |t| == 0 {
      assert Escape(t) + ['"'] + rest == ['"'] + rest;
    } else {
      UnquoteEscape(t[1..], rest);
      UnquoteEscapeStep(t, rest);
    }
  }

  lemma UnquoteEscapeStep(t: string, rest: string)
    requires |t| > 0 && t[|t| - 1] != '\\'
    requires Unquote(Escape(t[1..]) + ['"'] + rest) == Some(Quoted(t[1..], |Escape(t[1..])|))
    ensures Unquote(Escape(t) + ['"'] + rest) == Some(Quoted(t, |Escape(t)|))
  {
    assert [t[0]] + t[1..] == t;
    if t[0] == '"' {
      QuoteHeadStep(t, rest);
    } else {
      OtherHeadStep(t, rest);
    }
  }

  /** A leading quote is escaped, and reads back as a quote. */
  lemma QuoteHeadStep(t: string, rest: string)
    requires |t| > 0 && t[0] == '"' && [t[0]] + t[1..] == t
    requires Unquote(Escape(t[1..]) + ['"'] + rest) == Some(Quoted(t[1..], |Escape(t[1..])|))
    ensures Unquote(Escape(t) + ['"'] + rest) == Some(Quoted(t, |Escape(t)|))
  {
    var e1 := Escape(t[1..]);
    var x := e1 + ['"'] + rest;
    assert Escape(t) == ['\\', '"'] + e1;
    assert Escape(t) + ['"'] + rest == ['\\', '"'] + x;
    UnquoteEscapedQuote(x, Quoted(t[1..], |e1|));
  }

  /** Any other leading character is kept, and reads back as itself. */
  lemma OtherHeadStep(t: string, rest: string)
    requires |t| > 0 && t[0] != '"' && t[|t| - 1] != '\\' && [t[0]] + t[1..] == t
    requires Unquote(Escape(t[1..]) + ['"'] + rest) == Some(Quoted(t[1..], |Escape(t[1..])|))
    ensures Unquote(Escape(t) + ['"'] + rest) == Some(Quoted(t, |Escape(t)|))
  {
    var e1 := Escape(t[1..]);
    var x := e1 + ['"'] + rest;
    assert Escape(t) == [t[0]] + e1;
    assert Escape(t) + ['"'] + rest == [t[0]] + x;
    if t[0] == '\\' {
      assert |t| > 1;
      EscapeHead(t[1..]);
    }
    UnquoteOther(t[0], x, Quoted(t[1..], |e1|));
  }

  lemma EscapeHead(t: string)
    requires |t| > 0
    ensures Escape(t)[0] == (if t[0] == '"' then '\\' else t[0])
  {
  }

  lemma UnquoteEscapedQuote(x: string, q: Quoted)
    requires Unquote(x) == Some(q)
    ensures Unquote(['\\', '"'] + x) == Some(Quoted(['"'] + q.text, q.close + 2))
  {
    assert (['\\', '"'] + x)[2..] == x;
  }

  lemma UnquoteOther(c: char, x: string, q: Quoted)
    requires c != '"' && Unquote(x) == Some(q)
    requires c == '\\' ==> x[0] != '"'
    ensures Unquote([c] + x) == Some(Quoted([c] + q.text, q.close + 1))
  {
    assert ([c] + x)[1..] == x;
  }

  /** find_end_of_str_ with the escape stored in place, as a rewrite of an array. */
  method FindEndOfStrInPlace(a: array<char>, i: nat, offset: int) returns (end: nat)
    requires i <= a.Length && offset <= 0 && 0 <= i + offset
    requires Unquote(a[i..]).Some?
    modifies a
    ensures FindEndOfStr(old(a[..]), i, offset) == Rewritten(a[..], end)
    decreases a.Length - i
  {
    assert a[i..][1..] == a[i + 1..];
    if a[i] == '\\' && i + 1 < a.Length && a[i + 1] == '"' {
      assert a[i..][2..] == a[i + 2..];
      a[i + offset] := '"';
      assert a[i + 2..] == old(a[i + 2..]);
      end := FindEndOfStrInPlace(a, i + 2, offset - 1);
    } else if a[i] != '"' {
      a[i + offset] := a[i];
      assert a[i + 1..] == old(a[i + 1..]);
      end := FindEndOfStrInPlace(a, i + 1, offset);
    } else {
      a[i + offset] := NUL;
      end := i + offset;
    }
  }

  // ---------------------------------------------------------------- find_end_of_name

  /** find_end_of_name(p): a quoted name goes to find_end_of_str_(p + 1), anything else to the bare scan. */
  function FindEndOfNameSpec(buf: string, i: nat): Rewrite
  {
    if i >= |buf| then OutOfBuffer
    else if buf[i] == '"' then FindEndOfStr(buf, i + 1, 0)
    else NameBare(buf, i)
  }

  /** What a name scan needs: a closing quote for a quoted name, a non-name character for a bare one. */
  predicate NameScannable(buf: string, i: nat)
  {
    i < |buf| && if buf[i] == '"' then Unquote(buf[i + 1..]).Some? else NameEnd(buf[i..]).Some?
  }

  lemma NameScannableIff(buf: string, i: nat)
    ensures NameScannable(buf, i) <==> FindEndOfNameSpec(buf, i).Rewritten?
  {
    if i < |buf| {
      if buf[i] == '"' {
        StrEndUnquotes(buf, i + 1, 0);
      } else {
        NameBareMeaning(buf, i);
      }
    }
  }

  method FindEndOfName(a: array<char>, i: nat) returns (end: nat)
    requires NameScannable(a[..], i)
    modifies a
    ensures FindEndOfNameSpec(old(a[..]), i) == Rewritten(a[..], end)
  {
    if a[i] == '"' {
      assert a[..][i + 1..] == a[i + 1..];
      end := FindEndOfStrInPlace(a, i + 1, 0);
    } else {
      assert a[..][i..] == a[i..];
      end := FindEndOfNameBare(a, i);
    }
  }

  // ---------------------------------------------------------------- parse_json_object_

  /** The parser's state: the buffer, the read position p_, depth_, and the instruction list's entries and pos_. */
  datatype ParseState = ParseState(buf: string, p: int, depth: int, ins: seq<Instruction>, pos: int)

  /** One pass of the parser's loop: go round again, return false, or read or write outside a buffer. */
  datatype Outcome = Continue(st: ParseState) | Reject(st: ParseState) | Undefined

  /** The end of the fraction digits c_atof_frac_ consumes. */
  function FracEnd(buf: string, k: nat): (r: Option<nat>)
    ensures r.Some? ==> k <= r.value < |buf|
    decreases |buf| - k
  {
    if k >= |buf| then None
    else if Utilities.IsDigit(buf[k]) then FracEnd(buf, k + 1)
    else Some(k)
  }

  /** The end of what c_atof_int_ consumes: digits, then at a '.' the fraction. */
  function IntEnd(buf: string, k: nat): (r: Option<nat>)
    ensures r.Some? ==> k <= r.value < |buf|
    ensures r.Some? && k < |buf| && (buf[k] == '.' || Utilities.IsDigit(buf[k])) ==> k < r.value
    decreases |buf| - k
  {
    if k >= |buf| then None
    else if buf[k] == '.' then FracEnd(buf, k + 1)
    else if Utilities.IsDigit(buf[k]) then IntEnd(buf, k + 1)
    else Some(k)
  }

  /** The end of what c_atof consumes, after an optional '-'. */
  function AtofEnd(buf: string, k: nat): Option<nat>
    requires k < |buf|
  {
    if buf[k] == '-' then IntEnd(buf, k + 1) else IntEnd(buf, k)
  }

  /** The number test: '-' before '.' or a digit, or a '.' or a digit. None when it reads past the buffer. */
  function NumberStart(buf: string, p: nat): Option<bool>
    requires p < |buf|
  {
    if buf[p] == '-' then
      if p + 1 >= |buf| then None else Some(buf[p + 1] == '.' || Utilities.IsDigit(buf[p + 1]))
    else Some(buf[p] == '.' || Utilities.IsDigit(buf[p]))
  }

  predicate IsU(c: char) { c == 'u' || c == 'U' }
  predicate IsL(c: char) { c == 'l' || c == 'L' }

  /** After an 'n', skip "ull" in any case when all three are there. */
  function NullTail(buf: string, k: nat): (r: Option<nat>)
    ensures r.Some? ==> r.value == k || r.value == k + 3
  {
    if k >= |buf| then None
    else if !IsU(buf[k]) then Some(k)
    else if k + 1 >= |buf| then None
    else if !IsL(buf[k + 1]) then Some(k)
    else if k + 2 >= |buf| then None
    else if !IsL(buf[k + 2]) then Some(k)
    else Some(k + 3)
  }

  /**
   * '{' or ',': advance the list (next()), stamp the depth, scan the name;
   * a ':' after it is replaced by a NUL and the token points at the name
   * (past an opening quote); anything else returns false.
   */
  function KeyStep(buf: string, p: int, depth: int, ins: seq<Instruction>, pos: int): (r: Outcome)
    requires 0 <= p < |buf|
    ensures r.Continue? ==> p < r.st.p <= |buf| && |r.st.buf| == |buf| && |r.st.ins| == |ins|
  {
    var keyStart := p + 1;
    var next := pos + 1;
    if !(0 <= next < |ins|) then Undefined
    else
      var ins1 := ins[next := ins[next].SetDepth(depth)];
      match FindEndOfNameSpec(buf, keyStart)
      case OutOfBuffer => Undefined
      case Rewritten(buf1, e) =>
        if !(keyStart <= e < |buf1| == |buf|) then Undefined
        else if buf1[e] == ':' then
          var buf2 := buf1[e := NUL];
          var token := if buf2[keyStart] == '"' then keyStart + 1 else keyStart;
          Continue(ParseState(buf2, e + 1, depth, ins1[next := ins1[next].SetToken(Some(token))], next))
        else Reject(ParseState(buf1, e, depth, ins1, next))
  }

  /** 'n' or 'N', optionally followed by "ull": the current instruction becomes null. */
  function NullStep(st: ParseState): (r: Outcome)
    requires 0 <= st.p < |st.buf|
    ensures r.Continue? ==> st.p < r.st.p <= |st.buf| && |r.st.buf| == |st.buf| && |r.st.ins| == |st.ins|
  {
    match NullTail(st.buf, st.p + 1)
    case None => Undefined
    case Some(e) =>
      if !(0 <= st.pos < |st.ins|) || e > |st.buf| then Undefined
      else Continue(st.(p := e, ins := st.ins[st.pos := st.ins[st.pos].SetIsNull()]))
  }

  /** A number: the current instruction takes what atof consumed, and p_ moves past it. */
  function NumberStep(st: ParseState): (r: Outcome)
    requires 0 <= st.p < |st.buf| && NumberStart(st.buf, st.p) == Some(true)
    ensures r.Continue? ==> st.p < r.st.p <= |st.buf| && |r.st.buf| == |st.buf| && |r.st.ins| == |st.ins|
  {
    match AtofEnd(st.buf, st.p)
    case None => Undefined
    case Some(e) =>
      if !(0 <= st.pos < |st.ins|) then Undefined
      else Continue(st.(p := e, ins := st.ins[st.pos := st.ins[st.pos].SetNumber(st.buf[st.p..e])]))
  }

  /** One pass of the do-while loop of parse_json_object_, in the order the source tests. */
  function Step(st: ParseState): (r: Outcome)
    ensures r.Continue? ==> st.p < r.st.p <= |st.buf| && |r.st.buf| == |st.buf| && |r.st.ins| == |st.ins|
  {
    if !(0 <= st.p < |st.buf|) then Undefined
    else
      var c := st.buf[st.p];
      if c == '{' then
        if !(0 <= st.pos < |st.ins|) then Undefined
        else KeyStep(st.buf, st.p, st.depth + 1, st.ins[st.pos := st.ins[st.pos].SetIsParent()], st.pos)
      else if c == ',' then KeyStep(st.buf, st.p, st.depth, st.ins, st.pos)
      else if c == 'n' || c == 'N' then NullStep(st)
      else match NumberStart(st.buf, st.p)
        case None => Undefined
        case Some(isNumber) =>
          if isNumber then NumberStep(st)
          else if c == '}' then
            if st.depth - 1 < 0 then Reject(st.(depth := st.depth - 1))
            else Continue(st.(p := st.p + 1, depth := st.depth - 1))
          else if ParserBlank(c) then Continue(st.(p := st.p + 1))
          else Reject(st)
  }

  /** The loop run to its end: it only ever leaves by returning false (or by running off a buffer). */
  function ParseFrom(st: ParseState): (r: Outcome)
    ensures !r.Continue?
    decreases |st.buf| - st.p
  {
    match Step(st)
    case Continue(next) => ParseFrom(next)
    case Reject(last) => Reject(last)
    case Undefined => Undefined
  }

  /** parse_json_object_(o, b, depth): false at once unless the object starts with '{'. */
  function ParseObject(st: ParseState): (r: Outcome)
    ensures !r.Continue?
  {
    if !(0 <= st.p < |st.buf|) then Undefined
    else if st.buf[st.p] != '{' then Reject(st)
    else ParseFrom(st)
  }

  /**
   * A step returns false exactly on a character the parser does not know
   * (the terminating NUL among them), on a '}' that takes the depth below
   * zero, and on a name not followed by ':'.
   */
  lemma StepRejects(st: ParseState)
    requires 0 <= st.p < |st.buf| && !Step(st).Undefined?
    ensures var c := st.buf[st.p];
            Step(st).Reject? <==>
              (c !in "{,nN}-." && !Utilities.IsDigit(c) && !ParserBlank(c))
              || (c == '}' && st.depth <= 0)
              || ((c == '{' || c == ',') && FindEndOfNameSpec(st.buf, st.p + 1).Rewritten?
                  && FindEndOfNameSpec(st.buf, st.p + 1).buf[FindEndOfNameSpec(st.buf, st.p + 1).at] != ':')
              || (c == '-' && NumberStart(st.buf, st.p) == Some(false) && !ParserBlank(c))
    ensures st.buf[st.p] == NUL ==> Step(st) == Reject(st)
  {
  }

  /**
   * A quoted key never parses: find_end_of_str_ returns the NUL it wrote at
   * the closing quote, so the ':' test always fails.
   */
  lemma QuotedKeyRejected(st: ParseState)
    requires 0 <= st.p && st.p + 1 < |st.buf| && (st.buf[st.p] == '{' || st.buf[st.p] == ',')
    requires st.buf[st.p + 1] == '"' && Unquote(st.buf[st.p + 2..]).Some?
    requires 0 <= st.pos && st.pos + 1 < |st.ins|
    ensures Step(st).Reject?
  {
    var ins := if st.buf[st.p] == '{' then st.ins[st.pos := st.ins[st.pos].SetIsParent()] else st.ins;
    var depth := if st.buf[st.p] == '{' then st.depth + 1 else st.depth;
    QuotedNameEndsInNul(st.buf, st.p + 1);
    assert KeyStep(st.buf, st.p, depth, ins, st.pos).Reject?;
  }

  lemma QuotedNameEndsInNul(buf: string, i: nat)
    requires i + 1 < |buf| && buf[i] == '"' && Unquote(buf[i + 1..]).Some?
    ensures FindEndOfNameSpec(buf, i).Rewritten?
    ensures FindEndOfNameSpec(buf, i).buf[FindEndOfNameSpec(buf, i).at] == NUL
  {
    StrEndUnquotes(buf, i + 1, 0);
  }

  /**
   * A bare key that parses leaves the token pointing at its first
   * character, and the name, now lowercase, ends in the NUL that replaced
   * the ':'.
   */
  lemma BareKeyLowercase(st: ParseState)
    requires 0 <= st.p && st.p + 1 < |st.buf| && (st.buf[st.p] == '{' || st.buf[st.p] == ',')
    requires st.buf[st.p + 1] != '"'
    requires Step(st).Continue?
    ensures var next := Step(st).st;
            0 <= next.pos < |next.ins| && next.ins[next.pos].GetToken() == Some(st.p + 1)
            && next.buf[next.p - 1] == NUL
            && forall k :: st.p + 1 <= k < next.p - 1 ==> IsNameLower(next.buf[k])
  {
    var keyStart := st.p + 1;
    assert keyStart < |st.buf|;
    NameBareMeaning(st.buf, keyStart);
    var r := NameBare(st.buf, keyStart);
    assert r.Rewritten?;
    assert r.buf[keyStart] == if keyStart < r.at then LowerChar(st.buf[keyStart]) else st.buf[keyStart];
  }

  /** The '{' / ',' branch of the loop body, from p_++ to the token. */
  method KeyPass(list: InstructionList, a: array<char>, p0: nat, depth: int) returns (p: nat, named: bool)
    requires list.Valid() && p0 < a.Length
    requires !KeyStep(a[..], p0, depth, list.ins[..], list.pos).Undefined?
    modifies a, list, list.ins
    ensures list.Valid()
    ensures var r := KeyStep(old(a[..]), p0, depth, old(list.ins[..]), old(list.pos));
            (named ==> r == Continue(ParseState(a[..], p, depth, list.ins[..], list.pos)))
            && (!named ==> r == Reject(ParseState(a[..], p, depth, list.ins[..], list.pos)))
  {
    p := p0 + 1;
    var keyStart := p;
    var _ := list.Next();
    list.ins[list.pos] := list.ins[list.pos].SetDepth(depth);
    NameScannableIff(a[..], p);
    p := FindEndOfName(a, p);
    if a[p] == ':' {
      a[p] := NUL;
      var token := keyStart;
      if a[keyStart] == '"' {
        token := token + 1;
      }
      list.ins[list.pos] := list.ins[list.pos].SetToken(Some(token));
      p := p + 1;
      named := true;
    } else {
      named := false;
    }
  }

  /** One pass of the loop body: go round again (more) or return false, as Step says. */
  method Pass(list: InstructionList, a: array<char>, p0: nat, depth0: int) returns (p: nat, depth: int, more: bool)
    requires list.Valid()
    requires !Step(ParseState(a[..], p0, depth0, list.ins[..], list.pos)).Undefined?
    modifies a, list, list.ins
    ensures list.Valid()
    ensures var r := Step(ParseState(old(a[..]), p0, depth0, old(list.ins[..]), old(list.pos)));
            (more ==> r == Continue(ParseState(a[..], p, depth, list.ins[..], list.pos)))
            && (!more ==> r == Reject(ParseState(a[..], p, depth, list.ins[..], list.pos)))
  {
    p, depth := p0, depth0;
    if a[p] == '{' {
      depth := depth + 1;
      list.ins[list.pos] := list.ins[list.pos].SetIsParent();
    }
    if a[p] == '{' || a[p] == ',' {
      p, more := KeyPass(list, a, p, depth);
      return;
    }
    if a[p] == 'n' || a[p] == 'N' {
      p := p + 1;
      if IsU(a[p]) && IsL(a[p + 1]) && IsL(a[p + 2]) {
        p := p + 3;
      }
      list.ins[list.pos] := list.ins[list.pos].SetIsNull();
      return p, depth, true;
    }
    if (a[p] == '-' && (a[p + 1] == '.' || Utilities.IsDigit(a[p + 1]))) || a[p] == '.' || Utilities.IsDigit(a[p]) {
      var e := AtofEnd(a[..], p).value;
      list.ins[list.pos] := list.ins[list.pos].SetNumber(a[p..e]);
      return e, depth, true;
    }
    if a[p] == '}' {
      depth := depth - 1;
      if depth < 0 {
        return p, depth, false;
      }
      return p + 1, depth, true;
    }
    if ParserBlank(a[p]) {
      return p + 1, depth, true;
    }
    more := false;
  }

  /**
   * parse_json_object_ over a buffer array and an instruction list: the loop
   * runs the steps above until one returns false; it never returns true.
   */
  method ParseJsonObject(list: InstructionList, a: array<char>, b: nat, depth0: int) returns (ok: bool)
    requires list.Valid()
    requires !ParseObject(ParseState(a[..], b, depth0, list.ins[..], list.pos)).Undefined?
    modifies a, list, list.ins
    ensures !ok
    ensures var r := ParseObject(ParseState(old(a[..]), b, depth0, old(list.ins[..]), old(list.pos)));
            r.Reject? && a[..] == r.st.buf && list.ins[..] == r.st.ins && list.pos == r.st.pos
  {
    ghost var result := ParseObject(ParseState(a[..], b, depth0, list.ins[..], list.pos));
    var p := b;
    var depth := depth0;
    if a[p] != '{' {
      return false;
    }
    while true
      invariant 0 <= p <= a.Length && list.Valid()
      invariant ParseFrom(ParseState(a[..], p, depth, list.ins[..], list.pos)) == result
      decreases a.Length - p
    {
      var more;
      p, depth, more := Pass(list, a, p, depth);
      if !more {
        return false;
      }
    }
  }

  /** The entries after reset(): 1..pos cleared, the rest as they were. */
  function ResetIns(ins: seq<Instruction>, pos: int): (r: seq<Instruction>)
    ensures |r| == |ins|
  {
    seq(|ins|, k requires 0 <= k < |ins| => if 1 <= k <= pos then Cleared() else ins[k])
  }

  /** parse_json(o, b): reset the list, skip leading blanks, parse from depth -1. */
  method ParseJson(list: InstructionList, a: array<char>) returns (ok: bool)
    requires list.Valid() && list.pos < list.ins.Length && Utilities.Terminated(a[..])
    requires !ParseObject(ParseState(a[..], SkipWhitespace(a[..]), -1, ResetIns(list.ins[..], list.pos), 0)).Undefined?
    modifies a, list, list.ins
    ensures !ok
    ensures var r := ParseObject(ParseState(old(a[..]), SkipWhitespace(old(a[..])), -1, ResetIns(old(list.ins[..]), old(list.pos)), 0));
            r.Reject? && a[..] == r.st.buf && list.ins[..] == r.st.ins && list.pos == r.st.pos
  {
    list.Reset();
    assert list.ins[..] == ResetIns(old(list.ins[..]), old(list.pos));
    var p := SkipWhitespace(a[..]);
    ok := ParseJsonObject(list, a, p, -1);
  }
}
