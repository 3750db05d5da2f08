/**
 The decoded instruction stream that feeds every analysis of `decode.c`.  Decoding itself is
 foreign code, so a stream is any finite sequence of instructions.
 */
module Instructions {
  import opened Common

  /** A C string pointer.  Equality is pointer equality; `strcmp` compares `text` only. */
  datatype CStr = CStr(addr: nat, text: string)

  /** The pair of pointers that identifies a call-tree node or a profile entry. */
  datatype Key = Key(name: CStr, binary: CStr)

  datatype Sym = Sym(addr: u64, key: Key)

  datatype Class = Call | FarCall | Return | FarReturn | Jump | CondJump | OtherClass

  datatype Insn = Insn(sym: Option<Sym>, ip: u64, cls: Class, tsc: u64)

  predicate IsCall(c: Class) {
    c.Call? || c.FarCall?
  }

  predicate IsReturn(c: Class) {
    c.Return? || c.FarReturn?
  }

  /** Control is at offset 0 of a known symbol. */
  predicate AtEntry(i: Insn) {
    i.sym.Some? && i.ip == i.sym.value.addr
  }

  /** A function entry: offset 0 of a symbol, right after a call. */
  predicate Enters(prev: Class, i: Insn) {
    AtEntry(i) && IsCall(prev)
  }

  /** The class of the last instruction, `OtherClass` (the zero-filled state) before any. */
  function LastClass(s: seq<Insn>): Class {
    if s == [] then OtherClass else s[|s| - 1].cls
  }
}
