/** The symbol table of `symbols.c`: adding, sorting, and the binary search for an address. */
module Symbols {
  import opened Common

  datatype Symbol = Symbol(addr: u64, size: u64, slide: int, name: string, binary: string)

  const GUESSED_EXTENT := 4096

  /** The symbol's own bytes: as many as its size says, or up to a page past its start when it has none. */
  predicate InExtent(s: Symbol, ip: u64) {
    s.addr <= ip && if s.size > 0 then ip - s.addr < s.size else ip - s.addr <= GUESSED_EXTENT
  }

  /** The symbol ends below the top of the address space. */
  predicate EndsBelowTop(s: Symbol) {
    s.addr + s.size < TWO64
  }

  /** What lookup accepts: the address is in the extent, and the end of the extent can be computed in 64 bits. */
  predicate Accepted(s: Symbol, ip: u64) {
    InExtent(s, ip) && (s.size > 0 ==> EndsBelowTop(s))
  }

  /** The code's own wrapped comparison, exactly. */
  lemma {:induction false} AcceptedExactly(s: Symbol, ip: u64)
    requires s.addr <= ip
    ensures Accepted(s, ip) <==> if s.size > 0 then ip < Wrap(s.addr + s.size) else ip - s.addr <= 4096
  {
  }

  /** A symbol that reaches the top of the address space is not found even at its first byte. */
  lemma {:induction false} TopSymbolLost(name: string, binary: string)
    ensures var s := Symbol(0xffff_ffff_ffff_f000, 0x1000, 0, name, binary);
            InExtent(s, s.addr) && !Accepted(s, s.addr) && !Answer([s], s.addr, Some(s))
  {
  }

  ghost predicate Sorted(es: seq<Symbol>) {
    forall i, j :: 0 <= i < j < |es| ==> es[i].addr <= es[j].addr
  }

  /** `s` starts at the greatest inserted address that is not above `ip`. */
  ghost predicate Nearest(es: seq<Symbol>, ip: u64, s: Symbol) {
    s in es && s.addr <= ip && forall t :: t in es && t.addr <= ip ==> t.addr <= s.addr
  }

  /** What a linear scan over the inserted symbols may answer. */
  ghost predicate Answer(es: seq<Symbol>, ip: u64, r: Option<Symbol>) {
    match r
    case Some(s) => Nearest(es, ip, s) && Accepted(s, ip)
    case None => (forall t :: t in es ==> t.addr > ip) || exists s :: Nearest(es, ip, s) && !Accepted(s, ip)
  }

  /** The symbols that were really inserted: those with a name. */
  function Named(adds: seq<Symbol>): seq<Symbol> {
    if adds == [] then []
    else Named(adds[..|adds| - 1]) + if adds[|adds| - 1].name == "" then [] else [adds[|adds| - 1]]
  }

  lemma {:induction false} NamedExactly(adds: seq<Symbol>, s: Symbol)
    ensures s in Named(adds) <==> s in adds && s.name != ""
  {
    if adds != [] {
      NamedExactly(adds[..|adds| - 1], s);
      assert adds == adds[..|adds| - 1] + [adds[|adds| - 1]];
    }
  }

  class SymTable {
    var entries: seq<Symbol>

    /** `sym_table_init`. */
    constructor ()
      ensures entries == []
    {
      entries := [];
    }

    /** `sym_table_add`: a nameless symbol is refused. */
    method Add(s: Symbol)
      modifies this
      ensures entries == old(entries) + Named([s])
    {
      assert [s][..0] == [];
      if s.name == "" {
        return;
      }
      entries := entries + [s];
    }

    /** `sym_table_sort`; the library sort may order equal addresses in any way. */
    method Sort()
      modifies this
      ensures Sorted(entries) && multiset(entries) == multiset(old(entries))
    {
      if |entries| > 1 {
        entries := SortByAddress(entries);
      }
    }

    /** `sym_table_lookup`. */
    method Lookup(ip: u64) returns (r: Option<Symbol>)
      requires Sorted(entries)
      ensures Answer(entries, ip, r)
    {
      if |entries| == 0 {
        return None;
      }
      var lo, hi, best := 0, |entries| - 1, -1;
      while lo <= hi
        invariant 0 <= lo <= hi + 1 <= |entries| && best == lo - 1
        invariant forall i :: 0 <= i < lo ==> entries[i].addr <= ip
        invariant forall i :: hi < i < |entries| ==> entries[i].addr > ip
        decreases hi - lo
      {
        var mid := lo + (hi - lo) / 2;
        if entries[mid].addr <= ip {
          best := mid;
          lo := mid + 1;
        } else {
          hi := mid - 1;
        }
      }
      if best < 0 {
        return None;
      }
      assert Nearest(entries, ip, entries[best]);
      AcceptedExactly(entries[best], ip);
      if entries[best].size > 0 {
        if ip >= Wrap(entries[best].addr + entries[best].size) {
          return None;
        }
      } else {
        if ip - entries[best].addr > GUESSED_EXTENT {
          return None;
        }
      }
      return Some(entries[best]);
    }
  }

  /** Where an address goes in a sorted list. */
  method InsertionPoint(es: seq<Symbol>, addr: u64) returns (k: nat)
    requires Sorted(es)
    ensures k <= |es|
    ensures forall i :: 0 <= i < k ==> es[i].addr <= addr
    ensures forall i :: k <= i < |es| ==> addr < es[i].addr
  {
    k := |es|;
    while k > 0 && addr < es[k - 1].addr
      invariant k <= |es|
      invariant forall i :: k <= i < |es| ==> addr < es[i].addr
    {
      k := k - 1;
    }
  }

  lemma Inserted(es: seq<Symbol>, k: nat, s: Symbol)
    requires Sorted(es) && k <= |es|
    requires forall i :: 0 <= i < k ==> es[i].addr <= s.addr
    requires forall i :: k <= i < |es| ==> s.addr < es[i].addr
    ensures Sorted(es[..k] + [s] + es[k..]) && multiset(es[..k] + [s] + es[k..]) == multiset(es) + multiset{s}
  {
    assert es == es[..k] + es[k..];
  }

  /** Stands for the library `qsort` with the address comparison. */
  method SortByAddress(es: seq<Symbol>) returns (r: seq<Symbol>)
    ensures Sorted(r) && multiset(r) == multiset(es)
  {
    hide Sorted;
    r := [];
    assert Sorted(r) by {
      NothingSorted();
    }
    for i := 0 to |es|
      invariant Sorted(r) && multiset(r) == multiset(es[..i])
    {
      var k := InsertionPoint(r, es[i].addr);
      Inserted(r, k, es[i]);
      assert es[..i + 1] == es[..i] + [es[i]];
      r := r[..k] + [es[i]] + r[k..];
    }
    assert es[..|es|] == es;
  }

  lemma NothingSorted()
    ensures Sorted([])
  {
  }

  /** Only membership matters to the answer, so sorting does not change it. */
  lemma {:induction false} AnswerOfSameSymbols(es: seq<Symbol>, fs: seq<Symbol>, ip: u64, r: Option<Symbol>)
    requires forall s :: s in es <==> s in fs
    ensures Answer(es, ip, r) <==> Answer(fs, ip, r)
  {
  }

  /**
   When all symbols have a size, end below the top and do not overlap, the answer is the one symbol
   whose bytes hold the address, and there is none exactly when no symbol's do.
   */
  lemma {:induction false} AnswerIsHolder(es: seq<Symbol>, ip: u64, r: Option<Symbol>)
    requires Answer(es, ip, r)
    requires forall s :: s in es ==> s.size > 0 && EndsBelowTop(s)
    requires forall s, t :: s in es && t in es && s != t ==> s.addr + s.size <= t.addr || t.addr + t.size <= s.addr
    ensures forall s :: s in es && InExtent(s, ip) ==> r == Some(s)
    ensures r.Some? ==> r.value in es && InExtent(r.value, ip)
  {
  }

  /** Any adds, a sort and a lookup answer like a linear scan over what was added. */
  method Resolve(adds: seq<Symbol>, ip: u64) returns (r: Option<Symbol>)
    ensures Answer(Named(adds), ip, r)
  {
    var table := new SymTable();
    for i := 0 to |adds|
      invariant fresh(table) && table.entries == Named(adds[..i])
    {
      table.Add(adds[i]);
      assert adds[..i + 1][..i] == adds[..i] && [adds[i]][..0] == [];
    }
    assert adds[..|adds|] == adds;
    table.Sort();
    forall s
      ensures s in table.entries <==> s in Named(adds)
    {
      assert s in table.entries <==> s in multiset(table.entries);
      assert s in Named(adds) <==> s in multiset(Named(adds));
    }
    r := table.Lookup(ip);
    AnswerOfSameSymbols(table.entries, Named(adds), ip, r);
  }
}
