/**
 * `handlers/symbol_index.go`: a map from a symbol name to the list of places
 * that symbol is defined. Lists only grow by appending, and removing the
 * entries of a URI filters every list and drops names left with none, so no
 * name is ever stored with an empty list.
 */
module Symbols {
  import opened Protocol

  datatype SymbolInfo = SymbolInfo(name: string, kind: int, location: Location, detail: string)

  type Index = map<string, seq<SymbolInfo>>

  /** The invariant of the index: no name maps to an empty list. */
  predicate NoEmptyLists(m: Index) {
    forall n | n in m :: m[n] != []
  }

  /** `symbols[name]`: the stored list, and for a name never added the empty (nil) slice. */
  function Lookup(m: Index, name: string): (r: seq<SymbolInfo>)
    ensures name in m ==> r == m[name]
    ensures name !in m ==> r == []
  {
    if name in m then m[name] else []
  }

  /** The index after `Add(name, info)`. */
  function Added(m: Index, name: string, info: SymbolInfo): (r: Index)
    ensures Lookup(r, name) == Lookup(m, name) + [info]
    ensures forall n | n != name :: Lookup(r, n) == Lookup(m, n)
    ensures r.Keys == m.Keys + {name}
  {
    m[name := Lookup(m, name) + [info]]
  }

  /** Adding keeps the invariant: the list added to is not empty afterwards. */
  lemma AddedKeepsNoEmptyLists(m: Index, name: string, info: SymbolInfo)
    requires NoEmptyLists(m)
    ensures NoEmptyLists(Added(m, name, info))
  {
  }

  /** The entries of `infos` that are not located in `uri`, in their original order. */
  function Keep(infos: seq<SymbolInfo>, uri: string): (r: seq<SymbolInfo>)
    ensures |r| <= |infos|
    ensures forall i | 0 <= i < |r| :: r[i].location.uri != uri
    decreases |infos|
  {
    if infos == [] then []
    else
      var last := infos[|infos| - 1];
      Keep(infos[..|infos| - 1], uri) + (if last.location.uri != uri then [last] else [])
  }

  /** Keep works piece by piece: the kept entries of a list come in the order of the list. */
  lemma {:induction false} KeepAppend(a: seq<SymbolInfo>, b: seq<SymbolInfo>, uri: string)
    ensures Keep(a + b, uri) == Keep(a, uri) + Keep(b, uri)
    decreases |b|
  {
    if b == [] {
      assert a + b == a;
    } else {
      var init, last := b[..|b| - 1], b[|b| - 1];
      KeepAppend(a, init, uri);
      assert (a + b)[..|a + b| - 1] == a + init;
      assert (a + b)[|a + b| - 1] == last;
      var x := if last.location.uri != uri then [last] else [];
      calc {
        Keep(a + b, uri);
        Keep(a + init, uri) + x;
        (Keep(a, uri) + Keep(init, uri)) + x;
        Keep(a, uri) + (Keep(init, uri) + x);
        Keep(a, uri) + Keep(b, uri);
      }
    }
  }

  /** An entry is kept exactly when it is in the list and located elsewhere. */
  lemma {:induction false} KeepMember(infos: seq<SymbolInfo>, uri: string, x: SymbolInfo)
    ensures x in Keep(infos, uri) <==> x in infos && x.location.uri != uri
    decreases |infos|
  {
    if infos != [] {
      var init := infos[..|infos| - 1];
      KeepMember(init, uri, x);
      assert infos == init + [infos[|infos| - 1]];
    }
  }

  /** A list with no entry in `uri` is kept whole. */
  lemma {:induction false} KeepAll(infos: seq<SymbolInfo>, uri: string)
    requires forall i | 0 <= i < |infos| :: infos[i].location.uri != uri
    ensures Keep(infos, uri) == infos
    decreases |infos|
  {
    if infos != [] {
      KeepAll(infos[..|infos| - 1], uri);
      assert infos == infos[..|infos| - 1] + [infos[|infos| - 1]];
    }
  }

  /** The index after `Remove(uri)`: every list filtered, names left with nothing dropped. */
  function Removed(m: Index, uri: string): Index {
    map n | n in m && Keep(m[n], uri) != [] :: Keep(m[n], uri)
  }

  /**
   * After Remove no stored entry is located in `uri`, every other entry stays
   * under its name, a name disappears only when all its entries were in `uri`,
   * and the invariant holds.
   */
  lemma RemovedMeaning(m: Index, uri: string)
    ensures NoEmptyLists(Removed(m, uri))
    ensures forall n :: Lookup(Removed(m, uri), n) == Keep(Lookup(m, n), uri)
    ensures forall n, x :: x in Lookup(Removed(m, uri), n) <==> x in Lookup(m, n) && x.location.uri != uri
    ensures Removed(m, uri).Keys <= m.Keys
  {
    forall n, x ensures x in Lookup(Removed(m, uri), n) <==> x in Lookup(m, n) && x.location.uri != uri {
      KeepMember(Lookup(m, n), uri, x);
    }
  }

  /** Removing a URI twice is removing it once. */
  lemma RemoveIdempotent(m: Index, uri: string)
    ensures Removed(Removed(m, uri), uri) == Removed(m, uri)
  {
    var r := Removed(m, uri);
    forall n | n in r ensures Keep(r[n], uri) == r[n] {
      KeepAll(r[n], uri);
    }
  }

  /** Adding an entry located in `uri` and then removing `uri` is the same as removing it alone. */
  lemma RemoveUndoesAdd(m: Index, name: string, info: SymbolInfo)
    ensures Removed(Added(m, name, info), info.location.uri) == Removed(m, info.location.uri)
  {
    var uri := info.location.uri;
    KeepAppend(Lookup(m, name), [info], uri);
    assert Keep([info], uri) == [];
    var a, b := Removed(Added(m, name, info), uri), Removed(m, uri);
    assert Keep(Lookup(m, name) + [info], uri) == Keep(Lookup(m, name), uri);
    assert a.Keys == b.Keys;
  }

  /**
   * Remove part-way: the names in `todo` still hold their original lists, and
   * every other name holds its filtered list, or is gone when that is empty.
   */
  predicate RemovedExcept(original: Index, current: Index, todo: set<string>, uri: string) {
    && todo <= original.Keys && current.Keys <= original.Keys
    && (forall n | n in todo :: n in current && current[n] == original[n])
    && (forall n | n in original && n !in todo :: n in current <==> Keep(original[n], uri) != [])
    && (forall n | n in current && n !in todo :: current[n] == Keep(original[n], uri))
  }

  /** Before any name is filtered, every name is still to do. */
  lemma RemovedExceptAll(m: Index, uri: string)
    ensures RemovedExcept(m, m, m.Keys, uri)
  {
  }

  /** Filtering one more name: its list replaced by the kept entries, or the name dropped when none are kept. */
  lemma RemovedExceptStep(original: Index, current: Index, todo: set<string>, uri: string, name: string)
    requires RemovedExcept(original, current, todo, uri) && name in todo
    ensures var kept := Keep(current[name], uri);
      RemovedExcept(original, if kept != [] then current[name := kept] else current - {name}, todo - {name}, uri)
  {
  }

  /** With nothing left to do, the map is the index after Remove. */
  lemma RemovedExceptNone(original: Index, current: Index, uri: string)
    requires RemovedExcept(original, current, {}, uri)
    ensures current == Removed(original, uri)
  {
    assert current.Keys == Removed(original, uri).Keys;
  }

  /** Two additions under one name give a list of both, in the order added. */
  lemma AddTwice(m: Index, name: string, a: SymbolInfo, b: SymbolInfo)
    requires name !in m
    ensures Lookup(Added(Added(m, name, a), name, b), name) == [a, b]
  {
  }

  class SymbolIndex {
    var symbols: Index

    ghost predicate Valid()
      reads this
    {
      NoEmptyLists(symbols)
    }

    /** NewSymbolIndex: no names. */
    constructor ()
      ensures Valid() && symbols == map[]
    {
      symbols := map[];
    }

    /** Add: `info` appended to the list of `name`. */
    method Add(name: string, info: SymbolInfo)
      requires Valid()
      modifies this
      ensures Valid() && symbols == Added(old(symbols), name, info)
    {
      symbols := symbols[name := Lookup(symbols, name) + [info]];
      AddedKeepsNoEmptyLists(old(symbols), name, info);
    }

    /** Get: the list of `name`, empty for a name never added. */
    method Get(name: string) returns (infos: seq<SymbolInfo>)
      ensures infos == Lookup(symbols, name)
    {
      if name in symbols {
        infos := symbols[name];
      } else {
        infos := [];
      }
    }

    /** Clear: a new, empty map. */
    method Clear()
      modifies this
      ensures Valid() && symbols == map[]
    {
      symbols := map[];
    }

    /** The inner loop of Remove: the entries of `infos` not located in `uri`. */
    static method Filter(infos: seq<SymbolInfo>, uri: string) returns (filtered: seq<SymbolInfo>)
      ensures filtered == Keep(infos, uri)
    {
      filtered := [];
      var i := 0;
      while i < |infos|
        invariant 0 <= i <= |infos|
        invariant filtered == Keep(infos[..i], uri)
      {
        assert infos[..i + 1][..i] == infos[..i];
        if infos[i].location.uri != uri {
          filtered := filtered + [infos[i]];
        }
        i := i + 1;
      }
      assert infos[..i] == infos;
    }

    /**
     * Remove: every name's list filtered, in whatever order the map is walked;
     * a name left with no entries is deleted.
     */
    method Remove(uri: string)
      modifies this
      ensures symbols == Removed(old(symbols), uri)
      ensures Valid()
    {
      ghost var original := symbols;
      var names := symbols.Keys;
      RemovedExceptAll(symbols, uri);
      while names != {}
        invariant RemovedExcept(original, symbols, names, uri)
        decreases names
      {
        var name :| name in names;
        RemovedExceptStep(original, symbols, names, uri, name);
        var filtered := Filter(symbols[name], uri);
        if |filtered| > 0 {
          symbols := symbols[name := filtered];
        } else {
          symbols := symbols - {name};
        }
        names := names - {name};
      }
      RemovedExceptNone(original, symbols, uri);
      RemovedMeaning(original, uri);
    }

    /** GetAll: a new map with the same names and lists; later changes to either do not reach the other. */
    method GetAll() returns (result: Index)
      ensures result == symbols
    {
      result := map[];
      var names := symbols.Keys;
      while names != {}
        invariant names <= symbols.Keys
        invariant forall n :: n in result <==> n in symbols && n !in names
        invariant forall n | n in result :: result[n] == symbols[n]
        decreases names
      {
        var name :| name in names;
        result := result[name := [] + symbols[name]];
        names := names - {name};
      }
    }
  }
}
