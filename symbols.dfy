/**
 * The symbol tables: the live one keyed by variable name, the legacy one by a
 * sequential id. Each registration allocates fresh storage for its type.
 */
module SymbolTables {
  import opened DataTypes
  import opened Exceptions
  import opened StaticMemories
  import JavaInt

  /** A symbol's name, type and storage offset. */
  datatype Entry = Entry(name: string, dtype: DataType, offset: int)

  /** What a lookup hands back: the type and the offset. */
  datatype SymbolParams = SymbolParams(dtype: DataType, offset: int)

  /** The bytes a value of type `t` occupies (none for a string immediate). */
  function Extent(t: DataType): nat
  {
    if Size(t) > 0 then Size(t) else 0
  }

  /** The storage ranges of two entries do not overlap. */
  predicate Apart(a: Entry, b: Entry)
  {
    a.offset + Extent(a.dtype) <= b.offset || b.offset + Extent(b.dtype) <= a.offset
  }

  /** The unnamed `IllegalArgumentException` of a failed lookup. */
  const UNKNOWN_SYMBOL: Exception := IllegalArgument("")

  class SymbolTable {
    const memory: StaticMemory
    var catalog: map<string, Entry>

    constructor (memory: StaticMemory)
      ensures this.memory == memory && catalog == map[]
    {
      this.memory := memory;
      catalog := map[];
    }

    /** Every entry lies in allocated storage, and no two entries overlap. */
    ghost predicate Laid()
      reads this, memory
    {
      && memory.Valid()
      && (forall n :: n in catalog ==>
            0 <= catalog[n].offset && catalog[n].offset + Extent(catalog[n].dtype) <= memory.nextAddr)
      && (forall n, m :: n in catalog && m in catalog && n != m ==> Apart(catalog[n], catalog[m]))
    }

    /** `registerVariable(name, t)`: allocates storage for `t` and records the
        name with its type and offset, replacing an earlier entry of that name.
        With a type of non-negative size, entries stay in allocated storage and
        apart. */
    method RegisterVariable(name: string, t: DataType)
      modifies this, memory
      ensures catalog == old(catalog)[name := Entry(name, t, old(memory.nextAddr))]
      ensures memory.nextAddr == old(memory.nextAddr) + Size(t)
      ensures |memory.store| == old(|memory.store|) + Extent(t)
      ensures memory.store[..old(|memory.store|)] == old(memory.store)
      ensures old(Laid()) && Size(t) >= 0 ==> Laid()
    {
      var offset := memory.Allocate(t);
      catalog := catalog[name := Entry(name, t, offset)];
    }

    /** `getVariableParams(name)`: the recorded type and offset, or an
        IllegalArgumentException for a name never registered. */
    method GetVariableParams(name: string) returns (r: Try<SymbolParams>)
      ensures name in catalog ==> r == Ok(SymbolParams(catalog[name].dtype, catalog[name].offset))
      ensures name !in catalog ==> r == Thrown(UNKNOWN_SYMBOL)
    {
      if name !in catalog {
        return Thrown(UNKNOWN_SYMBOL);
      }
      var entry := catalog[name];
      return Ok(SymbolParams(entry.dtype, entry.offset));
    }

    /** `isRegistered(name)`. */
    predicate IsRegistered(name: string)
      reads this
    {
      name in catalog
    }
  }

  /** A registered Int4 variable of a table whose entries are laid out can be
      stored to and fetched from without failure, and fetches what was stored. */
  lemma RegisteredInt4Roundtrip(table: SymbolTable, name: string, v: JavaInt.int32)
    requires table.Laid() && name in table.catalog && table.catalog[name].dtype == Int4
    ensures var o := table.catalog[name].offset;
      Put(table.memory.store, o, Encode(v)).1 == None
      && Load(Put(table.memory.store, o, Encode(v)).0, o) == Ok(v)
  {
    LoadStored(table.memory.store, table.catalog[name].offset, v);
  }

  /** The legacy table: entries keyed by the ids 0, 1, 2, ... handed out in
      registration order; names are not checked, so one name can hold several
      ids. */
  class LegacySymbolTable {
    const memory: StaticMemory
    var nextId: int
    var catalog: map<int, Entry>

    ghost predicate Valid()
      reads this
    {
      0 <= nextId && forall id :: id in catalog <==> 0 <= id < nextId
    }

    constructor (memory: StaticMemory)
      ensures Valid() && this.memory == memory && nextId == 0 && catalog == map[]
    {
      this.memory := memory;
      nextId := 0;
      catalog := map[];
    }

    /** `registerSymbol(name, t)`: allocates storage, records the entry under the
        next id and returns that id. */
    method RegisterSymbol(name: string, t: DataType) returns (id: int)
      requires Valid()
      modifies this, memory
      ensures Valid()
      ensures id == old(nextId) && nextId == id + 1
      ensures catalog == old(catalog)[id := Entry(name, t, old(memory.nextAddr))]
      ensures id !in old(catalog)
      ensures memory.nextAddr == old(memory.nextAddr) + Size(t)
      ensures |memory.store| == old(|memory.store|) + Extent(t)
    {
      var offset := memory.Allocate(t);
      catalog := catalog[nextId := Entry(name, t, offset)];
      id := nextId;
      nextId := nextId + 1;
    }

    /** `getSymbolParams(id)`: the registered type and offset, or an
        IllegalArgumentException for an id not handed out. */
    method GetSymbolParams(id: int) returns (r: Try<SymbolParams>)
      requires Valid()
      ensures 0 <= id < nextId ==> r == Ok(SymbolParams(catalog[id].dtype, catalog[id].offset))
      ensures !(0 <= id < nextId) ==> r == Thrown(UNKNOWN_SYMBOL)
    {
      if id !in catalog {
        return Thrown(UNKNOWN_SYMBOL);
      }
      var entry := catalog[id];
      return Ok(SymbolParams(entry.dtype, entry.offset));
    }
  }
}
