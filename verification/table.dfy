/**
 * `RestoreInProgress`: the cluster-state record of the restores that are
 * running, keyed by restore uuid, and its Builder.
 */
module RestoreTable {
  import opened Wrappers
  import opened RestoreEntry

  /** Every entry is stored under its own uuid. */
  predicate KeyedByUuid(entries: map<string, Entry>) {
    forall u :: u in entries ==> entries[u].uuid == u
  }

  lemma HasKeyUnlessEmpty(t: RestoreInProgress)
    ensures t.entries != map[] ==> exists u :: t.Get(u).Some?
  {
    if t.entries != map[] {
      var u :| u in t.entries;
      assert t.Get(u).Some?;
    }
  }

  datatype RestoreInProgress = RestoreInProgress(entries: map<string, Entry>) {

    /** `get(uuid)`: the entry of a running restore, None (Java's null) for any other uuid. */
    function Get(uuid: string): (r: Option<Entry>)
      ensures r.Some? <==> uuid in entries
      ensures r.Some? ==> r.value == entries[uuid]
      ensures KeyedByUuid(entries) && r.Some? ==> r.value.uuid == uuid
    {
      if uuid in entries then Some(entries[uuid]) else None
    }

    /** `isEmpty()`: no uuid has an entry. */
    predicate IsEmpty()
      ensures IsEmpty() <==> forall u :: Get(u).None?
    {
      HasKeyUnlessEmpty(this);
      entries == map[]
    }

    /** `equals`: two tables are equal exactly when they hold the same entries. */
    function Equals(other: RestoreInProgress): (r: bool)
      ensures r <==> this == other
    {
      entries == other.entries
    }
  }

  /** Every table the class can build keeps each entry under its own uuid. */
  type Table = t: RestoreInProgress | KeyedByUuid(t.entries) witness RestoreInProgress(map[])

  /** The shared empty table. */
  const EMPTY: Table := RestoreInProgress(map[])

  /** EMPTY holds no entry, and every table that holds none equals it. */
  lemma EmptyIsTheEmptyTable(t: Table)
    ensures EMPTY.IsEmpty()
    ensures t.IsEmpty() <==> t == EMPTY
  {
  }

  /** `RestoreInProgress.Builder`: a mutable map from uuid to entry. */
  class Builder {
    var entries: map<string, Entry>

    ghost predicate Valid()
      reads this
    {
      KeyedByUuid(entries)
    }

    /** `new Builder()` */
    constructor ()
      ensures Valid() && entries == map[]
    {
      entries := map[];
    }

    /** `new Builder(restoreInProgress)`: starts from exactly the table's entries. */
    constructor FromTable(t: Table)
      ensures Valid() && entries == t.entries
    {
      entries := t.entries;
    }

    /** `add(entry)`: stores the entry under its uuid, replacing any entry already there. */
    method Add(e: Entry)
      requires Valid()
      modifies this
      ensures Valid()
      ensures entries == old(entries)[e.uuid := e]
    {
      entries := entries[e.uuid := e];
    }

    /**
     * `build()`: the shared EMPTY when no entry is held, otherwise a table that
     * answers `get` with the builder's entries.
     */
    method Build() returns (t: Table)
      requires Valid()
      ensures t.IsEmpty() <==> entries == map[]
      ensures entries == map[] ==> t == EMPTY
      ensures forall u :: t.Get(u) == if u in entries then Some(entries[u]) else None
    {
      if entries == map[] {
        t := EMPTY;
      } else {
        t := RestoreInProgress(entries);
      }
    }
  }

  /** Two adds under one uuid: the built table holds the second entry only. */
  method AddSameUuidTwice(first: Entry, second: Entry) returns (t: Table)
    requires first.uuid == second.uuid
    ensures t.Get(second.uuid) == Some(second)
    ensures forall u :: u != second.uuid ==> t.Get(u).None?
    ensures !t.IsEmpty()
  {
    var b := new Builder();
    b.Add(first);
    b.Add(second);
    t := b.Build();
  }

  /** An add leaves the entries of every other uuid as they were in the seed table. */
  method AddToSeeded(seed: Table, e: Entry) returns (t: Table)
    ensures t.Get(e.uuid) == Some(e)
    ensures forall u :: u != e.uuid ==> t.Get(u) == seed.Get(u)
    ensures !t.IsEmpty()
  {
    var b := new Builder.FromTable(seed);
    b.Add(e);
    t := b.Build();
  }

  /** A builder seeded with a table and given nothing else rebuilds an equal table. */
  method Rebuild(seed: Table) returns (t: Table)
    ensures t == seed
    ensures seed.IsEmpty() ==> t == EMPTY
  {
    var b := new Builder.FromTable(seed);
    t := b.Build();
  }

  /** `new Builder().build()` is the shared empty table. */
  method BuildNothing() returns (t: Table)
    ensures t == EMPTY && t.IsEmpty()
  {
    var b := new Builder();
    t := b.Build();
  }
}
