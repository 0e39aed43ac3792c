/** The bounded cache of read-only SQLite connections (`SQLiteHandles` in internal/adapters/sqlite.go). */
module SqliteHandles {
  import opened Wrappers
  import opened Paths

  /** What stat reports: device and inode, and whether the platform exposes them. */
  datatype FileIdentity = FileIdentity(device: nat, inode: nat, identifiable: bool)

  /** `serial` tells connections apart. */
  datatype Connection = Connection(serial: nat, path: Path)

  /** An element of the recency list. `serial` is its address: elements are compared by it, not by their value. */
  datatype Element = Element(serial: nat, path: Path)

  datatype Handle = Handle(db: Connection, path: Path, file: FileIdentity, inserted: Element)

  // ----- The list of the container/list package, as far as it is used -----

  function Remove(order: seq<Element>, e: Element): seq<Element> {
    if order == [] then []
    else if order[0] == e then order[1..]
    else [order[0]] + Remove(order[1..], e)
  }

  function MoveToBack(order: seq<Element>, e: Element): seq<Element> {
    if e in order then Remove(order, e) + [e] else order
  }

  // ----- Recency -----

  function PathsOf(order: seq<Element>): seq<Path> {
    seq(|order|, i requires 0 <= i < |order| => order[i].path)
  }

  function Without(paths: seq<Path>, path: Path): seq<Path> {
    if paths == [] then []
    else if paths[0] == path then paths[1..]
    else [paths[0]] + Without(paths[1..], path)
  }

  /** A use puts the path last; a path that was not live displaces the first one of a full cache. */
  function Used(paths: seq<Path>, path: Path, max: nat): seq<Path> {
    var others := Without(paths, path);
    (if |others| >= max && others != [] then others[1..] else others) + [path]
  }

  predicate Distinct(order: seq<Element>) {
    forall i, j :: 0 <= i < j < |order| ==> order[i].path != order[j].path && order[i].serial != order[j].serial
  }

  lemma {:induction false} RemoveFacts(order: seq<Element>, e: Element)
    requires Distinct(order) && e in order
    ensures |Remove(order, e)| == |order| - 1 && Distinct(Remove(order, e))
    ensures forall x :: x in Remove(order, e) <==> x in order && x != e
    ensures PathsOf(Remove(order, e)) == Without(PathsOf(order), e.path)
  {
    var paths := PathsOf(order);
    assert paths[1..] == PathsOf(order[1..]);
    if order[0] == e {
    } else {
      assert e in order[1..];
      RemoveFacts(order[1..], e);
      var rest := Remove(order[1..], e);
      assert order[0] in order;
      assert forall i :: 0 <= i < |rest| ==> rest[i] in order[1..];
      assert PathsOf([order[0]] + rest) == [order[0].path] + PathsOf(rest);
    }
  }

  lemma WithoutAbsent(paths: seq<Path>, path: Path)
    requires path !in paths
    ensures Without(paths, path) == paths
  {
  }

  /** The map and the list describe the same live paths, with consistent back-pointers. */
  predicate Linked(entries: map<Path, Handle>, order: seq<Element>, issued: nat) {
    && (forall e :: e in order ==> e.path in entries && entries[e.path].inserted == e && e.serial < issued)
    && (forall p :: p in entries ==>
      entries[p].path == p && entries[p].inserted in order && entries[p].inserted.path == p)
  }

  /** Every open connection is reachable, and every reachable one is open. */
  predicate NoLeak(entries: map<Path, Handle>, open: set<Connection>) {
    && (forall p :: p in entries ==> entries[p].db in open && entries[p].db.path == p)
    && (forall c :: c in open ==> c.path in entries && entries[c.path].db == c)
  }

  predicate Sound(entries: map<Path, Handle>, order: seq<Element>, issued: nat, open: set<Connection>) {
    Distinct(order) && Linked(entries, order, issued) && NoLeak(entries, open)
  }

  lemma RemovalLinked(entries: map<Path, Handle>, order: seq<Element>, issued: nat, path: Path)
    requires Distinct(order) && Linked(entries, order, issued) && path in entries
    ensures
      var rest := Remove(order, entries[path].inserted);
      && Distinct(rest) && Linked(entries - {path}, rest, issued) && |rest| == |order| - 1
      && PathsOf(rest) == Without(PathsOf(order), path)
  {
    RemoveFacts(order, entries[path].inserted);
  }

  lemma RemovalLeaksNothing(entries: map<Path, Handle>, open: set<Connection>, path: Path)
    requires NoLeak(entries, open) && path in entries
    ensures NoLeak(entries - {path}, open - {entries[path].db})
  {
  }

  lemma RotationLinked(entries: map<Path, Handle>, order: seq<Element>, issued: nat, path: Path)
    requires Distinct(order) && Linked(entries, order, issued) && path in entries
    ensures
      var rotated := MoveToBack(order, entries[path].inserted);
      && Distinct(rotated) && Linked(entries, rotated, issued) && |rotated| == |order|
      && PathsOf(rotated) == Without(PathsOf(order), path) + [path]
      && |Without(PathsOf(order), path)| == |order| - 1
  {
    var e := entries[path].inserted;
    RemoveFacts(order, e);
    AppendedLast(Remove(order, e), e);
    assert MoveToBack(order, e) == Remove(order, e) + [e];
    assert forall x :: x in Remove(order, e) + [e] <==> x in order;
  }

  /** Appending an element that shares neither path nor address with the others. */
  lemma AppendedLast(order: seq<Element>, e: Element)
    requires Distinct(order)
    requires forall x :: x in order ==> x.path != e.path && x.serial != e.serial
    ensures Distinct(order + [e]) && PathsOf(order + [e]) == PathsOf(order) + [e.path]
  {
    assert forall i :: 0 <= i < |order| ==> order[i] in order;
  }

  lemma InsertionLinked(entries: map<Path, Handle>, order: seq<Element>, issued: nat, handle: Handle)
    requires Distinct(order) && Linked(entries, order, issued)
    requires handle.path !in entries && handle.inserted == Element(issued, handle.path)
    ensures
      var longer := order + [handle.inserted];
      && Distinct(longer) && Linked(entries[handle.path := handle], longer, issued + 1)
      && PathsOf(longer) == PathsOf(order) + [handle.path]
  {
    AppendedLast(order, handle.inserted);
    assert forall x :: x in order + [handle.inserted] <==> x in order || x == handle.inserted;
  }

  lemma InsertionLeaksNothing(entries: map<Path, Handle>, open: set<Connection>, handle: Handle)
    requires NoLeak(entries, open) && handle.path !in entries && handle.db.path == handle.path
    ensures NoLeak(entries[handle.path := handle], open + {handle.db})
  {
  }

  lemma NotListed(entries: map<Path, Handle>, order: seq<Element>, issued: nat, path: Path)
    requires Linked(entries, order, issued) && path !in entries
    ensures Without(PathsOf(order), path) == PathsOf(order)
  {
    assert forall i :: 0 <= i < |order| ==> order[i] in order;
    WithoutAbsent(PathsOf(order), path);
  }

  lemma SameSize(entries: map<Path, Handle>, order: seq<Element>, issued: nat)
    requires Distinct(order) && Linked(entries, order, issued)
    ensures |entries| == |order|
  {
    ListSize(order, entries.Keys);
  }

  class SQLiteHandles {
    var entries: map<Path, Handle>
    var order: seq<Element>
    const max: nat
    /** What closing a connection reports. */
    const closeError: Connection -> Option<string>
    /** How many addresses of list elements were handed out so far. */
    var issued: nat
    /** The connections this cache opened and has not closed. */
    ghost var open: set<Connection>

    ghost predicate Valid()
      reads this
    {
      max > 0 && |order| <= max && Sound(entries, order, issued, open)
    }

    /** The live paths, least recently used first. */
    ghost function Recency(): seq<Path>
      reads this
    {
      PathsOf(order)
    }

    constructor (max: int, closeError: Connection -> Option<string>)
      ensures this.closeError == closeError
      ensures Valid() && Recency() == [] && this.max == if max <= 0 then 8 else max
    {
      this.max := if max <= 0 then 8 else max;
      this.closeError := closeError;
      entries := map[];
      order := [];
      issued := 0;
      open := {};
    }

    /** Whatever closing the connection reports, the handle is gone. */
    method RemoveLocked(path: Path) returns (error: Option<string>)
      requires Valid() && path in entries
      modifies this
      ensures error == closeError(old(entries)[path].db)
      ensures Valid() && issued == old(issued)
      ensures entries == old(entries) - {path} && open == old(open) - {old(entries)[path].db}
      ensures Recency() == Without(old(Recency()), path) && |order| == old(|order|) - 1
    {
      RemovalLinked(entries, order, issued, path);
      RemovalLeaksNothing(entries, open, path);
      var handle := entries[path];
      error := closeError(handle.db);
      ghost var stillOpen := open - {handle.db};
      var rest, others := Remove(order, handle.inserted), entries - {path};
      assert Sound(others, rest, issued, stillOpen);
      open, order, entries := stillOpen, rest, others;
    }

    method Drop(path: Path)
      requires Valid()
      modifies this
      ensures Valid() && path !in entries && Recency() == Without(old(Recency()), path)
      ensures entries == old(entries) - {path} && open <= old(open)
    {
      if path in entries {
        var _ := RemoveLocked(path);
      } else {
        NotListed(entries, order, issued, path);
      }
    }

    /** Evicts the least recently used connection of a full cache. */
    method MakeRoom()
      requires Valid()
      modifies this
      ensures Valid() && |order| < max && open <= old(open)
      ensures Recency() == if |old(Recency())| >= max then old(Recency())[1..] else old(Recency())
      ensures forall p :: p in entries ==> p in old(entries) && entries[p] == old(entries)[p]
    {
      SameSize(entries, order, issued);
      if |entries| >= max && |order| > 0 {
        var oldest := order[0];
        assert oldest in order;
        assert Recency()[0] == oldest.path;
        var _ := RemoveLocked(oldest.path);
        // The source removes the list element a second time here, which finds nothing.
      }
    }

    method Insert(path: Path, file: FileIdentity, db: Connection)
      requires Valid() && path !in entries && |order| < max
      requires db.path == path && db !in open
      modifies this
      ensures Valid() && Recency() == old(Recency()) + [path]
      ensures path in entries && entries[path].db == db && entries[path].file == file
      ensures forall p :: p in entries && p != path ==> p in old(entries) && entries[p] == old(entries)[p]
      ensures open == old(open) + {db}
    {
      var handle := Handle(db, path, file, Element(issued, path));
      InsertionLinked(entries, order, issued, handle);
      InsertionLeaksNothing(entries, open, handle);
      var longer, more := order + [handle.inserted], entries[path := handle];
      ghost var nowOpen := open + {db};
      assert Sound(more, longer, issued + 1, nowOpen);
      open, order, entries, issued := nowOpen, longer, more, issued + 1;
    }

    method MoveLast(path: Path)
      requires Valid() && path in entries
      modifies this
      ensures Valid() && entries == old(entries) && open == old(open)
      ensures Recency() == Used(old(Recency()), path, max)
    {
      RotationLinked(entries, order, issued, path);
      var rotated := MoveToBack(order, entries[path].inserted);
      assert Sound(entries, rotated, issued, open);
      order := rotated;
    }

    /** A cached connection is served again only for the file that is there now, and only while it answers. `stat` is
        what stat reports, `alive` whether a ping of the cached connection succeeds, `connected` what opening the file
        anew yields: a connection of its own, or nothing. */
    method Get(path: Path, stat: Option<FileIdentity>, alive: bool, connected: Option<Connection>)
      returns (db: Option<Connection>)
      requires Valid()
      requires connected.Some? ==> connected.value.path == path && connected.value !in open
      modifies this
      ensures Valid()
      ensures
        db == if stat.None? then None
              else if path in old(entries) && stat.value.identifiable && alive &&
                      old(entries)[path].file.device == stat.value.device &&
                      old(entries)[path].file.inode == stat.value.inode then Some(old(entries)[path].db)
              else connected
      ensures db.Some? ==> db.value in open && path in entries && entries[path].db == db.value
      ensures db.Some? ==> Recency() == Used(old(Recency()), path, max)
      ensures db.None? ==> Recency() == Without(old(Recency()), path)
      ensures forall p :: p in entries && p != path ==> p in old(entries) && entries[p] == old(entries)[p]
    {
      if stat.None? {
        Drop(path);
        return None;
      }
      if path in entries && stat.value.identifiable && alive && entries[path].file.device == stat.value.device &&
         entries[path].file.inode == stat.value.inode {
        MoveLast(path);
        return Some(entries[path].db);
      }
      Drop(path);
      if connected.None? {
        return None;
      }
      MakeRoom();
      Insert(path, stat.value, connected.value);
      db := connected;
    }

    /** Closes every connection; the cache stays usable. The order of a map iteration is arbitrary. */
    method Close() returns (firstError: Option<string>)
      requires Valid()
      modifies this
      ensures Valid() && entries == map[] && order == [] && open == {}
      ensures firstError.None? <==> forall p :: p in old(entries) ==> closeError(old(entries)[p].db).None?
      ensures firstError.Some? ==> exists p :: p in old(entries) && closeError(old(entries)[p].db) == firstError
    {
      firstError := None;
      ghost var start := entries;
      while entries != map[]
        invariant Valid()
        invariant forall p :: p in entries ==> p in start && entries[p] == start[p]
        invariant firstError.None? ==> forall p :: p in start && p !in entries ==> closeError(start[p].db).None?
        invariant firstError.Some? ==> exists p :: p in start && closeError(start[p].db) == firstError
        decreases |order|
      {
        var path :| path in entries;
        var error := RemoveLocked(path);
        if firstError.None? {
          firstError := error;
        }
      }
      SameSize(entries, order, issued);
    }
  }

  lemma {:induction false} ListSize(order: seq<Element>, paths: set<Path>)
    requires Distinct(order)
    requires forall e :: e in order ==> e.path in paths
    requires forall p :: p in paths ==> exists e :: e in order && e.path == p
    ensures |order| == |paths|
  {
    if order == [] {
      assert paths == {};
    } else {
      var first := order[0];
      assert first in order;
      var rest := paths - {first.path};
      forall e | e in order[1..] ensures e.path in rest {
        assert e in order;
      }
      ListSize(order[1..], rest);
    }
  }

  // ----- Recency over a whole trace -----

  datatype Access = Use(path: Path) | Forget(path: Path)

  /** The live paths after a trace of successful and failed accesses; the latest access is the last one. */
  function Live(trace: seq<Access>, max: nat): seq<Path> {
    if trace == [] then []
    else
      var before := Live(trace[..|trace| - 1], max);
      match trace[|trace| - 1]
      case Use(p) => Used(before, p, max)
      case Forget(p) => Without(before, p)
  }

  /** When a path was last used: one more than its position in the trace, or 0. */
  function LastUse(trace: seq<Access>, path: Path): nat {
    if trace == [] then 0
    else if trace[|trace| - 1] == Use(path) then |trace|
    else LastUse(trace[..|trace| - 1], path)
  }

  predicate ByRecency(paths: seq<Path>, trace: seq<Access>) {
    (forall i :: 0 <= i < |paths| ==> LastUse(trace, paths[i]) > 0) &&
    (forall i, j :: 0 <= i < j < |paths| ==> LastUse(trace, paths[i]) < LastUse(trace, paths[j]))
  }

  lemma {:induction false} WithoutKeepsOrder(paths: seq<Path>, path: Path, trace: seq<Access>)
    requires ByRecency(paths, trace)
    ensures ByRecency(Without(paths, path), trace) && path !in Without(paths, path)
    ensures |Without(paths, path)| <= |paths|
    ensures forall p :: p in Without(paths, path) <==> p in paths && p != path
  {
    if paths == [] {
    } else {
      assert ByRecency(paths[1..], trace);
      WithoutKeepsOrder(paths[1..], path, trace);
      if paths[0] == path {
        assert forall i :: 0 <= i < |paths[1..]| ==> LastUse(trace, paths[0]) < LastUse(trace, paths[1..][i]);
      } else {
        var rest := Without(paths[1..], path);
        forall i | 0 <= i < |rest| ensures LastUse(trace, paths[0]) < LastUse(trace, rest[i]) {
          assert rest[i] in paths[1..];
          var k :| 0 <= k < |paths[1..]| && paths[1..][k] == rest[i];
          assert paths[k + 1] == rest[i];
        }
      }
    }
  }

  lemma {:induction false} LastUseBounded(trace: seq<Access>, path: Path)
    ensures LastUse(trace, path) <= |trace|
  {
    if trace != [] {
      LastUseBounded(trace[..|trace| - 1], path);
    }
  }

  lemma LastUseAfter(trace: seq<Access>, last: Access, path: Path)
    ensures LastUse(trace + [last], path) == if last == Use(path) then |trace| + 1 else LastUse(trace, path)
  {
    assert (trace + [last])[..|trace|] == trace;
  }

  lemma UseComesLast(others: seq<Path>, trace: seq<Access>, path: Path)
    requires ByRecency(others, trace) && path !in others
    ensures ByRecency(others + [path], trace + [Use(path)])
    ensures others != [] ==> ByRecency(others[1..] + [path], trace + [Use(path)])
  {
    forall i | 0 <= i < |others|
      ensures LastUse(trace + [Use(path)], others[i]) == LastUse(trace, others[i]) <= |trace|
    {
      assert others[i] in others;
      LastUseAfter(trace, Use(path), others[i]);
      LastUseBounded(trace, others[i]);
    }
    LastUseAfter(trace, Use(path), path);
  }

  /** Over every trace the cache is bounded and ordered by last use, so what it evicts is the least recently used
      path. */
  lemma {:induction false} LeastRecentlyUsedFirst(trace: seq<Access>, max: nat)
    requires max > 0
    ensures |Live(trace, max)| <= max && ByRecency(Live(trace, max), trace)
  {
    if trace == [] {
    } else {
      var init, last := trace[..|trace| - 1], trace[|trace| - 1];
      assert init + [last] == trace;
      LeastRecentlyUsedFirst(init, max);
      WithoutKeepsOrder(Live(init, max), last.path, init);
      var others := Without(Live(init, max), last.path);
      if last.Use? {
        UseComesLast(others, init, last.path);
      } else {
        forall i | 0 <= i < |others| ensures LastUse(trace, others[i]) == LastUse(init, others[i]) {
          LastUseAfter(init, last, others[i]);
        }
      }
    }
  }

  /** The path a use evicts was used before every path that stays. */
  lemma EvictsLeastRecentlyUsed(trace: seq<Access>, path: Path, max: nat, evicted: Path, kept: Path)
    requires max > 0
    requires var after := Live(trace + [Use(path)], max);
      && evicted in Live(trace, max) && evicted != path && evicted !in after
      && kept in after && kept != path
    ensures LastUse(trace, evicted) < LastUse(trace, kept)
  {
    assert (trace + [Use(path)])[..|trace|] == trace;
    LeastRecentlyUsedFirst(trace, max);
    WithoutKeepsOrder(Live(trace, max), path, trace);
    var others := Without(Live(trace, max), path);
    assert evicted == others[0];
    assert kept in others[1..];
  }

  /** A use evicts only for a path that was not live, only from a full cache, and only one path. */
  lemma EvictsOnlyWhenFull(trace: seq<Access>, path: Path, max: nat, evicted: Path)
    requires max > 0
    requires evicted in Live(trace, max) && evicted != path && evicted !in Live(trace + [Use(path)], max)
    ensures path !in Live(trace, max) && |Live(trace, max)| == max
    ensures forall p :: p in Live(trace, max) && p != evicted ==> p in Live(trace + [Use(path)], max)
  {
    var before := Live(trace, max);
    assert (trace + [Use(path)])[..|trace|] == trace;
    LeastRecentlyUsedFirst(trace, max);
    WithoutKeepsOrder(before, path, trace);
    var others := Without(before, path);
    assert evicted == others[0];
    WithoutIsShorter(before, path);
    forall p | p in before && p != evicted ensures p in others[1..] + [path] {
      if p != path {
        var k :| 0 <= k < |others| && others[k] == p;
        assert others[1..][k - 1] == p;
      }
    }
  }

  lemma {:induction false} WithoutIsShorter(paths: seq<Path>, path: Path)
    ensures path in paths ==> |Without(paths, path)| == |paths| - 1
  {
    if paths != [] && paths[0] != path {
      WithoutIsShorter(paths[1..], path);
    }
  }
}
