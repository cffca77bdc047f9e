/** Persistence of the instance state in three archive entries, Events,
    People and Properties, named after the project token.  The file system
    is an abstract store from paths to blobs: a blob either decodes to a
    value (the keyed archiver's object graph) or is corrupt.  The archiver
    is taken to be lossless; a write either replaces the entry or, when the
    store refuses writes, leaves it as it was. */
module Persistence {
  import opened Values

  /** The three archive entries and their raw names. */
  datatype ArchiveType = EventsArchive | PeopleArchive | PropertiesArchive {
    function RawValue(): string {
      match this
      case EventsArchive => "Events"
      case PeopleArchive => "People"
      case PropertiesArchive => "Properties"
    }
  }

  /** The state kept in the Properties entry. */
  datatype ArchivedProperties = ArchivedProperties(
    superProperties: Properties,
    timedEvents: Properties,
    distinctId: Option<string>,
    peopleDistinctId: Option<string>,
    peopleUnidentifiedQueue: Queue)

  /** What a stored file holds. */
  datatype Blob = Encoded(root: Value) | Corrupt(bytes: seq<Byte>)

  /** Everything `unarchive` returns. */
  datatype Unarchived = Unarchived(
    eventsQueue: Queue,
    peopleQueue: Queue,
    properties: ArchivedProperties)

  /** The defaults of every field: empty maps and queues, no ids. */
  const NoProperties := ArchivedProperties(map[], map[], None, None, [])

  /** `mixpanel-<token>-<type>` */
  function FileName(apiToken: string, kind: ArchiveType): (name: string)
    ensures |name| >= 6
    ensures |name| == 10 + |apiToken| + |kind.RawValue()|
    ensures name[..9] == "mixpanel-" && name[9..9 + |apiToken|] == apiToken
    ensures name[9 + |apiToken|] == '-' && name[10 + |apiToken|..] == kind.RawValue()
  {
    "mixpanel-" + apiToken + "-" + kind.RawValue()
  }

  /** The entry's path inside the library directory; no path when the
      directory cannot be found. */
  function FilePath(libraryDirectory: Option<string>, apiToken: string, kind: ArchiveType): (path: Option<string>)
    ensures path.Some? <==> libraryDirectory.Some?
    ensures libraryDirectory.Some? ==>
      var dir := libraryDirectory.value;
      && |path.value| == |dir| + 1 + |FileName(apiToken, kind)|
      && path.value[..|dir|] == dir && path.value[|dir|] == '/'
      && path.value[|dir| + 1..] == FileName(apiToken, kind)
  {
    if libraryDirectory.None? then None
    else Some(libraryDirectory.value + "/" + FileName(apiToken, kind))
  }

  /** The last six characters of a name tell the entry apart. */
  lemma FileNameSuffix(apiToken: string, kind: ArchiveType)
    ensures var name := FileName(apiToken, kind);
      name[|name| - 6..] == match kind
        case EventsArchive => "Events"
        case PeopleArchive => "People"
        case PropertiesArchive => "erties"
  {
  }

  /** Distinct (token, entry) pairs get distinct names, so instances with
      different tokens never share a file and no entry overwrites another. */
  lemma FileNameInjective(t1: string, k1: ArchiveType, t2: string, k2: ArchiveType)
    requires FileName(t1, k1) == FileName(t2, k2)
    ensures t1 == t2 && k1 == k2
  {
    var name := FileName(t1, k1);
    FileNameSuffix(t1, k1);
    FileNameSuffix(t2, k2);
    assert k1 == k2;
    var prefix1 := "mixpanel-" + t1 + "-";
    var prefix2 := "mixpanel-" + t2 + "-";
    assert name == prefix1 + k1.RawValue() == prefix2 + k1.RawValue();
    assert prefix1 == name[..|name| - |k1.RawValue()|] == prefix2;
    assert t1 == prefix1[9..|prefix1| - 1] && t2 == prefix2[9..|prefix2| - 1];
  }

  /** Within one directory, distinct (token, entry) pairs get distinct
      paths. */
  lemma FilePathInjective(dir: string, t1: string, k1: ArchiveType, t2: string, k2: ArchiveType)
    requires FilePath(Some(dir), t1, k1) == FilePath(Some(dir), t2, k2)
    ensures t1 == t2 && k1 == k2
  {
    var p := dir + "/";
    assert p + FileName(t1, k1) == p + FileName(t2, k2);
    assert FileName(t1, k1) == (p + FileName(t1, k1))[|p|..];
    assert FileName(t2, k2) == (p + FileName(t2, k2))[|p|..];
    FileNameInjective(t1, k1, t2, k2);
  }

  /** A queue as an archived array of dictionaries. */
  function EncodeQueue(q: Queue): (v: Value)
    ensures v.Array? && |v.items| == |q|
  {
    Array(Dicts(q))
  }

  function Dicts(q: Queue): (vs: seq<Value>)
    ensures |vs| == |q|
  {
    if q == [] then [] else [Dict(q[0])] + Dicts(q[1..])
  }

  /** `as? Queue`: an array all of whose items are dictionaries. */
  function DecodeQueue(v: Value): (q: Option<Queue>)
    ensures q.Some? ==> v.Array? && |q.value| == |v.items|
  {
    if v.Array? then DecodeRecords(v.items) else None
  }

  function DecodeRecords(items: seq<Value>): (q: Option<Queue>)
    ensures q.Some? ==> |q.value| == |items|
  {
    if items == [] then Some([])
    else if !items[0].Dict? then None
    else
      var rest := DecodeRecords(items[1..]);
      if rest.None? then None else Some([items[0].entries] + rest.value)
  }

  lemma {:induction false} QueueRoundTrip(q: Queue)
    ensures DecodeRecords(Dicts(q)) == Some(q)
    decreases |q|
  {
    if q != [] {
      QueueRoundTrip(q[1..]);
      assert Dicts(q)[1..] == Dicts(q[1..]);
      assert [q[0]] + q[1..] == q;
    }
  }

  /** The dictionary `archiveProperties` stores: five keys, where an absent
      id leaves its key out. */
  function PropertiesMap(p: ArchivedProperties): (m: Properties)
    ensures m.Keys == {"superProperties", "timedEvents", "peopleUnidentifiedQueue"}
                      + (if p.distinctId.Some? then {"distinctId"} else {})
                      + (if p.peopleDistinctId.Some? then {"peopleDistinctId"} else {})
  {
    var m := map["superProperties" := Dict(p.superProperties),
                 "peopleUnidentifiedQueue" := EncodeQueue(p.peopleUnidentifiedQueue),
                 "timedEvents" := Dict(p.timedEvents)];
    var m := if p.distinctId.Some? then m["distinctId" := Str(p.distinctId.value)] else m;
    if p.peopleDistinctId.Some? then m["peopleDistinctId" := Str(p.peopleDistinctId.value)] else m
  }

  /** `unarchiveProperties`: each field read on its own, with its default
      when the entry is missing or not a dictionary, or the key is missing
      or of the wrong kind. */
  function DecodeProperties(root: Option<Value>): (p: ArchivedProperties)
    ensures root.None? || !root.value.Dict? ==> p == NoProperties
  {
    if root.None? || !root.value.Dict? then NoProperties
    else
      var m := root.value.entries;
      ArchivedProperties(
        if "superProperties" in m && m["superProperties"].Dict? then m["superProperties"].entries else map[],
        if "timedEvents" in m && m["timedEvents"].Dict? then m["timedEvents"].entries else map[],
        if "distinctId" in m && m["distinctId"].Str? then Some(m["distinctId"].s) else None,
        if "peopleDistinctId" in m && m["peopleDistinctId"].Str? then Some(m["peopleDistinctId"].s) else None,
        if "peopleUnidentifiedQueue" in m then DecodeQueue(m["peopleUnidentifiedQueue"]).GetOr([]) else [])
  }

  /** `p` with the field stored under `key` reset to its default; any
      other key leaves `p` as it is. */
  function FieldDefaulted(p: ArchivedProperties, key: string): ArchivedProperties {
    if key == "superProperties" then p.(superProperties := map[])
    else if key == "timedEvents" then p.(timedEvents := map[])
    else if key == "distinctId" then p.(distinctId := None)
    else if key == "peopleDistinctId" then p.(peopleDistinctId := None)
    else if key == "peopleUnidentifiedQueue" then p.(peopleUnidentifiedQueue := [])
    else p
  }

  /** Whether `v` has the kind the field stored under `key` is read as. */
  predicate OfFieldKind(key: string, v: Value) {
    && (key == "superProperties" || key == "timedEvents" ==> v.Dict?)
    && (key == "distinctId" || key == "peopleDistinctId" ==> v.Str?)
    && (key == "peopleUnidentifiedQueue" ==> DecodeQueue(v).Some?)
  }

  /** Each field defaults on its own: dropping one key of the Properties
      entry resets only that key's field to its default and reads every
      other field as before. */
  lemma DecodePropertiesWithoutKey(m: Properties, key: string)
    ensures DecodeProperties(Some(Dict(m - {key}))) == FieldDefaulted(DecodeProperties(Some(Dict(m))), key)
  {
    var m' := m - {key};
    var p, p' := DecodeProperties(Some(Dict(m))), DecodeProperties(Some(Dict(m')));
    if key == "superProperties" {
      assert p' == p.(superProperties := map[]);
    } else if key == "timedEvents" {
      assert p' == p.(timedEvents := map[]);
    } else if key == "distinctId" {
      assert p' == p.(distinctId := None);
    } else if key == "peopleDistinctId" {
      assert p' == p.(peopleDistinctId := None);
    } else if key == "peopleUnidentifiedQueue" {
      assert p' == p.(peopleUnidentifiedQueue := []);
    } else {
      assert p' == p;
    }
  }

  /** Likewise, a value of the wrong kind under one key resets only that
      key's field to its default. */
  lemma DecodePropertiesWrongKind(m: Properties, key: string, v: Value)
    requires !OfFieldKind(key, v)
    ensures DecodeProperties(Some(Dict(m[key := v]))) == FieldDefaulted(DecodeProperties(Some(Dict(m))), key)
  {
    var m' := m[key := v];
    var p, p' := DecodeProperties(Some(Dict(m))), DecodeProperties(Some(Dict(m')));
    if key == "superProperties" {
      assert p' == p.(superProperties := map[]);
    } else if key == "timedEvents" {
      assert p' == p.(timedEvents := map[]);
    } else if key == "distinctId" {
      assert p' == p.(distinctId := None);
    } else if key == "peopleDistinctId" {
      assert p' == p.(peopleDistinctId := None);
    } else {
      assert key == "peopleUnidentifiedQueue";
      assert p' == p.(peopleUnidentifiedQueue := []);
    }
  }

  /** What is archived as Properties reads back as the same five fields. */
  lemma PropertiesRoundTrip(p: ArchivedProperties)
    ensures DecodeProperties(Some(Dict(PropertiesMap(p)))) == p
  {
    QueueRoundTrip(p.peopleUnidentifiedQueue);
  }

  /** `as? Queue ?? []` */
  function QueueOrEmpty(root: Option<Value>): (q: Queue)
    ensures root.None? ==> q == []
    ensures root.Some? && DecodeQueue(root.value).Some? ==> q == DecodeQueue(root.value).value
    ensures root.Some? && DecodeQueue(root.value).None? ==> q == []
  {
    if root.Some? then DecodeQueue(root.value).GetOr([]) else []
  }

  /** A store after an archive of `v` at `path`. */
  function Written(entries: map<string, Blob>, path: Option<string>, writable: bool, v: Value): (e: map<string, Blob>)
    ensures path.Some? && writable ==> e == entries[path.value := Encoded(v)]
    ensures path.None? || !writable ==> e == entries
  {
    if path.Some? && writable then entries[path.value := Encoded(v)] else entries
  }

  /** The result of reading one entry, and the store afterwards. */
  datatype Loaded = Loaded(value: Option<Value>, entries: map<string, Blob>)

  /** `unarchiveWithFilePath`: a decodable entry is returned; a corrupt one
      is deleted and reads as absent; a missing one reads as absent. */
  function Load(entries: map<string, Blob>, path: Option<string>): (r: Loaded)
    ensures path.Some? && path.value in entries && entries[path.value].Encoded? ==>
      r == Loaded(Some(entries[path.value].root), entries)
    ensures path.Some? && path.value in entries && entries[path.value].Corrupt? ==>
      r == Loaded(None, entries - {path.value})
    ensures path.None? || path.value !in entries ==> r == Loaded(None, entries)
  {
    if path.None? || path.value !in entries then Loaded(None, entries)
    else match entries[path.value]
      case Encoded(v) => Loaded(Some(v), entries)
      case Corrupt(_) => Loaded(None, entries - {path.value})
  }

  /** The abstract file system: a map from paths to blobs, the library
      directory (when it can be found) and whether writes succeed. */
  class Store {
    var entries: map<string, Blob>
    const libraryDirectory: Option<string>
    const writable: bool

    constructor (entries: map<string, Blob>, libraryDirectory: Option<string>, writable: bool)
      ensures this.entries == entries
      ensures this.libraryDirectory == libraryDirectory && this.writable == writable
    {
      this.entries := entries;
      this.libraryDirectory := libraryDirectory;
      this.writable := writable;
    }
  }

  class Persistence {
    const apiToken: string
    const store: Store

    constructor (apiToken: string, store: Store)
      ensures this.apiToken == apiToken && this.store == store
    {
      this.apiToken := apiToken;
      this.store := store;
    }

    function FilePathWithType(kind: ArchiveType): (path: Option<string>)
      ensures path == FilePath(store.libraryDirectory, apiToken, kind)
    {
      FilePath(store.libraryDirectory, apiToken, kind)
    }

    /** Archive all three entries: events, people, then properties. */
    method Archive(eventsQueue: Queue, peopleQueue: Queue, properties: ArchivedProperties)
      modifies store
      ensures store.entries ==
        Written(Written(Written(old(store.entries),
          FilePathWithType(EventsArchive), store.writable, EncodeQueue(eventsQueue)),
          FilePathWithType(PeopleArchive), store.writable, EncodeQueue(peopleQueue)),
          FilePathWithType(PropertiesArchive), store.writable, Dict(PropertiesMap(properties)))
    {
      ArchiveEvents(eventsQueue);
      ArchivePeople(peopleQueue);
      ArchiveProperties(properties);
    }

    method ArchiveEvents(eventsQueue: Queue)
      modifies store
      ensures store.entries ==
        Written(old(store.entries), FilePathWithType(EventsArchive), store.writable, EncodeQueue(eventsQueue))
    {
      ArchiveToFile(EventsArchive, EncodeQueue(eventsQueue));
    }

    method ArchivePeople(peopleQueue: Queue)
      modifies store
      ensures store.entries ==
        Written(old(store.entries), FilePathWithType(PeopleArchive), store.writable, EncodeQueue(peopleQueue))
    {
      ArchiveToFile(PeopleArchive, EncodeQueue(peopleQueue));
    }

    method ArchiveProperties(properties: ArchivedProperties)
      modifies store
      ensures store.entries ==
        Written(old(store.entries), FilePathWithType(PropertiesArchive), store.writable, Dict(PropertiesMap(properties)))
    {
      ArchiveToFile(PropertiesArchive, Dict(PropertiesMap(properties)));
    }

    /** A missing path or a refused write is only logged: the store and the
        caller's state are left as they were. */
    method ArchiveToFile(kind: ArchiveType, archived: Value)
      modifies store
      ensures store.entries == Written(old(store.entries), FilePathWithType(kind), store.writable, archived)
    {
      var filePath := FilePathWithType(kind);
      if filePath.None? {
        return;
      }
      if store.writable {
        store.entries := store.entries[filePath.value := Encoded(archived)];
      }
    }

    /** Read the three entries back; corrupt ones are deleted on the way. */
    method Unarchive() returns (u: Unarchived)
      modifies store
      ensures (u, store.entries) == UnarchiveAll(old(store.entries), store.libraryDirectory, apiToken)
    {
      var eventsQueue := UnarchiveEvents();
      var peopleQueue := UnarchivePeople();
      var properties := UnarchiveProperties();
      u := Unarchived(eventsQueue, peopleQueue, properties);
    }

    method UnarchiveWithFilePath(filePath: string) returns (unarchivedData: Option<Value>)
      modifies store
      ensures Loaded(unarchivedData, store.entries) == Load(old(store.entries), Some(filePath))
    {
      if filePath in store.entries && store.entries[filePath].Encoded? {
        unarchivedData := Some(store.entries[filePath].root);
      } else {
        unarchivedData := None;
        if filePath in store.entries {
          store.entries := store.entries - {filePath};
        }
      }
    }

    method UnarchiveWithType(kind: ArchiveType) returns (unarchivedData: Option<Value>)
      modifies store
      ensures Loaded(unarchivedData, store.entries) == Load(old(store.entries), FilePathWithType(kind))
    {
      var filePath := FilePathWithType(kind);
      if filePath.None? {
        return None;
      }
      unarchivedData := UnarchiveWithFilePath(filePath.value);
    }

    method UnarchiveEvents() returns (eventsQueue: Queue)
      modifies store
      ensures var l := Load(old(store.entries), FilePathWithType(EventsArchive));
        eventsQueue == QueueOrEmpty(l.value) && store.entries == l.entries
    {
      var data := UnarchiveWithType(EventsArchive);
      eventsQueue := QueueOrEmpty(data);
    }

    method UnarchivePeople() returns (peopleQueue: Queue)
      modifies store
      ensures var l := Load(old(store.entries), FilePathWithType(PeopleArchive));
        peopleQueue == QueueOrEmpty(l.value) && store.entries == l.entries
    {
      var data := UnarchiveWithType(PeopleArchive);
      peopleQueue := QueueOrEmpty(data);
    }

    method UnarchiveProperties() returns (properties: ArchivedProperties)
      modifies store
      ensures var l := Load(old(store.entries), FilePathWithType(PropertiesArchive));
        properties == DecodeProperties(l.value) && store.entries == l.entries
    {
      var data := UnarchiveWithType(PropertiesArchive);
      properties := DecodeProperties(data);
    }
  }

  /** `unarchive` as a function of the store: the three reads in order. */
  function UnarchiveAll(entries: map<string, Blob>, dir: Option<string>, apiToken: string): (Unarchived, map<string, Blob>)
  {
    var e := Load(entries, FilePath(dir, apiToken, EventsArchive));
    var p := Load(e.entries, FilePath(dir, apiToken, PeopleArchive));
    var r := Load(p.entries, FilePath(dir, apiToken, PropertiesArchive));
    (Unarchived(QueueOrEmpty(e.value), QueueOrEmpty(p.value), DecodeProperties(r.value)), r.entries)
  }

  /** The store after `archive` as a function of the store before it. */
  function ArchiveAll(entries: map<string, Blob>, dir: Option<string>, writable: bool, apiToken: string,
                      eventsQueue: Queue, peopleQueue: Queue, properties: ArchivedProperties): map<string, Blob>
  {
    Written(Written(Written(entries,
      FilePath(dir, apiToken, EventsArchive), writable, EncodeQueue(eventsQueue)),
      FilePath(dir, apiToken, PeopleArchive), writable, EncodeQueue(peopleQueue)),
      FilePath(dir, apiToken, PropertiesArchive), writable, Dict(PropertiesMap(properties)))
  }

  /** With a directory and a writable store, whatever the store held before,
      unarchiving what was just archived gives back both queues and all five
      property fields, and deletes nothing. */
  lemma ArchiveThenUnarchive(entries: map<string, Blob>, dir: string, apiToken: string,
                             eventsQueue: Queue, peopleQueue: Queue, properties: ArchivedProperties)
    ensures var stored := ArchiveAll(entries, Some(dir), true, apiToken, eventsQueue, peopleQueue, properties);
      UnarchiveAll(stored, Some(dir), apiToken) == (Unarchived(eventsQueue, peopleQueue, properties), stored)
  {
    var pe := FilePath(Some(dir), apiToken, EventsArchive).value;
    var pp := FilePath(Some(dir), apiToken, PeopleArchive).value;
    var pr := FilePath(Some(dir), apiToken, PropertiesArchive).value;
    if pe == pp { FilePathInjective(dir, apiToken, EventsArchive, apiToken, PeopleArchive); }
    if pe == pr { FilePathInjective(dir, apiToken, EventsArchive, apiToken, PropertiesArchive); }
    if pp == pr { FilePathInjective(dir, apiToken, PeopleArchive, apiToken, PropertiesArchive); }
    var ve, vp, vr := EncodeQueue(eventsQueue), EncodeQueue(peopleQueue), Dict(PropertiesMap(properties));
    var stored := entries[pe := Encoded(ve)][pp := Encoded(vp)][pr := Encoded(vr)];
    assert ArchiveAll(entries, Some(dir), true, apiToken, eventsQueue, peopleQueue, properties) == stored;
    assert stored[pe] == Encoded(ve) && stored[pp] == Encoded(vp) && stored[pr] == Encoded(vr);
    assert Load(stored, Some(pe)) == Loaded(Some(ve), stored);
    assert Load(stored, Some(pp)) == Loaded(Some(vp), stored);
    assert Load(stored, Some(pr)) == Loaded(Some(vr), stored);
    QueueRoundTrip(eventsQueue);
    QueueRoundTrip(peopleQueue);
    PropertiesRoundTrip(properties);
  }

  /** Three garbage files: every field takes its default, and the three
      files are deleted. */
  lemma GarbageGivesDefaults(entries: map<string, Blob>, dir: string, apiToken: string)
    requires forall k :: FilePath(Some(dir), apiToken, k).value in entries
    requires forall k :: entries[FilePath(Some(dir), apiToken, k).value].Corrupt?
    ensures var (u, after) := UnarchiveAll(entries, Some(dir), apiToken);
      && u == Unarchived([], [], NoProperties)
      && after == entries - {FilePath(Some(dir), apiToken, EventsArchive).value,
                             FilePath(Some(dir), apiToken, PeopleArchive).value,
                             FilePath(Some(dir), apiToken, PropertiesArchive).value}
  {
    var pe := FilePath(Some(dir), apiToken, EventsArchive).value;
    var pp := FilePath(Some(dir), apiToken, PeopleArchive).value;
    var pr := FilePath(Some(dir), apiToken, PropertiesArchive).value;
    assert entries[pe].Corrupt? && entries[pp].Corrupt? && entries[pr].Corrupt?;
    if pe == pp { FilePathInjective(dir, apiToken, EventsArchive, apiToken, PeopleArchive); }
    if pe == pr { FilePathInjective(dir, apiToken, EventsArchive, apiToken, PropertiesArchive); }
    if pp == pr { FilePathInjective(dir, apiToken, PeopleArchive, apiToken, PropertiesArchive); }
    assert entries - {pe} - {pp} - {pr} == entries - {pe, pp, pr};
  }
}
