/**
 * The answer cache: a list of query/answer entries kept as one JSON document per cache file
 * under the home directory. Lookup takes the first entry for a query; insertion removes every
 * entry for the query and appends the new one, so a file written only by this code holds at
 * most one entry per query.
 */
module AnswerCache {
  import opened Wrappers

  /** `CacheEntry`; the timestamp is the RFC 3339 time of insertion, taken as an opaque string. */
  datatype CacheEntry = CacheEntry(query: string, answer: string, timestamp: string)

  /** `Cache::find`: the answer of the first entry for `query`. */
  function Find(entries: seq<CacheEntry>, query: string): (r: Option<string>)
    ensures r.None? <==> forall i :: 0 <= i < |entries| ==> entries[i].query != query
    ensures r.Some? ==> exists i :: 0 <= i < |entries| && entries[i].query == query
                                   && entries[i].answer == r.value
                                   && forall j :: 0 <= j < i ==> entries[j].query != query
  {
    if entries == [] then None
    else if entries[0].query == query then Some(entries[0].answer)
    else
      var r := Find(entries[1..], query);
      assert forall i :: 1 <= i < |entries| ==> entries[i] == entries[1..][i - 1];
      assert r.Some? ==> exists i :: 1 <= i < |entries| && entries[i].query == query
                                   && entries[i].answer == r.value
                                   && forall j :: 0 <= j < i ==> entries[j].query != query;
      r
  }

  /** The number of entries for `query`. */
  function Count(entries: seq<CacheEntry>, query: string): nat
  {
    if entries == [] then 0
    else (if entries[0].query == query then 1 else 0) + Count(entries[1..], query)
  }

  /** What `retain` keeps: every entry whose query differs from `query`, in the original order. */
  function Without(entries: seq<CacheEntry>, query: string): (r: seq<CacheEntry>)
    ensures forall e :: e in r <==> e in entries && e.query != query
    ensures |r| + Count(entries, query) == |entries|
  {
    if entries == [] then []
    else if entries[0].query == query then Without(entries[1..], query)
    else [entries[0]] + Without(entries[1..], query)
  }

  /** The entries after `Cache::insert(query, answer)` at time `timestamp`. */
  function Inserted(entries: seq<CacheEntry>, query: string, answer: string, timestamp: string): seq<CacheEntry>
  {
    Without(entries, query) + [CacheEntry(query, answer, timestamp)]
  }

  /** The invariant insertion keeps: at most one entry per query. */
  ghost predicate AtMostOnePerQuery(entries: seq<CacheEntry>) {
    forall q :: Count(entries, q) <= 1
  }

  lemma {:induction false} FindAppend(a: seq<CacheEntry>, b: seq<CacheEntry>, query: string)
    ensures Find(a + b, query) == if Find(a, query).Some? then Find(a, query) else Find(b, query)
  {
    if a == [] {
      assert a + b == b;
    } else {
      assert (a + b)[1..] == a[1..] + b;
      FindAppend(a[1..], b, query);
    }
  }

  lemma {:induction false} CountAppend(a: seq<CacheEntry>, b: seq<CacheEntry>, query: string)
    ensures Count(a + b, query) == Count(a, query) + Count(b, query)
  {
    if a == [] {
      assert a + b == b;
    } else {
      assert (a + b)[1..] == a[1..] + b;
      CountAppend(a[1..], b, query);
    }
  }

  /** Filtering respects the order of the entries: it distributes over joining two lists. */
  lemma {:induction false} WithoutAppend(a: seq<CacheEntry>, b: seq<CacheEntry>, query: string)
    ensures Without(a + b, query) == Without(a, query) + Without(b, query)
  {
    if a == [] {
      assert a + b == b;
    } else {
      assert (a + b)[1..] == a[1..] + b;
      WithoutAppend(a[1..], b, query);
    }
  }

  /** Entries with no entry for `query` are kept whole. */
  lemma {:induction false} WithoutNoMatch(entries: seq<CacheEntry>, query: string)
    requires Count(entries, query) == 0
    ensures Without(entries, query) == entries
  {
    if entries != [] {
      WithoutNoMatch(entries[1..], query);
    }
  }

  /** Filtering out `query` leaves no entry for it. */
  lemma {:induction false} CountWithout(entries: seq<CacheEntry>, query: string)
    ensures Count(Without(entries, query), query) == 0
  {
    if entries != [] {
      CountWithout(entries[1..], query);
      if entries[0].query != query {
        CountAppend([entries[0]], Without(entries[1..], query), query);
      }
    }
  }

  /** Filtering out `query` leaves the count of every other query as it was. */
  lemma {:induction false} CountWithoutOther(entries: seq<CacheEntry>, query: string, other: string)
    requires other != query
    ensures Count(Without(entries, query), other) == Count(entries, other)
  {
    if entries != [] {
      CountWithoutOther(entries[1..], query, other);
      if entries[0].query != query {
        CountAppend([entries[0]], Without(entries[1..], query), other);
      }
    }
  }

  /** Filtering out `query` leaves the lookup of every other query as it was. */
  lemma {:induction false} FindWithoutOther(entries: seq<CacheEntry>, query: string, other: string)
    requires other != query
    ensures Find(Without(entries, query), other) == Find(entries, other)
  {
    if entries != [] {
      FindWithoutOther(entries[1..], query, other);
      if entries[0].query != query {
        FindAppend([entries[0]], Without(entries[1..], query), other);
      }
    }
  }

  /** After an insertion the lookup of the inserted query gives the inserted answer. */
  lemma InsertThenFind(entries: seq<CacheEntry>, query: string, answer: string, timestamp: string)
    ensures Find(Inserted(entries, query, answer, timestamp), query) == Some(answer)
  {
    var kept := Without(entries, query);
    FindAppend(kept, [CacheEntry(query, answer, timestamp)], query);
  }

  /** An insertion leaves the lookup of every other query as it was. */
  lemma InsertKeepsOthers(entries: seq<CacheEntry>, query: string, answer: string, timestamp: string, other: string)
    requires other != query
    ensures Find(Inserted(entries, query, answer, timestamp), other) == Find(entries, other)
  {
    var kept := Without(entries, query);
    FindAppend(kept, [CacheEntry(query, answer, timestamp)], other);
    FindWithoutOther(entries, query, other);
  }

  /** After an insertion exactly one entry has the inserted query: duplicates never accumulate. */
  lemma InsertLeavesOneEntry(entries: seq<CacheEntry>, query: string, answer: string, timestamp: string)
    ensures Count(Inserted(entries, query, answer, timestamp), query) == 1
  {
    var e := CacheEntry(query, answer, timestamp);
    CountAppend(Without(entries, query), [e], query);
    CountWithout(entries, query);
    assert [e][1..] == [];
  }

  /** The new entry is last; the list is the old entries for other queries plus one. */
  lemma InsertShape(entries: seq<CacheEntry>, query: string, answer: string, timestamp: string)
    ensures var r := Inserted(entries, query, answer, timestamp);
            |r| == |entries| - Count(entries, query) + 1
            && r[|r| - 1] == CacheEntry(query, answer, timestamp)
            && r[..|r| - 1] == Without(entries, query)
  {
  }

  /** Insertion keeps the one-entry-per-query invariant. */
  lemma InsertKeepsAtMostOne(entries: seq<CacheEntry>, query: string, answer: string, timestamp: string)
    requires AtMostOnePerQuery(entries)
    ensures AtMostOnePerQuery(Inserted(entries, query, answer, timestamp))
  {
    var e := CacheEntry(query, answer, timestamp);
    var r := Inserted(entries, query, answer, timestamp);
    forall q
      ensures Count(r, q) <= 1
    {
      CountAppend(Without(entries, query), [e], q);
      assert [e][1..] == [];
      if q == query {
        CountWithout(entries, query);
      } else {
        CountWithoutOther(entries, query, q);
      }
    }
  }

  /** Inserting twice for one query is inserting the second answer once: the last answer wins. */
  lemma InsertLastWins(entries: seq<CacheEntry>, query: string, a1: string, t1: string, a2: string, t2: string)
    ensures Inserted(Inserted(entries, query, a1, t1), query, a2, t2) == Inserted(entries, query, a2, t2)
  {
    var kept := Without(entries, query);
    WithoutAppend(kept, [CacheEntry(query, a1, t1)], query);
    CountWithout(entries, query);
    WithoutNoMatch(kept, query);
    assert [CacheEntry(query, a1, t1)][1..] == [];
  }

  /** `Cache`: the document held in memory while it is read, changed and written back. */
  class Cache {
    var entries: seq<CacheEntry>

    constructor (entries: seq<CacheEntry>)
      ensures this.entries == entries
    {
      this.entries := entries;
    }

    /** `Cache::insert`: drop every entry for `query`, then append the new one. */
    method Insert(query: string, answer: string, timestamp: string)
      modifies this
      ensures entries == Inserted(old(entries), query, answer, timestamp)
      ensures Find(entries, query) == Some(answer)
      ensures Count(entries, query) == 1
      ensures forall q :: q != query ==> Find(entries, q) == Find(old(entries), q)
      ensures AtMostOnePerQuery(old(entries)) ==> AtMostOnePerQuery(entries)
    {
      ghost var before := entries;
      var kept: seq<CacheEntry> := [];
      var i := 0;
      while i < |entries|
        invariant 0 <= i <= |entries|
        invariant entries == before
        invariant kept == Without(entries[..i], query)
      {
        WithoutAppend(entries[..i], [entries[i]], query);
        assert entries[..i + 1] == entries[..i] + [entries[i]];
        assert [entries[i]][1..] == [];
        if entries[i].query != query {
          kept := kept + [entries[i]];
        }
        i := i + 1;
      }
      assert entries[..i] == entries;
      assert kept == Without(before, query);
      entries := kept + [CacheEntry(query, answer, timestamp)];
      InsertThenFind(before, query, answer, timestamp);
      InsertLeavesOneEntry(before, query, answer, timestamp);
      forall q | q != query
        ensures Find(entries, q) == Find(before, q)
      {
        InsertKeepsOthers(before, query, answer, timestamp, q);
      }
      if AtMostOnePerQuery(before) {
        InsertKeepsAtMostOne(before, query, answer, timestamp);
      }
    }
  }

  /**
   * The JSON text of a cache file, as `serde_json` sees it: a value that is a cache document
   * (with its entries) or not, followed by `trailer`.
   */
  datatype Json = CacheDocument(entries: seq<CacheEntry>) | NotCacheDocument
  datatype FileText = FileText(json: Json, trailer: string)

  /** A cache file: not found, present but failing to read, or readable text. */
  datatype FileCell = Absent | Unreadable | Present(text: FileText)

  datatype CacheError = HomeDirUnknown | ReadFailed | ParseFailed | WriteFailed

  predicate JsonWhitespace(c: char) {
    c == ' ' || c == '\t' || c == '\n' || c == '\r'
  }

  /** `serde_json::from_str::<Cache>`: a cache document followed by nothing but whitespace. */
  function Parse(text: FileText): (r: Result<seq<CacheEntry>, CacheError>)
    ensures r.Ok? <==> text.json.CacheDocument? && forall i :: 0 <= i < |text.trailer| ==> JsonWhitespace(text.trailer[i])
    ensures r.Ok? ==> r.value == text.json.entries
    ensures r.Err? ==> r.error == ParseFailed
  {
    if text.json.CacheDocument? && forall i :: 0 <= i < |text.trailer| ==> JsonWhitespace(text.trailer[i])
    then Ok(text.json.entries)
    else Err(ParseFailed)
  }

  /** The text `write_full_cache` writes: the pretty-printed document and one newline. */
  function Serialize(entries: seq<CacheEntry>): (text: FileText)
    ensures text.trailer == "\n"
  {
    FileText(CacheDocument(entries), "\n")
  }

  /** What is written reads back as the same entries. */
  lemma ParseSerialize(entries: seq<CacheEntry>)
    ensures Parse(Serialize(entries)) == Ok(entries)
  {
  }

  /**
   * `read_full_cache` against the home directory `home` and the file found there: a file that
   * is not found reads as an empty cache; any other read error and any unparsable content is
   * an error.
   */
  function ReadFull(home: Option<string>, cell: FileCell): (r: Result<seq<CacheEntry>, CacheError>)
    ensures home.None? ==> r == Err(HomeDirUnknown)
    ensures r.Ok? <==> home.Some? && (cell.Absent? || (cell.Present? && Parse(cell.text).Ok?))
    ensures r.Ok? && cell.Absent? ==> r.value == []
    ensures r.Ok? && cell.Present? ==> Parse(cell.text) == r
    ensures home.Some? && cell.Unreadable? ==> r == Err(ReadFailed)
    ensures home.Some? && cell.Present? && Parse(cell.text).Err? ==> r == Err(ParseFailed)
  {
    if home.None? then Err(HomeDirUnknown)
    else
      match cell
      case Absent => Ok([])
      case Unreadable => Err(ReadFailed)
      case Present(text) => Parse(text)
  }

  /** `read_cache`: the cached answer for `query`, or the error reading the file. */
  function Lookup(home: Option<string>, cell: FileCell, query: string): (r: Result<Option<string>, CacheError>)
    ensures r.Err? <==> ReadFull(home, cell).Err?
    ensures r.Err? ==> r.error == ReadFull(home, cell).error
    ensures r.Ok? ==> r.value == Find(ReadFull(home, cell).value, query)
  {
    match ReadFull(home, cell)
    case Err(e) => Err(e)
    case Ok(entries) => Ok(Find(entries, query))
  }

  /** A file that does not exist answers every lookup as one holding no entries does. */
  lemma AbsentIsEmpty(home: Option<string>, query: string)
    ensures Lookup(home, Absent, query) == Lookup(home, Present(Serialize([])), query)
  {
  }

  /** A malformed file is never taken for an empty cache. */
  lemma MalformedIsNotEmpty(home: Option<string>, text: FileText, query: string)
    requires Parse(text).Err?
    ensures Lookup(home, Present(text), query).Err?
  {
  }

  /** The file named `name` in `files`; a name that is not there is a file that is not found. */
  function CellOf(files: map<string, FileCell>, name: string): FileCell {
    if name in files then files[name] else Absent
  }

  /**
   * `write_cache`: the new files after reading the whole cache, inserting one entry and writing
   * the whole result back; writing to a name in `readOnly` fails.
   */
  function Store(home: Option<string>, files: map<string, FileCell>, readOnly: set<string>,
                 name: string, query: string, answer: string, timestamp: string): (r: Result<map<string, FileCell>, CacheError>)
    ensures ReadFull(home, CellOf(files, name)).Err? ==> r == Err(ReadFull(home, CellOf(files, name)).error)
    ensures r.Ok? <==> ReadFull(home, CellOf(files, name)).Ok? && name !in readOnly
    ensures r.Ok? ==> r.value == files[name := Present(Serialize(
                                   Inserted(ReadFull(home, CellOf(files, name)).value, query, answer, timestamp)))]
    ensures r.Err? && ReadFull(home, CellOf(files, name)).Ok? ==> r.error == WriteFailed
  {
    match ReadFull(home, CellOf(files, name))
    case Err(e) => Err(e)
    case Ok(entries) =>
      if name in readOnly then Err(WriteFailed)
      else Ok(files[name := Present(Serialize(Inserted(entries, query, answer, timestamp)))])
  }

  /** After a successful store, looking the query up gives the stored answer. */
  lemma StoreThenLookup(home: Option<string>, files: map<string, FileCell>, readOnly: set<string>,
                        name: string, query: string, answer: string, timestamp: string)
    requires Store(home, files, readOnly, name, query, answer, timestamp).Ok?
    ensures var after := Store(home, files, readOnly, name, query, answer, timestamp).value;
            Lookup(home, CellOf(after, name), query) == Ok(Some(answer))
  {
    var entries := ReadFull(home, CellOf(files, name)).value;
    InsertThenFind(entries, query, answer, timestamp);
  }

  /** A successful store changes the answer of no other query and no other file. */
  lemma StoreKeepsOthers(home: Option<string>, files: map<string, FileCell>, readOnly: set<string>,
                         name: string, query: string, answer: string, timestamp: string, other: string)
    requires Store(home, files, readOnly, name, query, answer, timestamp).Ok?
    requires other != query
    ensures var after := Store(home, files, readOnly, name, query, answer, timestamp).value;
            Lookup(home, CellOf(after, name), other) == Lookup(home, CellOf(files, name), other)
            && forall n :: n != name ==> CellOf(after, n) == CellOf(files, n)
  {
    var entries := ReadFull(home, CellOf(files, name)).value;
    InsertKeepsOthers(entries, query, answer, timestamp, other);
  }

  /** Storing twice for one query leaves the file as storing the second answer once would. */
  lemma StoreLastWins(home: Option<string>, files: map<string, FileCell>, readOnly: set<string>,
                      name: string, query: string, a1: string, t1: string, a2: string, t2: string)
    requires Store(home, files, readOnly, name, query, a1, t1).Ok?
    ensures var once := Store(home, files, readOnly, name, query, a1, t1).value;
            Store(home, once, readOnly, name, query, a2, t2) == Store(home, files, readOnly, name, query, a2, t2)
  {
    var entries := ReadFull(home, CellOf(files, name)).value;
    var once := Store(home, files, readOnly, name, query, a1, t1).value;
    InsertLastWins(entries, query, a1, t1, a2, t2);
    var twice := Inserted(Inserted(entries, query, a1, t1), query, a2, t2);
    assert CellOf(once, name) == Present(Serialize(Inserted(entries, query, a1, t1)));
    assert ReadFull(home, CellOf(once, name)) == Ok(Inserted(entries, query, a1, t1));
    assert Store(home, once, readOnly, name, query, a2, t2) == Ok(once[name := Present(Serialize(twice))]);
    assert once[name := Present(Serialize(twice))] == files[name := Present(Serialize(twice))];
  }

  /**
   * The cache files under the home directory. `home` is what `home::home_dir` gives; `files`
   * maps each file name to its state; a write to a name in `readOnly` fails.
   */
  class CacheStore {
    const home: Option<string>
    var files: map<string, FileCell>
    const readOnly: set<string>

    constructor (home: Option<string>, files: map<string, FileCell>, readOnly: set<string>)
      ensures this.home == home && this.files == files && this.readOnly == readOnly
    {
      this.home := home;
      this.files := files;
      this.readOnly := readOnly;
    }

    function Cell(name: string): FileCell
      reads this
    {
      CellOf(files, name)
    }

    /** `read_full_cache`: the whole document of `name`, as a fresh in-memory cache. */
    method ReadFullCache(name: string) returns (r: Result<Cache, CacheError>)
      ensures r.Ok? ==> fresh(r.value) && ReadFull(home, Cell(name)) == Ok(r.value.entries)
      ensures r.Err? ==> ReadFull(home, Cell(name)) == Err(r.error)
    {
      if home.None? {
        return Err(HomeDirUnknown);
      }
      var cell := Cell(name);
      match cell
      case Absent =>
        var c := new Cache([]);
        r := Ok(c);
      case Unreadable =>
        r := Err(ReadFailed);
      case Present(text) =>
        match Parse(text)
        case Err(e) =>
          r := Err(e);
        case Ok(entries) =>
          var c := new Cache(entries);
          r := Ok(c);
    }

    /** `write_full_cache`: replace the whole file `name` with the serialized `cache`. */
    method WriteFullCache(name: string, cache: Cache) returns (r: Result<(), CacheError>)
      modifies this
      ensures home.None? ==> r == Err(HomeDirUnknown)
      ensures home.Some? && name in readOnly ==> r == Err(WriteFailed)
      ensures r.Ok? <==> home.Some? && name !in readOnly
      ensures r.Ok? ==> files == old(files)[name := Present(Serialize(cache.entries))]
      ensures r.Err? ==> files == old(files)
    {
      var text := Serialize(cache.entries);
      if home.None? {
        return Err(HomeDirUnknown);
      }
      if name in readOnly {
        return Err(WriteFailed);
      }
      files := files[name := Present(text)];
      r := Ok(());
    }

    /** `read_cache`: look `query` up in the file `name`. */
    method ReadCache(name: string, query: string) returns (r: Result<Option<string>, CacheError>)
      ensures r == Lookup(home, Cell(name), query)
    {
      var cache := ReadFullCache(name);
      match cache
      case Err(e) =>
        r := Err(e);
      case Ok(c) =>
        r := Ok(Find(c.entries, query));
    }

    /** `write_cache`: read the whole file `name`, insert one entry, write the whole result back. */
    method WriteCache(name: string, query: string, answer: string, timestamp: string) returns (r: Result<(), CacheError>)
      modifies this
      ensures var s := Store(home, old(files), readOnly, name, query, answer, timestamp);
              (r.Ok? <==> s.Ok?)
              && (s.Ok? ==> files == s.value)
              && (s.Err? ==> r.error == s.error && files == old(files))
      ensures r.Ok? ==> Lookup(home, Cell(name), query) == Ok(Some(answer))
    {
      var cache := ReadFullCache(name);
      if cache.Err? {
        return Err(cache.error);
      }
      var c := cache.value;
      c.Insert(query, answer, timestamp);
      r := WriteFullCache(name, c);
      if r.Ok? {
        StoreThenLookup(home, old(files), readOnly, name, query, answer, timestamp);
      }
    }
  }
}
