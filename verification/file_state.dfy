/** The per-poller persisted state: the set of seen keys, the last snapshot of
    present ids and the tracked lowest record, each kept in one JSON file of
    a state directory. The file system is an abstract map from path to
    content; the seen and present sets are cached in memory after their
    first load. */
module FileState {
  import opened Wrappers
  import opened Json

  // ---------------------------------------------------------------------
  // The disk
  // ---------------------------------------------------------------------

  /** What `json.load` makes of an existing file: a value, or an error
      (unreadable or malformed content). A missing file is a missing key of
      the disk map. */
  datatype Content = Unreadable | Json(v: Value)

  type Disk = map<string, Content>

  /** `os.path.join(root, file)` for a relative file name. */
  function JoinPath(root: string, file: string): (p: string)
    ensures |p| >= |file| && p[|p| - |file|..] == file
  {
    if root == [] || root[|root| - 1] == '/' then root + file else root + "/" + file
  }

  function SeenPath(root: string, name: string): string
  {
    JoinPath(root, name + ".json")
  }

  function PresentPath(root: string, name: string): string
  {
    JoinPath(root, name + "__present.json")
  }

  function TrackingPath(root: string, name: string): string
  {
    JoinPath(root, name + "__tracking.json")
  }

  /** The three files of one poller are three different files. */
  lemma {:induction false} PathsDistinct(root: string, name: string)
    ensures SeenPath(root, name) != PresentPath(root, name)
    ensures SeenPath(root, name) != TrackingPath(root, name)
    ensures PresentPath(root, name) != TrackingPath(root, name)
  {
    var n := name + ".json";
    var p := name + "__present.json";
    var t := name + "__tracking.json";
    assert |n| == |name| + 5 && |p| == |name| + 14 && |t| == |name| + 15;
    JoinLength(root, n);
    JoinLength(root, p);
    JoinLength(root, t);
  }

  /** Joining adds the same prefix whatever the file name. */
  lemma JoinLength(root: string, file: string)
    ensures |JoinPath(root, file)| == (if root == [] || root[|root| - 1] == '/' then |root| else |root| + 1) + |file|
  {
  }

  // ---------------------------------------------------------------------
  // Sorted id lists: Python's `sorted` on strings
  // ---------------------------------------------------------------------

  /** Python's `<` on `str`: lexicographic by code point, a proper prefix
      first. */
  predicate Less(a: string, b: string)
    decreases |a|
  {
    if a == [] then b != []
    else if b == [] then false
    else if a[0] != b[0] then a[0] < b[0]
    else Less(a[1..], b[1..])
  }

  lemma {:induction false} LessIrreflexive(a: string)
    ensures !Less(a, a)
    decreases |a|
  {
    if a != [] {
      LessIrreflexive(a[1..]);
    }
  }

  lemma {:induction false} LessTransitive(a: string, b: string, c: string)
    requires Less(a, b) && Less(b, c)
    ensures Less(a, c)
    decreases |a|
  {
    if a != [] && a[0] == b[0] && b[0] == c[0] {
      LessTransitive(a[1..], b[1..], c[1..]);
    }
  }

  /** Two different strings are ordered one way or the other. */
  lemma {:induction false} LessTotal(a: string, b: string)
    requires a != b
    ensures Less(a, b) || Less(b, a)
    decreases |a|
  {
    if a != [] && b != [] && a[0] == b[0] {
      assert a == [a[0]] + a[1..] && b == [b[0]] + b[1..];
      LessTotal(a[1..], b[1..]);
    }
  }

  /** `m` is the least element of `s`. */
  predicate IsLeast(m: string, s: set<string>)
  {
    m in s && forall x :: x in s && x != m ==> Less(m, x)
  }

  /** A non-empty finite set of strings has a least element. */
  lemma {:induction false} MinExists(s: set<string>)
    requires s != {}
    ensures exists m :: IsLeast(m, s)
    decreases s
  {
    var y :| y in s;
    if s != {y} {
      MinExists(s - {y});
      var m :| IsLeast(m, s - {y});
      if Less(m, y) {
        assert IsLeast(m, s);
      } else {
        LessTotal(m, y);
        forall x | x in s && x != y
          ensures Less(y, x)
        {
          if x != m {
            LessTransitive(y, m, x);
          }
        }
        assert IsLeast(y, s);
      }
    } else {
      assert IsLeast(y, s);
    }
  }

  /** The least element is unique. */
  lemma MinUnique(s: set<string>)
    ensures forall m, n :: IsLeast(m, s) && IsLeast(n, s) ==> m == n
  {
    forall m, n | IsLeast(m, s) && IsLeast(n, s)
      ensures m == n
    {
      if m != n {
        LessTransitive(m, n, m);
        LessIrreflexive(m);
      }
    }
  }

  /** The least element of a non-empty set. */
  function Least(s: set<string>): (m: string)
    requires s != {}
    ensures IsLeast(m, s)
  {
    MinExists(s);
    MinUnique(s);
    var m :| IsLeast(m, s);
    m
  }

  /** `sorted(s)`: the elements of `s` in strictly increasing order. */
  function SortedIds(s: set<string>): (r: seq<string>)
    ensures forall x :: x in r <==> x in s
    ensures forall i, j :: 0 <= i < j < |r| ==> Less(r[i], r[j])
    decreases s
  {
    if s == {} then []
    else
      var m := Least(s);
      [m] + SortedIds(s - {m})
  }

  /** A strictly increasing list holds no element twice. */
  lemma StrictlySortedDistinct(r: seq<string>, i: nat, j: nat)
    requires forall i, j :: 0 <= i < j < |r| ==> Less(r[i], r[j])
    requires i < j < |r|
    ensures r[i] != r[j]
  {
    LessIrreflexive(r[i]);
  }

  // ---------------------------------------------------------------------
  // Encoding of the seen / present files and of the tracking file
  // ---------------------------------------------------------------------

  /** The JSON list `json.dump(sorted(ids))` writes. */
  function EncodeIds(ids: set<string>): Content
  {
    var r := SortedIds(ids);
    Json(JList(seq(|r|, i requires 0 <= i < |r| => JStr(r[i]))))
  }

  /** `set(data if isinstance(data, list) else [])`, with an unreadable file
      and a list holding an unhashable element (a list or a dict) both
      giving the empty set. Only the string elements are kept. */
  function DecodeIds(c: Content): (ids: set<string>)
    ensures c.Unreadable? || !c.v.JList? ==> ids == {}
  {
    match c
    case Unreadable => {}
    case Json(JList(items)) =>
      if exists i :: 0 <= i < |items| && (items[i].JList? || items[i].JObj?) then {}
      else set i | 0 <= i < |items| && items[i].JStr? :: items[i].s
    case Json(_) => {}
  }

  /** The set a load starts from: a missing file gives the empty set. */
  function ReadIds(disk: Disk, path: string): set<string>
  {
    if path in disk then DecodeIds(disk[path]) else {}
  }

  /** Writing a set and reading it back gives the same set. */
  lemma {:induction false} DecodeEncodeIds(ids: set<string>)
    ensures DecodeIds(EncodeIds(ids)) == ids
  {
    var r := SortedIds(ids);
    var items := seq(|r|, i requires 0 <= i < |r| => JStr(r[i]));
    assert EncodeIds(ids) == Json(JList(items));
    assert !exists i :: 0 <= i < |items| && (items[i].JList? || items[i].JObj?);
    var back := set i | 0 <= i < |items| && items[i].JStr? :: items[i].s;
    forall x | x in ids
      ensures x in back
    {
      var i :| 0 <= i < |r| && r[i] == x;
      assert items[i].s == x;
    }
    assert back == ids;
  }

  /** A store that has lost its cache reads back the set last written. */
  lemma ReadIdsAfterWrite(disk: Disk, path: string, ids: set<string>)
    ensures ReadIds(disk[path := EncodeIds(ids)], path) == ids
  {
    DecodeEncodeIds(ids);
  }

  /** The file keeps the ids in increasing order, each once. */
  lemma EncodeIdsSorted(ids: set<string>)
    ensures EncodeIds(ids).v.JList?
    ensures var items := EncodeIds(ids).v.items;
            && |items| == |ids|
            && (forall i :: 0 <= i < |items| ==> items[i].JStr? && items[i].s in ids)
            && (forall i, j :: 0 <= i < j < |items| ==> Less(items[i].s, items[j].s))
  {
    var r := SortedIds(ids);
    DistinctCard(r, ids);
  }

  /** A list without repeats has as many elements as the set of its elements. */
  lemma {:induction false} DistinctCard(r: seq<string>, s: set<string>)
    requires forall x :: x in r <==> x in s
    requires forall i, j :: 0 <= i < j < |r| ==> Less(r[i], r[j])
    ensures |r| == |s|
    decreases |r|
  {
    if r != [] {
      var rest := r[1..];
      forall x | x in rest
        ensures x != r[0]
      {
        var j :| 0 <= j < |rest| && rest[j] == x;
        StrictlySortedDistinct(r, 0, j + 1);
      }
      assert forall x :: x in rest <==> x in s - {r[0]};
      DistinctCard(rest, s - {r[0]});
    } else {
      assert forall x :: x !in s;
      assert s == {};
    }
  }

  /** `data if isinstance(data, dict) else None`, with an unreadable file
      giving `None`. */
  function DecodeTracking(c: Content): (r: Option<Record>)
    ensures r.Some? <==> c.Json? && c.v.JObj?
  {
    match c
    case Json(JObj(fields)) => Some(fields)
    case _ => None
  }

  function ReadTracking(disk: Disk, path: string): Option<Record>
  {
    if path in disk then DecodeTracking(disk[path]) else None
  }

  /** The disk after `save_tracking`: the record is written, or `None`
      removes the file (nothing happens when it is already absent). */
  function WriteTracking(disk: Disk, path: string, data: Option<Record>): Disk
  {
    match data
    case None => disk - {path}
    case Some(d) => disk[path := Json(JObj(d))]
  }

  /** Saving and loading the tracking record round-trips, `None` included. */
  lemma TrackingRoundTrip(disk: Disk, path: string, data: Option<Record>)
    ensures ReadTracking(WriteTracking(disk, path, data), path) == data
  {
  }

  /** Saving a tracking record touches no other file. */
  lemma WriteTrackingFrame(disk: Disk, path: string, data: Option<Record>, other: string)
    requires other != path
    ensures other in WriteTracking(disk, path, data) <==> other in disk
    ensures other in disk ==> WriteTracking(disk, path, data)[other] == disk[other]
  {
  }

  /** Apart from the tracking file itself, the disk is as it was. */
  lemma WriteTrackingElsewhere(disk: Disk, path: string, data: Option<Record>)
    ensures WriteTracking(disk, path, data) - {path} == disk - {path}
  {
  }

  // ---------------------------------------------------------------------
  // The store
  // ---------------------------------------------------------------------

  class FileStateStore {
    const rootDir: string
    /** The files of the state directory. */
    var disk: Disk
    /** `_seen_cache`: the seen set of each poller loaded so far. */
    var seenCache: map<string, set<string>>
    /** `_present_cache`: the present snapshot of each poller loaded or
        saved so far. */
    var presentCache: map<string, set<string>>

    /** A store over the state directory `rootDir`, whose files are `disk`. */
    constructor(rootDir: string, disk: Disk)
      ensures this.rootDir == rootDir && this.disk == disk
      ensures seenCache == map[] && presentCache == map[]
    {
      this.rootDir := rootDir;
      this.disk := disk;
      seenCache := map[];
      presentCache := map[];
    }

    /** The seen set `_load_seen` returns in the current state: the cached
        one, or else what the file holds. */
    function Seen(name: string): set<string>
      reads this
    {
      if name in seenCache then seenCache[name] else ReadIds(disk, SeenPath(rootDir, name))
    }

    function Present(name: string): set<string>
      reads this
    {
      if name in presentCache then presentCache[name] else ReadIds(disk, PresentPath(rootDir, name))
    }

    /** `_load_seen`: the cache is filled on the first call and consulted
        alone afterwards; the disk is only read. */
    method LoadSeen(name: string) returns (seen: set<string>)
      modifies this
      ensures seen == old(Seen(name))
      ensures seenCache == old(seenCache)[name := seen]
      ensures disk == old(disk) && presentCache == old(presentCache)
    {
      if name in seenCache {
        return seenCache[name];
      }
      var path := SeenPath(rootDir, name);
      if path !in disk {
        seenCache := seenCache[name := {}];
        return {};
      }
      seen := DecodeIds(disk[path]);
      seenCache := seenCache[name := seen];
    }

    /** `is_seen`: membership in the loaded seen set. */
    method IsSeen(name: string, key: string) returns (b: bool)
      modifies this
      ensures b <==> key in old(Seen(name))
      ensures seenCache == old(seenCache)[name := old(Seen(name))]
      ensures disk == old(disk) && presentCache == old(presentCache)
    {
      var seen := LoadSeen(name);
      b := key in seen;
    }

    /** `mark_seen`: the loaded set grows by `keys` and is written back,
        sorted, to the poller's seen file, and to no other file. */
    method MarkSeen(name: string, keys: set<string>)
      modifies this
      ensures seenCache == old(seenCache)[name := old(Seen(name)) + keys]
      ensures disk == old(disk)[SeenPath(rootDir, name) := EncodeIds(old(Seen(name)) + keys)]
      ensures presentCache == old(presentCache)
      ensures Seen(name) == old(Seen(name)) + keys
    {
      var seen := LoadSeen(name);
      seen := seen + keys;
      seenCache := seenCache[name := seen];
      disk := disk[SeenPath(rootDir, name) := EncodeIds(seenCache[name])];
    }

    /** `load_last_present_ids`: lazily cached like the seen set. */
    method LoadLastPresentIds(name: string) returns (ids: set<string>)
      modifies this
      ensures ids == old(Present(name))
      ensures presentCache == old(presentCache)[name := ids]
      ensures disk == old(disk) && seenCache == old(seenCache)
    {
      if name in presentCache {
        return presentCache[name];
      }
      var path := PresentPath(rootDir, name);
      if path !in disk {
        presentCache := presentCache[name := {}];
        return {};
      }
      ids := DecodeIds(disk[path]);
      presentCache := presentCache[name := ids];
    }

    /** `save_current_present_ids`: the cache takes a copy of `ids` and the
        present file holds them sorted. */
    method SaveCurrentPresentIds(name: string, ids: set<string>)
      modifies this
      ensures presentCache == old(presentCache)[name := ids]
      ensures disk == old(disk)[PresentPath(rootDir, name) := EncodeIds(ids)]
      ensures seenCache == old(seenCache)
      ensures Present(name) == ids
    {
      presentCache := presentCache[name := ids];
      disk := disk[PresentPath(rootDir, name) := EncodeIds(ids)];
    }

    /** `load_tracking`: read from the disk on every call, never cached. */
    method LoadTracking(name: string) returns (data: Option<Record>)
      ensures data == ReadTracking(disk, TrackingPath(rootDir, name))
    {
      var path := TrackingPath(rootDir, name);
      if path !in disk {
        return None;
      }
      match disk[path]
      case Json(JObj(fields)) => data := Some(fields);
      case _ => data := None;
    }

    /** `save_tracking`: writes the record, or deletes the file for `None`. */
    method SaveTracking(name: string, data: Option<Record>)
      modifies this
      ensures disk == WriteTracking(old(disk), TrackingPath(rootDir, name), data)
      ensures seenCache == old(seenCache) && presentCache == old(presentCache)
    {
      var path := TrackingPath(rootDir, name);
      match data
      case None =>
        if path in disk {
          disk := disk - {path};
        }
      case Some(d) =>
        disk := disk[path := Json(JObj(d))];
    }
  }
}
