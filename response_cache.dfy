/**
 * The response cache of src/lib/ResponseCache.ts: for each resource type, an
 * object from file path to the (identifier, definition) pairs found in that
 * file. A path keeps the position at which it was first added, which is the
 * order `Object.keys` visits it in.
 *
 * The pure part states each operation on a cache value; the class holds the
 * cache in a field that its methods reassign, as the source does.
 */
module ResponseCache {
  import opened Base

  /** One cached `{ identifier, file }` pair. */
  datatype Symbol = Symbol(identifier: string, file: FileData)

  /** The object of one type: path to symbols, in the order the paths were added. */
  type PathTable = seq<(string, seq<Symbol>)>

  /** The whole cache: the object of each type that has one. */
  type Cache = map<FileType, PathTable>

  // ---------------------------------------------------------------------------
  // Path tables
  // ---------------------------------------------------------------------------

  /** `Object.keys(table)`. */
  function Paths(t: PathTable): (r: seq<string>)
    ensures |r| == |t|
    ensures forall i :: 0 <= i < |t| ==> r[i] == t[i].0
  {
    seq(|t|, i requires 0 <= i < |t| => t[i].0)
  }

  /** `table[path]`, or undefined. */
  function Lookup(t: PathTable, p: string): Option<seq<Symbol>> {
    if t == [] then None
    else if t[0].0 == p then Some(t[0].1)
    else Lookup(t[1..], p)
  }

  /** The symbols at a path, none when the path is absent. */
  function Listing(t: PathTable, p: string): seq<Symbol> {
    match Lookup(t, p)
    case Some(s) => s
    case None => []
  }

  /** `table[path] = v`: an existing path keeps its position, a new one is added last. */
  function Put(t: PathTable, p: string, v: seq<Symbol>): PathTable {
    if t == [] then [(p, v)]
    else if t[0].0 == p then [(p, v)] + t[1..]
    else [t[0]] + Put(t[1..], p, v)
  }

  /** A path can be looked up iff it is one of the keys. */
  lemma {:induction false} LookupPaths(t: PathTable, p: string)
    ensures Lookup(t, p).Some? <==> p in Paths(t)
  {
    if t != [] {
      LookupPaths(t[1..], p);
      assert Paths(t) == [t[0].0] + Paths(t[1..]);
    }
  }

  /** Writing a path changes what that path holds and nothing else. */
  lemma {:induction false} PutLookup(t: PathTable, p: string, v: seq<Symbol>, q: string)
    ensures Lookup(Put(t, p, v), q) == if q == p then Some(v) else Lookup(t, q)
  {
    if t != [] && t[0].0 != p {
      PutLookup(t[1..], p, v, q);
      assert Put(t, p, v)[1..] == Put(t[1..], p, v);
    }
  }

  /** Writing a path adds it to the keys when new, at the end; the other keys keep their order. */
  lemma {:induction false} PutPaths(t: PathTable, p: string, v: seq<Symbol>)
    ensures Paths(Put(t, p, v)) == if p in Paths(t) then Paths(t) else Paths(t) + [p]
  {
    if t != [] {
      assert Paths(t) == [t[0].0] + Paths(t[1..]);
      if t[0].0 != p {
        PutPaths(t[1..], p, v);
        assert Paths(Put(t, p, v)) == [t[0].0] + Paths(Put(t[1..], p, v));
      } else {
        assert Paths(Put(t, p, v)) == [p] + Paths(t[1..]);
      }
    }
  }

  /** The object's keys are distinct. */
  predicate DistinctPaths(t: PathTable) {
    forall i, j :: 0 <= i < j < |t| ==> t[i].0 != t[j].0
  }

  lemma {:induction false} PutDistinct(t: PathTable, p: string, v: seq<Symbol>)
    requires DistinctPaths(t)
    ensures DistinctPaths(Put(t, p, v))
  {
    PutPaths(t, p, v);
    assert forall i :: 0 <= i < |Put(t, p, v)| ==> Put(t, p, v)[i].0 == Paths(Put(t, p, v))[i];
  }

  // ---------------------------------------------------------------------------
  // setCache
  // ---------------------------------------------------------------------------

  /** `data.files.map(f => f.uri.path)`: the paths a response mentions. */
  function FilePaths(files: seq<FileData>): (r: seq<string>)
    ensures |r| == |files|
    ensures forall i :: 0 <= i < |files| ==> r[i] == files[i].uri.path
  {
    seq(|files|, i requires 0 <= i < |files| => files[i].uri.path)
  }

  /** The first loop of `setCache`: every mentioned path is set to an empty list. */
  function Reset(t: PathTable, paths: seq<string>): PathTable {
    if paths == [] then t else Put(Reset(t, paths[..|paths| - 1]), paths[|paths| - 1], [])
  }

  lemma {:induction false} ResetLookup(t: PathTable, paths: seq<string>, q: string)
    ensures Lookup(Reset(t, paths), q) == if q in paths then Some([]) else Lookup(t, q)
  {
    if paths != [] {
      var prev := paths[..|paths| - 1];
      ResetLookup(t, prev, q);
      PutLookup(Reset(t, prev), paths[|paths| - 1], [], q);
      assert paths == prev + [paths[|paths| - 1]];
    }
  }

  /** Whether the second loop pushes the i-th definition: always without a uri, else only for the uri's path. */
  predicate Kept(data: FilesSearchResponse, uri: Option<Uri>, i: int)
    requires 0 <= i < |data.files|
  {
    uri.None? || data.files[i].uri.path == uri.value.path
  }

  /** The second loop of `setCache`, run over the first `n` definitions. */
  function Pushes(t: PathTable, data: FilesSearchResponse, uri: Option<Uri>, n: nat): PathTable
    requires n <= |data.files| <= |data.identifiers|
  {
    if n == 0 then t
    else
      var prev := Pushes(t, data, uri, n - 1);
      var file := data.files[n - 1];
      if Kept(data, uri, n - 1) then
        Put(prev, file.uri.path, Listing(prev, file.uri.path) + [Symbol(data.identifiers[n - 1], file)])
      else prev
  }

  /** The pairs of the first `n` definitions that are kept and lie at path `q`, in order. */
  function Selected(data: FilesSearchResponse, uri: Option<Uri>, q: string, n: nat): seq<Symbol>
    requires n <= |data.files| <= |data.identifiers|
  {
    if n == 0 then []
    else
      Selected(data, uri, q, n - 1) +
      (if Kept(data, uri, n - 1) && data.files[n - 1].uri.path == q
       then [Symbol(data.identifiers[n - 1], data.files[n - 1])] else [])
  }

  /** What one type's object becomes after `setCache(type, data, uri)`. */
  function SetTable(t: PathTable, data: FilesSearchResponse, uri: Option<Uri>): PathTable
    requires |data.files| <= |data.identifiers|
  {
    Pushes(Reset(t, FilePaths(data.files)), data, uri, |data.files|)
  }

  lemma {:induction false} PushesLookup(t: PathTable, data: FilesSearchResponse, uri: Option<Uri>, n: nat, q: string)
    requires n <= |data.files| <= |data.identifiers|
    requires forall i :: 0 <= i < |data.files| ==> Lookup(t, data.files[i].uri.path) == Some([])
    ensures Lookup(Pushes(t, data, uri, n), q) ==
      if q in FilePaths(data.files) then Some(Selected(data, uri, q, n)) else Lookup(t, q)
  {
    if n == 0 {
      if q in FilePaths(data.files) {
        var i :| 0 <= i < |data.files| && FilePaths(data.files)[i] == q;
      }
    } else {
      var prev := Pushes(t, data, uri, n - 1);
      var file := data.files[n - 1];
      var path := file.uri.path;
      var sym := Symbol(data.identifiers[n - 1], file);
      SelectedStep(data, uri, q, n);
      if Kept(data, uri, n - 1) {
        assert path in FilePaths(data.files) by {
          assert FilePaths(data.files)[n - 1] == path;
        }
        assert Lookup(prev, path) == Some(Selected(data, uri, path, n - 1)) by {
          PushesLookup(t, data, uri, n - 1, path);
        }
        PutLookup(prev, path, Listing(prev, path) + [sym], q);
        if q != path {
          PushesLookup(t, data, uri, n - 1, q);
        }
      } else {
        PushesLookup(t, data, uri, n - 1, q);
      }
    }
  }

  /** One more definition adds its pair to the selection at its own path, when it is kept. */
  lemma {:induction false} SelectedStep(data: FilesSearchResponse, uri: Option<Uri>, q: string, n: nat)
    requires 0 < n <= |data.files| <= |data.identifiers|
    ensures Selected(data, uri, q, n) ==
      if Kept(data, uri, n - 1) && data.files[n - 1].uri.path == q
      then Selected(data, uri, q, n - 1) + [Symbol(data.identifiers[n - 1], data.files[n - 1])]
      else Selected(data, uri, q, n - 1)
  {
    if !(Kept(data, uri, n - 1) && data.files[n - 1].uri.path == q) {
      assert Selected(data, uri, q, n - 1) + [] == Selected(data, uri, q, n - 1);
    }
  }

  /**
   * After `setCache(type, data, uri)`, a path that `data` mentions holds
   * exactly the pairs of `data` at that path, in order (none for a path other
   * than the uri's when a uri is given); every other path is untouched.
   */
  lemma {:induction false} SetTableLookup(t: PathTable, data: FilesSearchResponse, uri: Option<Uri>, q: string)
    requires |data.files| <= |data.identifiers|
    ensures Lookup(SetTable(t, data, uri), q) ==
      if q in FilePaths(data.files) then Some(Selected(data, uri, q, |data.files|)) else Lookup(t, q)
  {
    var paths := FilePaths(data.files);
    forall i | 0 <= i < |data.files|
      ensures Lookup(Reset(t, paths), data.files[i].uri.path) == Some([])
    {
      assert paths[i] == data.files[i].uri.path;
      ResetLookup(t, paths, data.files[i].uri.path);
    }
    PushesLookup(Reset(t, paths), data, uri, |data.files|, q);
    ResetLookup(t, paths, q);
  }

  /** With a uri, nothing at another path is kept. */
  lemma {:induction false} SelectedOtherPath(data: FilesSearchResponse, uri: Option<Uri>, q: string, n: nat)
    requires n <= |data.files| <= |data.identifiers|
    requires uri.Some? && q != uri.value.path
    ensures Selected(data, uri, q, n) == []
  {
    if n > 0 {
      SelectedOtherPath(data, uri, q, n - 1);
    }
  }

  /** Without a uri, the pairs at a path are those of every definition in that file, in order. */
  lemma {:induction false} SelectedAll(data: FilesSearchResponse, q: string, n: nat)
    requires n <= |data.files| <= |data.identifiers|
    ensures forall s :: s in Selected(data, None, q, n) <==>
      exists i :: 0 <= i < n && data.files[i].uri.path == q && s == Symbol(data.identifiers[i], data.files[i])
  {
    if n > 0 {
      SelectedAll(data, q, n - 1);
    }
  }

  // ---------------------------------------------------------------------------
  // The cache as a value
  // ---------------------------------------------------------------------------

  /** `uri?.path` as the source tests it: an absent uri or an empty path counts as no path. */
  function PathOf(uri: Option<Uri>): (r: Option<string>)
    ensures r.Some? ==> r.value != ""
  {
    if uri.Some? && uri.value.path != "" then Some(uri.value.path) else None
  }

  /** `checkCache(type, path)`. */
  function CheckCacheIn(m: Cache, type_: FileType, path: Option<string>): (r: bool)
    ensures r <==> type_ in m && (path.None? || path.value == "" || Lookup(m[type_], path.value).Some?)
  {
    LookupPathsAll(m, type_);
    type_ in m && (path.None? || path.value == "" || path.value in Paths(m[type_]))
  }

  lemma {:induction false} LookupPathsAll(m: Cache, type_: FileType)
    ensures type_ in m ==> forall p :: Lookup(m[type_], p).Some? <==> p in Paths(m[type_])
  {
    if type_ in m {
      forall p ensures Lookup(m[type_], p).Some? <==> p in Paths(m[type_]) {
        LookupPaths(m[type_], p);
      }
    }
  }

  /** The object of a type, or a fresh empty one. */
  function TableOf(m: Cache, type_: FileType): PathTable {
    if type_ in m then m[type_] else []
  }

  /** `setCache(type, data, uri)` on a cache value. */
  function SetCacheIn(m: Cache, type_: FileType, data: FilesSearchResponse, uri: Option<Uri>): Cache
    requires |data.files| <= |data.identifiers|
  {
    m[type_ := SetTable(TableOf(m, type_), data, uri)]
  }

  /** A response built from symbols: the files and the identifiers of the same pairs, index by index. */
  function Response(syms: seq<Symbol>): (r: FilesSearchResponse)
    ensures |r.files| == |syms| && |r.identifiers| == |syms|
    ensures forall i :: 0 <= i < |syms| ==> Symbol(r.identifiers[i], r.files[i]) == syms[i]
  {
    FilesSearchResponse(seq(|syms|, i requires 0 <= i < |syms| => syms[i].file),
                        seq(|syms|, i requires 0 <= i < |syms| => syms[i].identifier))
  }

  /** All symbols of an object, path after path in key order. */
  function Flatten(t: PathTable): seq<Symbol> {
    if t == [] then [] else Flatten(t[..|t| - 1]) + t[|t| - 1].1
  }

  /**
   * `fromCache(type, path)`: reading an absent type throws; without a path,
   * every path's pairs in key order; with a path, that path's pairs, or
   * nothing when it is absent.
   */
  function FromCacheIn(m: Cache, type_: FileType, path: Option<string>): Completion<FilesSearchResponse> {
    if type_ !in m then Throw
    else if path.None? || path.value == "" then Normal(Response(Flatten(m[type_])))
    else Normal(Response(Listing(m[type_], path.value)))
  }

  /** Whether `setOrGetFromCache` calls its producer. */
  predicate NeedsFetch(m: Cache, type_: FileType, uri: Option<Uri>, overwrite: bool) {
    !CheckCacheIn(m, type_, PathOf(uri)) || overwrite
  }

  /** After `setCache` the type is present, so `checkCache` without a path holds. */
  lemma {:induction false} SetCachePresent(m: Cache, type_: FileType, data: FilesSearchResponse, uri: Option<Uri>)
    requires |data.files| <= |data.identifiers|
    ensures CheckCacheIn(SetCacheIn(m, type_, data, uri), type_, None)
    ensures FromCacheIn(SetCacheIn(m, type_, data, uri), type_, PathOf(uri)).Normal?
  {
  }

  /**
   * `setCache` only touches the given type, and within it only the paths
   * `data` mentions: every other type and path reads as before.
   */
  lemma {:induction false} SetCacheLeavesOthers(m: Cache, type_: FileType, data: FilesSearchResponse, uri: Option<Uri>,
                             other: FileType, q: string)
    requires |data.files| <= |data.identifiers|
    ensures other != type_ ==>
      (other in SetCacheIn(m, type_, data, uri) <==> other in m) &&
      (other in m ==> SetCacheIn(m, type_, data, uri)[other] == m[other])
    ensures q !in FilePaths(data.files) ==>
      Lookup(SetCacheIn(m, type_, data, uri)[type_], q) == Lookup(TableOf(m, type_), q)
  {
    SetTableLookup(TableOf(m, type_), data, uri, q);
  }

  /**
   * Reading one path right after writing a response returns exactly that
   * path's definitions from the response, in order.
   */
  lemma {:induction false} FromCacheAfterSet(m: Cache, type_: FileType, data: FilesSearchResponse, uri: Option<Uri>, q: string)
    requires |data.files| <= |data.identifiers|
    requires q != "" && q in FilePaths(data.files)
    ensures FromCacheIn(SetCacheIn(m, type_, data, uri), type_, Some(q)) ==
      Normal(Response(Selected(data, uri, q, |data.files|)))
  {
    SetTableLookup(TableOf(m, type_), data, uri, q);
  }

  /**
   * A second `setOrGetFromCache` without `overwrite` does not call the
   * producer again once the first one stored the response: always without a
   * path, and with a path when the response mentions that path.
   */
  lemma {:induction false} SecondCallUsesCache(m: Cache, type_: FileType, data: FilesSearchResponse, uri: Option<Uri>)
    requires |data.files| <= |data.identifiers|
    requires PathOf(uri).Some? ==> PathOf(uri).value in FilePaths(data.files)
    ensures !NeedsFetch(SetCacheIn(m, type_, data, uri), type_, uri, false)
  {
    if PathOf(uri).Some? {
      SetTableLookup(TableOf(m, type_), data, uri, PathOf(uri).value);
    }
  }

  /**
   * A file whose response mentions no definition at its own path leaves no
   * entry for that path, so every later call for it calls the producer again.
   */
  lemma {:induction false} EmptyFileFetchedAgain(m: Cache, type_: FileType, data: FilesSearchResponse, uri: Option<Uri>)
    requires |data.files| <= |data.identifiers|
    requires PathOf(uri).Some? && PathOf(uri).value !in FilePaths(data.files)
    requires !CheckCacheIn(m, type_, PathOf(uri))
    ensures NeedsFetch(SetCacheIn(m, type_, data, uri), type_, uri, false)
  {
    SetTableLookup(TableOf(m, type_), data, uri, PathOf(uri).value);
  }

  /** A pair is in the flattened object iff it is listed under one of its paths. */
  lemma {:induction false} FlattenMembers(t: PathTable, s: Symbol)
    ensures s in Flatten(t) <==> exists i :: 0 <= i < |t| && s in t[i].1
  {
    if t != [] {
      var prev := t[..|t| - 1];
      FlattenMembers(prev, s);
      assert forall i :: 0 <= i < |prev| ==> prev[i] == t[i];
    }
  }

  /** With distinct keys, each listed path is found at its own entry. */
  lemma {:induction false} DistinctLookup(t: PathTable, i: int)
    requires DistinctPaths(t) && 0 <= i < |t|
    ensures Lookup(t, t[i].0) == Some(t[i].1)
  {
    if i > 0 {
      assert DistinctPaths(t[1..]);
      DistinctLookup(t[1..], i - 1);
    }
  }

  lemma {:induction false} ResetDistinct(t: PathTable, paths: seq<string>)
    requires DistinctPaths(t)
    ensures DistinctPaths(Reset(t, paths))
  {
    if paths != [] {
      ResetDistinct(t, paths[..|paths| - 1]);
      PutDistinct(Reset(t, paths[..|paths| - 1]), paths[|paths| - 1], []);
    }
  }

  lemma {:induction false} PushesDistinct(t: PathTable, data: FilesSearchResponse, uri: Option<Uri>, n: nat)
    requires n <= |data.files| <= |data.identifiers|
    requires DistinctPaths(t)
    ensures DistinctPaths(Pushes(t, data, uri, n))
  {
    if n > 0 {
      var prev := Pushes(t, data, uri, n - 1);
      PushesDistinct(t, data, uri, n - 1);
      var file := data.files[n - 1];
      PutDistinct(prev, file.uri.path, Listing(prev, file.uri.path) + [Symbol(data.identifiers[n - 1], file)]);
    }
  }

  /**
   * The first time a type is stored without a uri, reading it back without a
   * path gives exactly the pairs of the stored response, regrouped file by
   * file: a pair is read back iff it is the identifier and definition at the
   * same index of the response.
   */
  lemma {:induction false} FromCacheAllAfterFirstSet(m: Cache, type_: FileType, data: FilesSearchResponse, s: Symbol)
    requires |data.files| <= |data.identifiers|
    requires type_ !in m
    ensures FromCacheIn(SetCacheIn(m, type_, data, None), type_, None).Normal?
    ensures var r := FromCacheIn(SetCacheIn(m, type_, data, None), type_, None).value;
      (exists k :: 0 <= k < |r.files| && Symbol(r.identifiers[k], r.files[k]) == s) <==>
      exists i :: 0 <= i < |data.files| && s == Symbol(data.identifiers[i], data.files[i])
  {
    var t := SetTable([], data, None);
    ResetDistinct([], FilePaths(data.files));
    PushesDistinct(Reset([], FilePaths(data.files)), data, None, |data.files|);
    FlattenMembers(t, s);
    var r := Response(Flatten(t));
    assert (exists k :: 0 <= k < |r.files| && Symbol(r.identifiers[k], r.files[k]) == s) <==> s in Flatten(t) by {
      if s in Flatten(t) {
        var k :| 0 <= k < |Flatten(t)| && Flatten(t)[k] == s;
        assert Symbol(r.identifiers[k], r.files[k]) == s;
      }
    }
    if s in Flatten(t) {
      var i :| 0 <= i < |t| && s in t[i].1;
      DistinctLookup(t, i);
      SetTableLookup([], data, None, t[i].0);
      SelectedAll(data, t[i].0, |data.files|);
    }
    if exists i :: 0 <= i < |data.files| && s == Symbol(data.identifiers[i], data.files[i]) {
      var i :| 0 <= i < |data.files| && s == Symbol(data.identifiers[i], data.files[i]);
      var q := data.files[i].uri.path;
      assert q in FilePaths(data.files) by {
        assert FilePaths(data.files)[i] == q;
      }
      SetTableLookup([], data, None, q);
      SelectedAll(data, q, |data.files|);
      LookupPaths(t, q);
      var j :| 0 <= j < |t| && Paths(t)[j] == q;
      DistinctLookup(t, j);
    }
  }

  // ---------------------------------------------------------------------------
  // The class
  // ---------------------------------------------------------------------------

  class ResponseCache {
    var byType: Cache

    constructor ()
      ensures byType == map[]
    {
      byType := map[];
    }

    /** `emptyCache`: no type is cached afterwards. */
    method EmptyCache()
      modifies this
      ensures byType == map[]
      ensures forall t, p :: !CheckCache(t, p)
    {
      byType := map[];
    }

    /** `purgeAllByType(type)`: removes that type and nothing else. */
    method PurgeAllByType(type_: FileType)
      modifies this
      ensures byType == old(byType) - {type_}
      ensures forall t, p :: !(t == type_ && CheckCache(t, p))
      ensures forall t :: t != type_ && t in old(byType) ==> t in byType && byType[t] == old(byType)[t]
    {
      if type_ in byType {
        byType := byType - {type_};
      }
    }

    /** `checkCache(type, path)`. */
    function CheckCache(type_: FileType, path: Option<string>): bool
      reads this
    {
      CheckCacheIn(byType, type_, path)
    }

    /** `fromCache(type, path)`: copies the cached pairs into a fresh response. */
    method FromCache(type_: FileType, path: Option<string>) returns (r: Completion<FilesSearchResponse>)
      ensures r == FromCacheIn(byType, type_, path)
    {
      if type_ !in byType {
        return Throw;
      }
      var mapObject := byType[type_];
      if path.None? || path.value == "" {
        var response := CopyAll(mapObject);
        return Normal(response);
      }
      var symbols := Lookup(mapObject, path.value);
      if symbols.Some? {
        var files, identifiers := AppendSymbols(symbols.value, [], []);
        assert files == Response(symbols.value).files && identifiers == Response(symbols.value).identifiers;
        return Normal(FilesSearchResponse(files, identifiers));
      }
      return Normal(FilesSearchResponse([], []));
    }

    /**
     * `setCache(type, data, uri)`: creates the type's object when missing,
     * resets every path `data` mentions, then pushes each definition (only
     * those at the uri's path when a uri is given) with its identifier.
     */
    method SetCache(type_: FileType, data: FilesSearchResponse, uri: Option<Uri>)
      requires |data.files| <= |data.identifiers|
      modifies this
      ensures byType == SetCacheIn(old(byType), type_, data, uri)
    {
      var mapObject := TableOf(byType, type_);
      ghost var initial := mapObject;
      var uriUsed := FilePaths(data.files);
      var k := 0;
      while k < |uriUsed|
        invariant 0 <= k <= |uriUsed|
        invariant mapObject == Reset(initial, uriUsed[..k])
      {
        assert uriUsed[..k + 1][..k] == uriUsed[..k];
        mapObject := Put(mapObject, uriUsed[k], []);
        k := k + 1;
      }
      assert uriUsed[..|uriUsed|] == uriUsed;
      ghost var reset := mapObject;
      var i := 0;
      while i < |data.files|
        invariant 0 <= i <= |data.files|
        invariant mapObject == Pushes(reset, data, uri, i)
      {
        var file := data.files[i];
        var filePath := file.uri.path;
        if uri.None? || filePath == uri.value.path {
          mapObject := Put(mapObject, filePath, Listing(mapObject, filePath) + [Symbol(data.identifiers[i], file)]);
        }
        i := i + 1;
      }
      byType := byType[type_ := mapObject];
    }

    /**
     * `setOrGetFromCache(type, fn, uri, overwrite)` as one step: `fetched` is
     * what `fn()` would produce. The producer is called only when the entry
     * is missing or `overwrite` is set; a producer that throws leaves the
     * cache unchanged and the call throws.
     */
    method SetOrGetFromCache(type_: FileType, fetched: Completion<FilesSearchResponse>, uri: Option<Uri>,
                             overwrite: bool)
      returns (r: Completion<FilesSearchResponse>, called: bool)
      requires fetched.Normal? ==> |fetched.value.files| <= |fetched.value.identifiers|
      modifies this
      ensures called == NeedsFetch(old(byType), type_, uri, overwrite)
      ensures !called ==> byType == old(byType)
      ensures called && fetched.Throw? ==> byType == old(byType) && r.Throw?
      ensures called && fetched.Normal? ==> byType == SetCacheIn(old(byType), type_, fetched.value, uri)
      ensures !(called && fetched.Throw?) ==> r.Normal? && r == FromCacheIn(byType, type_, PathOf(uri))
    {
      var path := PathOf(uri);
      called := !CheckCache(type_, path) || overwrite;
      if called {
        if fetched.Throw? {
          return Throw, called;
        }
        SetCache(type_, fetched.value, uri);
        SetCachePresent(old(byType), type_, fetched.value, uri);
      }
      r := FromCache(type_, path);
    }
  }

  /** The loop of `fromCache` over every path of a type's object, in key order. */
  method CopyAll(mapObject: PathTable) returns (response: FilesSearchResponse)
    ensures response == Response(Flatten(mapObject))
  {
    var files: seq<FileData> := [];
    var identifiers: seq<string> := [];
    var k := 0;
    while k < |mapObject|
      invariant 0 <= k <= |mapObject|
      invariant Response(Flatten(mapObject[..k])) == FilesSearchResponse(files, identifiers)
    {
      var symbols := mapObject[k].1;
      files, identifiers := AppendSymbols(symbols, files, identifiers);
      assert mapObject[..k + 1][..k] == mapObject[..k];
      ResponseAppend(Flatten(mapObject[..k]), symbols);
      k := k + 1;
    }
    assert mapObject[..|mapObject|] == mapObject;
    response := FilesSearchResponse(files, identifiers);
  }

  /** The copy loop of `fromCache` for one path's pairs. */
  method AppendSymbols(symbols: seq<Symbol>, files: seq<FileData>, identifiers: seq<string>)
    returns (files': seq<FileData>, identifiers': seq<string>)
    ensures files' == files + Response(symbols).files
    ensures identifiers' == identifiers + Response(symbols).identifiers
  {
    files', identifiers' := files, identifiers;
    var j := 0;
    while j < |symbols|
      invariant 0 <= j <= |symbols|
      invariant files' == files + Response(symbols[..j]).files
      invariant identifiers' == identifiers + Response(symbols[..j]).identifiers
    {
      files' := files' + [symbols[j].file];
      identifiers' := identifiers' + [symbols[j].identifier];
      j := j + 1;
    }
    assert symbols[..|symbols|] == symbols;
  }

  lemma {:induction false} ResponseAppend(a: seq<Symbol>, b: seq<Symbol>)
    ensures Response(a + b) == FilesSearchResponse(Response(a).files + Response(b).files,
                                                   Response(a).identifiers + Response(b).identifiers)
  {
  }
}
