/** Files a deployment owns: its log, its directory and its model cache with an ownership marker. */
module Files {
  import opened Basics
  import opened Store

  /** A cache directory: the trimmed text of its ownership marker, if it has one, and whether it holds anything else. */
  datatype Cache = Cache(marker: Option<string>, payload: bool)

  /** Log files and deployment directories by deployment ID, cache directories by path. */
  datatype Files = Files(logs: set<string>, dirs: set<string>, caches: map<Path, Cache>)

  predicate IsAlphanumeric(c: char) {
    'a' <= c <= 'z' || 'A' <= c <= 'Z' || '0' <= c <= '9'
  }

  /** validateID: one safe path segment of at most 64 characters. */
  predicate ValidId(id: string) {
    && 1 <= |id| <= 64
    && IsAlphanumeric(id[0])
    && (forall i :: 0 <= i < |id| ==> IsAlphanumeric(id[i]) || id[i] in "._-")
    && (forall i :: 0 <= i < |id| - 1 ==> !(id[i] == '.' && id[i + 1] == '.'))
  }

  function LastElement(p: Path): string {
    if p.elements == [] then "/" else p.elements[|p.elements| - 1]
  }

  predicate SafeCachePath(p: Path, id: string, key: string) {
    p.absolute && LastElement(p) == id && key != ""
  }

  /** The recorded cache directory, or the default one under `root` for a record without it. */
  function CachePath(root: Path, d: Deployment): Path {
    match d.cacheDir
    case Some(p) => p
    case None => Path(true, root.elements + [d.id])
  }

  datatype Ownership = Absent | Owned | Refused

  /** modelCacheOwnedBy: a cache may be removed only at a safe path and with the deployment's own marker. */
  function CacheOwnership(files: Files, p: Path, id: string, key: string): Ownership {
    if !SafeCachePath(p, id, key) then Refused
    else if p !in files.caches then Absent
    else if files.caches[p].marker == Some(key) then Owned
    else Refused
  }

  /** A cache is owned exactly at an absolute path that ends in the ID, with the deployment's own key in it. */
  lemma OwnershipIsExact(files: Files, p: Path, id: string, key: string)
    requires id != "/"
    ensures var safe := p.absolute && p.elements != [] && p.elements[|p.elements| - 1] == id && key != "";
            && (CacheOwnership(files, p, id, key) == Owned <==>
                  safe && p in files.caches && files.caches[p].marker == Some(key))
            && (CacheOwnership(files, p, id, key) == Absent <==> safe && p !in files.caches)
  {
  }

  /** Nothing the deployment owned is left. */
  predicate Gone(files: Files, root: Path, d: Deployment) {
    d.id !in files.logs && d.id !in files.dirs && CachePath(root, d) !in files.caches
  }

  function DropLog(files: Files, id: string): Files {
    files.(logs := files.logs - {id})
  }

  function DropDir(files: Files, id: string): Files {
    files.(dirs := files.dirs - {id})
  }

  function DropCache(files: Files, p: Path): Files {
    files.(caches := files.caches - {p})
  }

  function SetMarker(files: Files, p: Path, marker: Option<string>): Files
    requires p in files.caches
  {
    files.(caches := files.caches[p := files.caches[p].(marker := marker)])
  }
}
