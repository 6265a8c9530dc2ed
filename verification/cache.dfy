/** The on-disk content cache of cache.py: a directory of files, each named
    by a digest of a logical key. The digest (MD5 in the source) is a field
    of the store and is not assumed to be injective; serialisation is
    abstracted to keeping the value itself, and a file that would not
    deserialise is `Corrupt`. */
module Cache {
  import opened Text

  /** What a file in the cache directory yields when it is read back. */
  datatype Entry<V> = Valid(value: V) | Corrupt

  /** The cache directory, as file name to content. It may also hold files
      the cache never wrote. */
  datatype Store<V> = Store(digest: string -> string, files: map<string, Entry<V>>)

  const Extension: string := ".pkl"

  /** `_cache_key_to_filename`: the digest of the key followed by the extension. */
  function FileName<V>(s: Store<V>, key: string): (f: string)
    ensures EndsWith(f, Extension)
    ensures f[..|f| - |Extension|] == s.digest(key)
  {
    s.digest(key) + Extension
  }

  /** `exists` */
  predicate Exists<V>(s: Store<V>, key: string)
  {
    FileName(s, key) in s.files
  }

  /** `get` either misses, returns the stored value, or raises `CacheError`. */
  datatype Lookup<V> = Miss | Hit(value: V) | ReadFailed

  /** `get`: a missing file is a miss, not an error; an unreadable one raises. */
  function Get<V>(s: Store<V>, key: string): (r: Lookup<V>)
    ensures r.Miss? <==> !Exists(s, key)
    ensures r.ReadFailed? <==> Exists(s, key) && s.files[FileName(s, key)].Corrupt?
    ensures r.Hit? ==> s.files[FileName(s, key)] == Valid(r.value)
  {
    var f := FileName(s, key);
    if f !in s.files then Miss
    else
      match s.files[f]
      case Valid(v) => Hit(v)
      case Corrupt => ReadFailed
  }

  /** How a write went: `open(path, "wb")` may fail, leaving the directory
      as it was, or succeed and the dump fail, leaving a truncated file. */
  datatype WriteOutcome = Written | OpenFailed | DumpFailed

  /** The directory after `set`, and whether `set` raised `CacheError`. */
  datatype Stored<V> = Stored(store: Store<V>, raised: bool)

  /** `set` */
  function Set<V>(s: Store<V>, key: string, v: V, w: WriteOutcome): (r: Stored<V>)
    ensures r.store.digest == s.digest
    ensures r.raised <==> !w.Written?
    ensures w.Written? ==> Get(r.store, key) == Hit(v) && Exists(r.store, key)
    ensures w.DumpFailed? ==> Get(r.store, key) == ReadFailed
    ensures w.OpenFailed? ==> r.store.files == s.files
    ensures forall f :: f != FileName(s, key) ==> (f in r.store.files <==> f in s.files)
    ensures forall f :: f != FileName(s, key) && f in s.files ==> r.store.files[f] == s.files[f]
    ensures forall k :: FileName(s, k) != FileName(s, key) ==> Get(r.store, k) == Get(s, k)
  {
    var f := FileName(s, key);
    match w
    case Written => Stored(Store(s.digest, s.files[f := Valid(v)]), false)
    case OpenFailed => Stored(s, true)
    case DumpFailed => Stored(Store(s.digest, s.files[f := Corrupt]), true)
  }

  /** Going from `s` to `t` changed at most the file of `key`: every key
      stored under another file name reads as before. */
  ghost predicate OnlyTouches<V>(s: Store<V>, t: Store<V>, key: string)
  {
    t.digest == s.digest && forall k :: FileName(s, k) != FileName(s, key) ==> Get(t, k) == Get(s, k)
  }

  /** A key with another digest, and so in another file, reads as before,
      under the same file name. */
  lemma ReadsAsBefore<V>(s: Store<V>, t: Store<V>, key: string, k: string)
    requires OnlyTouches(s, t, key) && s.digest(k) != s.digest(key)
    ensures Get(t, k) == Get(s, k) && FileName(t, k) == FileName(s, k)
  {
    assert FileName(s, k) != FileName(s, key);
  }

  /** `clear`: unlink every file matching `*.pkl`. */
  function Clear<V>(s: Store<V>): (r: Store<V>)
    ensures r.digest == s.digest
    ensures forall f :: f in r.files <==> f in s.files && !EndsWith(f, Extension)
    ensures forall key :: !Exists(r, key) && Get(r, key) == Miss
  {
    Store(s.digest, map f | f in s.files && !EndsWith(f, Extension) :: s.files[f])
  }

  /** Two keys whose digests collide share one file: a write under one is
      what a read under the other returns. */
  lemma DigestCollisionShares<V>(s: Store<V>, k1: string, k2: string, v: V)
    requires s.digest(k1) == s.digest(k2)
    ensures Get(Set(s, k1, v, Written).store, k2) == Hit(v)
  {
  }
}
