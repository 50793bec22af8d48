/**
  An in-memory stand-in for App Engine's memcache service as main.go uses it: a store of byte
  blobs by string key with `Add` (store only if absent), `Set` (overwrite) and `Get`.
 */
module Memcache {
  import opened Results

  newtype byte = b: int | 0 <= b < 256

  type Bytes = seq<byte>

  /** The errors main.go distinguishes: `ErrNotStored`, `ErrCacheMiss`, and any other
      failure of the service. */
  datatype CacheError = ErrNotStored | ErrCacheMiss | ErrService

  class Cache {
    /** The stored items. */
    var items: map<string, Bytes>
    /** Whether the service answers; when it does not, every call fails with `ErrService`. */
    var reachable: bool

    constructor (reachable: bool)
      ensures items == map[] && this.reachable == reachable
    {
      items := map[];
      this.reachable := reachable;
    }

    /** Store `value` under `key` only if `key` holds nothing yet; `None` means success. */
    method Add(key: string, value: Bytes) returns (err: Option<CacheError>)
      modifies this`items
      ensures !reachable ==> err == Some(ErrService) && items == old(items)
      ensures reachable && key !in old(items) ==> err == None && items == old(items)[key := value]
      ensures reachable && key in old(items) ==> err == Some(ErrNotStored) && items == old(items)
    {
      if !reachable {
        err := Some(ErrService);
      } else if key in items {
        err := Some(ErrNotStored);
      } else {
        items := items[key := value];
        err := None;
      }
    }

    /** Store `value` under `key` unconditionally; `None` means success. */
    method Set(key: string, value: Bytes) returns (err: Option<CacheError>)
      modifies this`items
      ensures !reachable ==> err == Some(ErrService) && items == old(items)
      ensures reachable ==> err == None && items == old(items)[key := value]
    {
      if !reachable {
        err := Some(ErrService);
      } else {
        items := items[key := value];
        err := None;
      }
    }

    /** The value stored under `key`, `ErrCacheMiss` when there is none. */
    method Get(key: string) returns (r: Result<Bytes, CacheError>)
      ensures r.Ok? <==> reachable && key in items
      ensures r.Ok? ==> r.value == items[key]
      ensures r.Err? ==> r.error == (if reachable then ErrCacheMiss else ErrService)
    {
      if !reachable {
        r := Err(ErrService);
      } else if key in items {
        r := Ok(items[key]);
      } else {
        r := Err(ErrCacheMiss);
      }
    }
  }
}
