/** The in-memory idempotency store and the duplicate filter in front of the workers. */
module IdemStore {
  import opened Retry

  type Keys = map<string, int>

  function Lookup(keys: Keys, k: string): (r: Option<int>) {
    if k in keys then Some(keys[k]) else None
  }

  /** Drop every entry that had expired at `stale`. */
  function Purge(keys: Keys, stale: int): (r: Keys)
    ensures forall k :: k in r <==> k in keys && keys[k] >= stale
    ensures forall k :: k in r ==> r[k] == keys[k]
  {
    map k | k in keys && stale <= keys[k] :: keys[k]
  }
}
