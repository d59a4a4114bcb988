/**
 * One entry of the browser's key-value store holding a JSON list (`getFromStorage` /
 * `setToStorage`). The list is kept decoded; a write either replaces it or, when the store
 * refuses writes, leaves it as it was and reports `false`.
 */
module Storage {

  class Store<T> {
    /** The list currently stored under the key. */
    var items: seq<T>
    /** How many writes have been issued to the key. */
    var writes: nat
    /** Whether the store accepts writes (it refuses them when full or absent). */
    const writable: bool

    constructor (items: seq<T>, writable: bool)
      ensures this.items == items && writes == 0 && this.writable == writable
    {
      this.items := items;
      this.writes := 0;
      this.writable := writable;
    }

    /** Writes `value` under the key; the result says whether the store took it. */
    method Set(value: seq<T>) returns (ok: bool)
      modifies this
      ensures ok == writable
      ensures items == (if writable then value else old(items))
      ensures writes == old(writes) + 1
    {
      writes := writes + 1;
      if writable {
        items := value;
      }
      ok := writable;
    }
  }
}
