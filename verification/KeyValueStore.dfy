/** The key-value store every service talks to. A call whose reply is an error may or may not have taken effect. */
module KeyValueStore {
  import opened Options
  import opened Readings

  datatype BreachState = BreachState(breachStartMs: int, fired: bool)

  datatype Entry = Breach(state: BreachState) | OfflineFlag | Shadow(reading: Reading)

  type Store = map<string, Entry>

  function Lookup(store: Store, key: string): Option<Entry> {
    if key in store then Some(store[key]) else None
  }

  /** The reply to a write: it succeeded, or an error came back and the write took effect or not. */
  datatype WriteReply = Written | WriteError(applied: bool)

  predicate TookEffect(reply: WriteReply) {
    reply.Written? || reply.applied
  }

  datatype ReadReply = Found(entry: Option<Entry>) | ReadError
}
