/** The wire records of the counter page and the client's snapshot type. */
module Messages {

  datatype Option<+T> = None | Some(value: T)

  /**
   * The `Message` interface of app/page.tsx, used in both directions:
   * a `type` discriminator and an optional counter name and value.
   * An absent field is `None`; `JSON.stringify` drops such fields.
   */
  datatype Message = Message(kind: string, counter: Option<string>, value: Option<int>)

  /** One inbound frame after `JSON.parse`: a record, or the exception the parser threw. */
  datatype Inbound = Parsed(msg: Message) | ParseError

  /** The `counters` state (`CounterData`): counter name to current value. */
  type Counters = map<string, int>

  /** What `counters[name]` reads: the value, or `undefined` for an absent counter. */
  function Lookup(m: Counters, name: string): (r: Option<int>)
    ensures r.Some? <==> name in m
    ensures r.Some? ==> r.value == m[name]
  {
    if name in m then Some(m[name]) else None
  }

  /** JavaScript truthiness of an optional string field: present and non-empty. */
  predicate Truthy(s: Option<string>)
  {
    s.Some? && s.value != ""
  }
}
