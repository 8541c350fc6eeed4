/** What the server-backed screens exchange with the backend: JSON records,
    the requests a handler issues, and the outcome of each request. */
module Records {

  datatype Option<T> = None | Some(value: T)

  /** A record as the backend sends it: a JSON object whose fields are
      strings. A field that is absent reads as `undefined`. */
  type Record = map<string, string>

  /** `record[key]`: `None` stands for `undefined`. */
  function Get(r: Record, key: string): Option<string>
  {
    if key in r then Some(r[key]) else None
  }

  /** `record.key || ''`: an absent or empty field reads as the empty string. */
  function Text(r: Record, key: string): (t: string)
    ensures t != "" <==> Truthy(Get(r, key))
    ensures t != "" ==> Get(r, key) == Some(t)
  {
    if key in r then r[key] else ""
  }

  /** `{ ...r, [key]: value }`, the update every `handleChange` performs:
      the named field takes the new value and no other field changes. */
  function WithField(r: Record, key: string, value: string): (u: Record)
    ensures Get(u, key) == Some(value)
    ensures forall k :: k != key ==> Get(u, k) == Get(r, k)
    ensures u.Keys == r.Keys + {key}
  {
    r[key := value]
  }

  /** JavaScript truthiness of a string that may be `undefined` or `null`. */
  predicate Truthy(v: Option<string>)
    ensures !Truthy(v) <==> v == None || v == Some("")
  {
    v.Some? && v.value != ""
  }

  /** The request a handler hands to the network layer. `id` is the value
      interpolated into the URL, `None` when the record had no such field. */
  datatype Request =
    | List
    | Create(body: Record)
    | Update(id: Option<string>, body: Record)
    | Remove(id: Option<string>)

  /** Outcome of a create, update or delete call: the awaited promise
      resolved or it threw. */
  datatype WriteResult = Succeeded | Failed

  /** Outcome of a list call: the response body, or a thrown error. */
  datatype ListResult<T> = Fetched(items: T) | FetchFailed
}
