/** The browser's key-value store (`localStorage`) as the client uses it:
    every value is the JSON text of one document. */
module KeyValue {
  import opened Wrappers

  /** The text stored under a key, seen through `JSON.parse`: either the
      output of `JSON.stringify` for a document, or text that does not parse
      (left behind by an older version, edited by hand, truncated). */
  datatype Stored<V> = Json(doc: V) | Unparsable(raw: string)

  type Entries<V> = map<string, Stored<V>>

  /** `JSON.stringify`: what it writes parses back to the same document. */
  function Stringify<V>(doc: V): (text: Stored<V>)
    ensures Parse(text) == Some(doc)
  {
    Json(doc)
  }

  /** `JSON.parse`, a partial function: it fails exactly on unparsable text. */
  function Parse<V>(text: Stored<V>): (r: Option<V>)
    ensures r.None? <==> text.Unparsable?
  {
    match text
    case Json(d) => Some(d)
    case Unparsable(_) => None
  }

  /** JavaScript's `!data` on the result of `getItem`: true for a missing
      entry (`null`) and for the empty string. A blank entry never parses,
      and a written document is never blank. */
  predicate IsBlank<V>(data: Option<Stored<V>>)
    ensures data.None? ==> IsBlank(data)
    ensures IsBlank(data) ==> data.None? || Parse(data.value).None?
    ensures data.Some? && data.value.Json? ==> !IsBlank(data)
  {
    data.None? || (data.value.Unparsable? && data.value.raw == "")
  }

  /** The read both services perform: `getItem`, a blank check, then
      `JSON.parse` inside a `try`. Every failure reads as `None`. */
  function ReadJson<V>(entries: Entries<V>, key: string): (r: Option<V>)
    ensures key !in entries ==> r.None?
    ensures r.Some? <==> key in entries && entries[key].Json?
    ensures r.Some? ==> entries[key] == Stringify(r.value)
  {
    var data := if key in entries then Some(entries[key]) else None;
    if IsBlank(data) then None else Parse(data.value)
  }

  /** `localStorage` itself: a mutable map from keys to stored text. */
  class LocalStore<V> {
    var entries: Entries<V>

    constructor (initial: Entries<V>)
      ensures entries == initial
    {
      entries := initial;
    }

    /** `getItem`: `null` for a missing key. */
    function GetItem(key: string): (data: Option<Stored<V>>)
      reads this
      ensures data.Some? <==> key in entries
      ensures data.Some? ==> data.value == entries[key]
    {
      if key in entries then Some(entries[key]) else None
    }

    /** `setItem`: replaces the entry under `key` and nothing else. */
    method SetItem(key: string, text: Stored<V>)
      modifies this
      ensures entries == old(entries)[key := text]
    {
      entries := entries[key := text];
    }

    /** `removeItem`: drops the entry under `key`, if any, and nothing else. */
    method RemoveItem(key: string)
      modifies this
      ensures entries == old(entries) - {key}
    {
      entries := entries - {key};
    }
  }
}
