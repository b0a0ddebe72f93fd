/** The key/value staging store (Redis) behind RedisClient. */
module Cache {
  import opened Common

  /** What get_message reads from a store holding `data`: the stored string,
      or None when the key is absent or holds the empty string (Redis hands
      back b"", which is falsy). */
  function Lookup(data: map<string, string>, key: string): (r: Option<string>)
    ensures r.Some? <==> key in data && data[key] != ""
    ensures r.Some? ==> r.value == data[key] && r.value != ""
  {
    if key in data && data[key] != "" then Some(data[key]) else None
  }

  /** A written string reads back as itself, except the empty string, which
      reads back as absent. */
  lemma WriteThenRead(data: map<string, string>, key: string, message: string)
    ensures Lookup(data[key := message], key) == (if message == "" then None else Some(message))
  {
  }

  /** A write changes what is read under its own key only. */
  lemma WriteLeavesOtherKeys(data: map<string, string>, key: string, message: string, other: string)
    requires other != key
    ensures Lookup(data[key := message], other) == Lookup(data, other)
  {
  }

  /** RedisClient over the store's contents. */
  class RedisClient {
    var data: map<string, string>

    /** A client of a server that already holds `contents`. */
    constructor (contents: map<string, string>)
      ensures data == contents
    {
      data := contents;
    }

    /** set_message: SET key message, overwriting any earlier value. */
    method SetMessage(key: string, message: string)
      modifies this
      ensures data == old(data)[key := message]
    {
      data := data[key := message];
    }

    /** get_message: GET key, decoded, with a falsy reply read as None. */
    method GetMessage(key: string) returns (message: Option<string>)
      ensures message.Some? <==> key in data && data[key] != ""
      ensures message.Some? ==> message.value == data[key]
      ensures message == Lookup(data, key)
    {
      if key in data && data[key] != "" {
        message := Some(data[key]);
      } else {
        message := None;
      }
    }
  }
}
