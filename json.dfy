/**
 * JSON serialisation (JsonConvert.SerializeObject / DeserializeObject) as an
 * abstract pair of functions. Deserialisation that throws, or that yields
 * null, is None.
 */
module Json {
  import opened Errors

  datatype Codec<!T> = Codec(serialize: T -> string, deserialize: string -> Option<T>)

  /** What the serializer guarantees: a value it wrote reads back as that value. */
  ghost predicate RoundTrips<T(!new)>(c: Codec<T>)
  {
    forall x: T :: c.deserialize(c.serialize(x)) == Some(x)
  }
}
