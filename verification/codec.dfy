/** The `Encode`/`Decode` wrappers around `encoding/gob`. The gob format itself
    belongs to a library outside this model, so the encoder and the decoder
    are opaque functions carried in a `Gob` value; nothing is assumed about
    them unless a lemma says so in its `requires`. */
module Codec {
  import opened Types

  /** The serialiser the store is linked against. */
  datatype Gob = Gob(encode: User -> Result<Bytes>, decode: Bytes -> Result<User>)

  /** The round-trip law gob promises: whatever it manages to encode, it
      decodes back to the same record. Used only as an explicit assumption. */
  ghost predicate RoundTrips(gob: Gob)
  {
    forall u :: gob.encode(u).Ok? ==> gob.decode(gob.encode(u).value) == Ok(u)
  }

  /** `Encode`: the encoder's bytes and a nil error, or an empty byte slice
      together with the encoder's error. */
  function Encode(gob: Gob, user: User): (r: (Bytes, Option<Error>))
    ensures r.1 == None <==> gob.encode(user).Ok?
    ensures gob.encode(user).Ok? ==> r.0 == gob.encode(user).value
    ensures gob.encode(user).Err? ==> r.0 == [] && r.1 == Some(gob.encode(user).error)
  {
    match gob.encode(user)
    case Ok(buffer) => (buffer, None)
    case Err(e) => ([], Some(e))
  }

  /** `Decode`: the decoded record and a nil error, or the zero `User`
      together with the decoder's error. */
  function Decode(gob: Gob, bytes: Bytes): (r: (User, Option<Error>))
    ensures r.1 == None <==> gob.decode(bytes).Ok?
    ensures gob.decode(bytes).Ok? ==> r.0 == gob.decode(bytes).value
    ensures gob.decode(bytes).Err? ==> r.0 == ZeroUser && r.1 == Some(gob.decode(bytes).error)
  {
    match gob.decode(bytes)
    case Ok(user) => (user, None)
    case Err(e) => (ZeroUser, Some(e))
  }
}
