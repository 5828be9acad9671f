/** Values shared by every part of the record store: the `User` record, the
    error values the store hands back, and the small wrappers Go expresses
    with `nil` and multiple return values. */
module Types {

  /** One octet of an encoded value. */
  newtype byte = x: int | 0 <= x < 256

  type Bytes = seq<byte>

  /** Go's `int64`, the type of `User.TimeOfBan` and of `time.Now().Unix()`. */
  newtype int64 = x: int | -0x8000_0000_0000_0000 <= x < 0x8000_0000_0000_0000

  /** `None` plays the part of Go's `nil` error. */
  datatype Option<+T> = None | Some(value: T)

  datatype Result<+T> = Ok(value: T) | Err(error: Error)

  /** Every error the store can return. The store adds no wrapping, so an
      engine, codec or loading error travels to the caller exactly as it was
      produced; the two errors the store creates itself have their own
      constructors. */
  datatype Error =
    | CannotFindKey               // errors.New("cannot find key")
    | EmptyUuid                   // errors.New("cannot import User with Empty UUID")
    | Engine(engineMsg: string)   // any failure reported by the key-value engine
    | Gob(gobMsg: string)         // any failure reported by the gob encoder or decoder
    | Load(loadMsg: string)       // opening, reading or JSON-decoding the import file

  /** The stored record. `uuid` is the key under which it is stored. */
  datatype User = User(uuid: string, name: string, timeOfBan: int64)

  /** Go's zero value `User{}`, returned beside every error. */
  const ZeroUser: User := User("", "", 0)
}
