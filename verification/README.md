# DataStore record store in Dafny

This project models `datastore.go`, a persistence layer for `User` records. A record is a
UUID, a name and a ban time in Unix seconds. The store keeps each record gob-encoded under
its UUID in a key-value engine (go-database over Bitcask). It offers `Put`, `Get`,
`Delete` and `All`, and a bulk `Import` that stamps unset ban times with the current time
and counts imported and ignored records.

Layout, leaf first:

- `types.dfy`: `User`, the error values, `Option`/`Result`, bytes and `int64`.
- `codec.dfy`: the `Encode`/`Decode` wrappers. The gob encoder and decoder are opaque
  functions held in a `Gob` value.
- `engine.dfy`: the engine as a class `Database` holding a `map<string, Bytes>`. Each call
  takes an outcome argument that says whether it succeeds, and with which error it fails.
  A failing `Has` may report either boolean.
- `store_spec.dfy`: what `Put`, `Get` and the import loop do, written as functions of the
  map, the codec and those outcomes. The lemmas about them are here too.
- `datastore.dfy`: the class `DataStore`, whose methods are proved to behave as those
  functions say. It also holds `IsNil`, which is `isnil` (datastore.go:162-164) taken over
  as its definition, `err == nil`, and used by `Import`.

## The existence check in `Put`

`Put` (datastore.go:47) writes only when `Has` returns `false` together with a non-nil
error. The model follows the code as written. With an engine whose `Has` answers without
error, `Put` therefore never writes and always returns nil. `PutAsWrittenLosesRecord` and
`ImportOnWorkingEngine` state the consequences: a record put into an empty slot cannot be
read back, and an import leaves the engine untouched while counting every record as
imported.

The evidently intended check is `!has && err == nil`: write only when `Has` answered and
said "absent", so the first write wins. It is modelled separately as `PutIntended` /
`PutOutcomeIntended`, with put-then-get and first-write-wins lemmas. `Import` calls the
literal `Put`, as the code does.

One would expect a second import of an existing record to count as ignored. In the code, a
`Put` that does not write returns nil and is counted as imported. The model follows the
code.

## Model

| member | source | states |
|---|---|---|
| `Codec.Encode` | datastore.go:166-177 | no error exactly when gob encodes the record; then its bytes, otherwise an empty slice and gob's error |
| `Codec.Decode` | datastore.go:179-197 | no error exactly when gob decodes the bytes; then the decoded record, otherwise the zero `User` and gob's error |
| `Engine.Database.Has` | datastore.go:47 | an answering engine reports whether the key is in its map, with a nil error; a failing one reports its error |
| `Engine.Database.Get` | datastore.go:68 | the bytes stored under the key with a nil error, or an empty value and the engine's error |
| `Engine.Database.Put` | datastore.go:54 | on success the map gains or replaces the key with the value; on failure the map is unchanged and the error returned |
| `Engine.Database.Delete` | datastore.go:89 | on success the key is gone and nothing else changed; on failure the map is unchanged and the error returned |
| `Engine.Database.All` | datastore.go:93 | on success one value per stored key, in the scan order; on failure no values and the error |
| `Engine.ScanCoversStore` | datastore.go:93 | a scan order lists exactly as many keys as the map holds |
| `StoreSpec.PutCondition` | datastore.go:47 | the guard as written holds exactly when `Has` failed while reporting "absent", whatever the map holds |
| `StoreSpec.PutOutcome` | datastore.go:44-61 | writes only when `Has` failed while reporting "absent"; otherwise nil and the map unchanged; an encoding failure or engine write failure is returned with no write; otherwise the encoding is stored under the UUID |
| `StoreSpec.PutOutcomeIntended` | datastore.go:47 | the intended check: writes only when `Has` answered and the key is absent; same error behaviour as `Put` |
| `StoreSpec.GetOutcome` | datastore.go:64-84 | "cannot find key" and the zero `User` unless `Has` answered "present" without error; then an engine read error or a decode error comes with the zero `User`; otherwise the decoded record |
| `StoreSpec.PutAsWrittenLosesRecord` | datastore.go:47 | with an answering engine, `Put` of an absent record writes nothing and a following `Get` reports "cannot find key" |
| `StoreSpec.PutIntendedThenGet` | datastore.go:64-84 | with the intended check, a working engine and gob's round-trip law, `Get` after `Put` returns the record |
| `StoreSpec.PutIntendedFirstWriteWins` | datastore.go:47 | with the intended check, once the first `Put` (under any engine outcomes) has left the UUID present, a second `Put` under it changes nothing and returns nil |
| `StoreSpec.Stamp` | datastore.go:144-146 | a zero ban time becomes "now"; UUID and name are kept, and a non-zero ban time leaves the record as it was |
| `StoreSpec.FirstEmptyUuid` | datastore.go:139-142 | the index of the first record with an empty UUID, or the length if there is none |
| `StoreSpec.Step` | datastore.go:144-154 | one loop pass: the new map and the recorded result are those of `Put` on the record stamped with this pass's clock reading; a nil result adds one to `importCount`, any other adds one to `ignoreCount` |
| `StoreSpec.RunImport` | datastore.go:139-155 | the import loop: the only error it raises itself is the empty-UUID error, and it adds at most one `Put` call per record to those already made |
| `StoreSpec.ImportStopsAtFirstEmptyUuid` | datastore.go:139-142 | `Put` receives exactly the records before the first empty UUID, stamped and in order; the import fails with the empty-UUID error exactly when such a record exists |
| `StoreSpec.ImportKeepsTallyConsistent` | datastore.go:148-154 | each `Put` call adds one to exactly one counter; `importCount` counts the calls that returned nil |
| `StoreSpec.ImportCounts` | datastore.go:136-157 | after an import, imported plus ignored equals the number of records handed to `Put`, which is every record when the import succeeds |
| `StoreSpec.ImportWritesOnlyPassedRecords` | datastore.go:139-155 | an import removes no key; every changed value is the encoding of a stamped record it handed to `Put`, stored under that record's UUID |
| `StoreSpec.ImportOnWorkingEngine` | datastore.go:47-61 | with an answering engine, an import leaves the map as it was and counts every record it reaches as imported |
| `StoreSpec.ImportAbortsAfterEarlierRecords` | datastore.go:139-142 | importing `a` (no ban time), `b` (ban time 100) and an empty-UUID record passes `a` (stamped with its own clock reading) and `b` to `Put`, then fails |
| `Datastore.DataStore.constructor` | datastore.go:35-37 | the store wraps the given engine handle |
| `Datastore.DataStore.Put` | datastore.go:44-61 | the new map and the returned error are those of `PutOutcome` |
| `Datastore.DataStore.PutIntended` | datastore.go:47 | the new map and the returned error are those of `PutOutcomeIntended` |
| `Datastore.DataStore.Get` | datastore.go:64-84 | the returned record and error are those of `GetOutcome` |
| `Datastore.DataStore.Delete` | datastore.go:86-90 | on engine success the UUID's entry is removed and nil returned; on failure the map is unchanged and the engine's error returned as is |
| `Datastore.DataStore.All` | datastore.go:92-114 | on engine failure, no records and that error. Otherwise it succeeds exactly when every stored value decodes; record i is then the decoding of value i, one per key. On a decode failure it returns no records and the error of the first value that fails |
| `Datastore.DataStore.Import` | datastore.go:116-160 | a load error is returned with no write; otherwise the map, the error and the final counts are those of the import loop `RunImport`, with record i stamped with the clock reading taken when it is reached |

## Left out

- Opening and reading the import file and JSON decoding (datastore.go:117-132). They are
  represented by `Import`'s inputs: the parsed records and the first error of those steps.
- The progress and result lines written to the output stream (datastore.go:134, 157). The
  two counts of the result line are returned as `summary` when the import succeeds.
- `time.Now()` (datastore.go:145) is read once per record with a zero ban time. The model
  takes these readings as the `nows` parameter, one entry per record; the entry of a
  record with a non-zero ban time is unused.
- The constructors `New` and `NewEmpty` (datastore.go:30-33, 39-42). They open a Bitcask
  directory.
- The engine's internals. What the engine does when reading an absent key is not modelled:
  `Database.Get` requires the key to be present, and the store reads only after `Has`
  answered "present".
- The gob wire format. Encoding and decoding are opaque functions. The round-trip law is
  an explicit `requires` (`RoundTrips`) of the one lemma that needs it.
- The `buffer.Write` error branch in `Decode` (datastore.go:181-185). `bytes.Buffer.Write`
  never returns an error.
- The conversion of a UUID string to engine key bytes (datastore.go:45, 65, 87). Keys are
  the strings themselves, and that conversion is injective.
- The race between `Has` and `Put` under concurrent writers. The code is sequential.
- The import counters are unbounded naturals. Go's `int` cannot overflow at any realistic
  record count.
- Error identity. Go compares errors by identity, but here errors are plain values, so two
  "cannot find key" errors are equal.
