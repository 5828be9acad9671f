/** The record store of `datastore.go`: a `DataStore` holds a handle on the
    key-value engine and keeps `User` records under their identifier, encoded
    with gob. Each engine call inside an operation takes its outcome from the
    oracle argument of that operation. */
module Datastore {
  import opened Types
  import opened Codec
  import opened Engine
  import opened StoreSpec

  /** `isnil`: whether an error is absent. */
  function IsNil(err: Option<Error>): (r: bool)
  {
    err == None
  }

  class DataStore {
    const db: Database
    const gob: Gob

    /** `NewWithDatabase`: a store over an existing engine handle. */
    constructor (db: Database, gob: Gob)
      ensures this.db == db && this.gob == gob
    {
      this.db := db;
      this.gob := gob;
    }

    /** `Put(user)`, with the existence check exactly as written. */
    method Put(user: User, o: PutOracle) returns (err: Option<Error>)
      modifies db
      ensures (db.store, err) == PutOutcome(old(db.store), gob, user, o)
    {
      var uuid := user.uuid;
      var has, hasErr := db.Has(uuid, o.has);
      if !has && hasErr != None {
        var (buffer, err1) := Encode(gob, user);
        if err1 != None {
          return err1;
        }
        var err2 := db.Put(uuid, buffer, o.put);
        if err2 != None {
          return err2;
        }
      }
      return None;
    }

    /** `Put(user)` with the evidently intended existence check
        (`!has && err == nil`); not used by `Import`, which calls `Put`. */
    method PutIntended(user: User, o: PutOracle) returns (err: Option<Error>)
      modifies db
      ensures (db.store, err) == PutOutcomeIntended(old(db.store), gob, user, o)
    {
      var uuid := user.uuid;
      var has, hasErr := db.Has(uuid, o.has);
      if !has && hasErr == None {
        var (buffer, err1) := Encode(gob, user);
        if err1 != None {
          return err1;
        }
        var err2 := db.Put(uuid, buffer, o.put);
        if err2 != None {
          return err2;
        }
      }
      return None;
    }

    /** `Get(uuid)`. */
    method Get(uuid: string, o: GetOracle) returns (user: User, err: Option<Error>)
      ensures (user, err) == GetOutcome(db.store, gob, uuid, o)
    {
      var has, hasErr := db.Has(uuid, o.has);
      if has && hasErr == None {
        var buffer, err1 := db.Get(uuid, o.get);
        if err1 != None {
          return ZeroUser, err1;
        }
        var (decoded, err2) := Decode(gob, buffer);
        if err2 != None {
          return ZeroUser, err2;
        }
        return decoded, None;
      }
      return ZeroUser, Some(CannotFindKey);
    }

    /** `Delete(uuid)`: forwarded to the engine, whose error is returned as it
        is; the store itself does nothing else. */
    method Delete(uuid: string, o: Outcome) returns (err: Option<Error>)
      modifies db
      ensures db.store == (if o.Done? then old(db.store) - {uuid} else old(db.store))
      ensures err == (if o.Done? then None else Some(o.err))
    {
      err := db.Delete(uuid, o);
    }

    /** `All()`: every stored record, decoded, in the engine's scan order;
        fail-fast on the first value that does not decode, with no partial
        result. */
    method All(o: Outcome, order: seq<string>) returns (users: seq<User>, err: Option<Error>)
      requires IsScanOrder(db.store, order)
      ensures o.Failed? ==> users == [] && err == Some(o.err)
      ensures o.Done? ==> (err == None <==> forall i :: 0 <= i < |order| ==> gob.decode(db.store[order[i]]).Ok?)
      ensures err == None ==>
                |users| == |order| == |db.store| &&
                forall i :: 0 <= i < |order| ==> gob.decode(db.store[order[i]]) == Ok(users[i])
      ensures o.Done? && err != None ==>
                users == [] &&
                exists k :: 0 <= k < |order| && gob.decode(db.store[order[k]]) == Err(err.value) &&
                            forall j :: 0 <= j < k ==> gob.decode(db.store[order[j]]).Ok?
    {
      var buffer, e := db.All(o, order);
      if e != None {
        return [], e;
      }
      assert |buffer| == |order| && forall i :: 0 <= i < |order| ==> buffer[i] == db.store[order[i]];
      users := [];
      for i := 0 to |buffer|
        invariant |users| == i
        invariant forall j :: 0 <= j < i ==> gob.decode(buffer[j]) == Ok(users[j])
      {
        var (user, err1) := Decode(gob, buffer[i]);
        if err1 != None {
          return [], err1;
        }
        users := users + [user];
      }
      return users, None;
    }

    /** `Import` from the point where the file has been opened, read and
        parsed: `loadErr` is the first error of those three steps, `users` the
        parsed records, `nows[i]` the Unix time the clock shows when record i
        is reached. Returns the error and, on success, the imported and
        ignored counts of the final summary line. */
    method Import(users: seq<User>, loadErr: Option<Error>, nows: seq<int64>, oracles: seq<PutOracle>)
      returns (err: Option<Error>, summary: Option<(nat, nat)>)
      requires |nows| == |users| && |oracles| == |users|
      modifies db
      ensures !IsNil(loadErr) ==> err == loadErr && summary == None && db.store == old(db.store)
      ensures IsNil(loadErr) ==>
                var (t, e) := RunImport(gob, users, nows, oracles, Start(old(db.store)));
                && db.store == t.store
                && err == e
                && summary == (if e == None then Some((t.imported, t.ignored)) else None)
    {
      if !IsNil(loadErr) {
        return loadErr, None;
      }
      var importCount: nat, ignoreCount: nat := 0, 0;
      ghost var passed: seq<User>, results: seq<Option<Error>> := [], [];
      for i := 0 to |users|
        invariant RunImport(gob, users[i..], nows[i..], oracles[i..], Tally(db.store, importCount, ignoreCount, passed, results))
                  == RunImport(gob, users, nows, oracles, Start(old(db.store)))
      {
        var user := users[i];
        assert users[i..][1..] == users[i + 1..] && nows[i..][1..] == nows[i + 1..] && oracles[i..][1..] == oracles[i + 1..];
        if user.uuid == "" {
          return Some(EmptyUuid), None;
        }
        if user.timeOfBan == 0 {
          user := user.(timeOfBan := nows[i]);
        }
        var err4 := Put(user, oracles[i]);
        if err4 != None {
          ignoreCount := ignoreCount + 1;
        } else {
          importCount := importCount + 1;
        }
        passed, results := passed + [user], results + [err4];
      }
      return None, Some((importCount, ignoreCount));
    }
  }
}
