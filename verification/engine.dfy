/** The key-value engine the store is layered over (go-database with its
    Bitcask back end). Its internals are outside this model: it is a map from
    keys to byte strings, and every call takes an outcome chosen by the
    environment, which decides whether the call succeeds or fails and with
    which error. */
module Engine {
  import opened Types

  /** How a call to `Has` ends: the engine answers from its map, or it fails
      with `err` and reports `reported` as its boolean result. */
  datatype HasOutcome = Checked | HasFailed(reported: bool, err: Error)

  /** How any other call ends: it does its job, or it fails with `err` and
      changes nothing. */
  datatype Outcome = Done | Failed(err: Error)

  /** The pair `Has` returns for `key` in `store` under outcome `o`. */
  function HasReply(store: map<string, Bytes>, key: string, o: HasOutcome): (reply: (bool, Option<Error>))
  {
    match o
    case Checked => (key in store, None)
    case HasFailed(reported, err) => (reported, Some(err))
  }

  /** `order` lists every key of `store` once: the order in which the engine
      hands back its values is its own choice. */
  ghost predicate IsScanOrder(store: map<string, Bytes>, order: seq<string>)
  {
    && (forall i :: 0 <= i < |order| ==> order[i] in store)
    && (forall k :: k in store ==> k in order)
    && (forall i, j :: 0 <= i < j < |order| ==> order[i] != order[j])
  }

  /** The values of `store` in the order `order` lists their keys. */
  function Scan(store: map<string, Bytes>, order: seq<string>): (values: seq<Bytes>)
    requires forall i :: 0 <= i < |order| ==> order[i] in store
  {
    seq(|order|, i requires 0 <= i < |order| => store[order[i]])
  }

  /** A scan lists exactly as many values as the store holds keys. */
  lemma {:induction false} ScanCoversStore(store: map<string, Bytes>, order: seq<string>)
    requires IsScanOrder(store, order)
    ensures |order| == |store|
  {
    if order == [] {
      assert store.Keys == {};
    } else {
      var k := order[0];
      var rest := store - {k};
      assert IsScanOrder(rest, order[1..]) by {
        forall key | key in rest ensures key in order[1..] {
          var i :| 0 <= i < |order| && order[i] == key;
          assert i != 0;
          assert order[1..][i - 1] == key;
        }
        forall i, j | 0 <= i < j < |order[1..]| ensures order[1..][i] != order[1..][j] {
          assert order[1..][i] == order[i + 1] && order[1..][j] == order[j + 1];
        }
        forall i | 0 <= i < |order[1..]| ensures order[1..][i] in rest {
          assert order[1..][i] == order[i + 1];
          assert order[i + 1] != order[0];
        }
      }
      ScanCoversStore(rest, order[1..]);
      assert rest.Keys == store.Keys - {k};
      assert |rest.Keys| == |store.Keys| - 1;
    }
  }

  /** A handle on the engine. `store` is what it currently holds. */
  class Database {
    var store: map<string, Bytes>

    constructor (contents: map<string, Bytes>)
      ensures store == contents
    {
      store := contents;
    }

    /** `Has(key)`: whether the key is present, or the failure. */
    method Has(key: string, o: HasOutcome) returns (has: bool, err: Option<Error>)
      ensures o.Checked? ==> has == (key in store) && err == None
      ensures o.HasFailed? ==> has == o.reported && err == Some(o.err)
    {
      has, err := HasReply(store, key, o).0, HasReply(store, key, o).1;
    }

    /** `Get(key)`: the stored bytes, or an empty value and the failure. Only
        called on a key the engine has just reported present. */
    method Get(key: string, o: Outcome) returns (value: Bytes, err: Option<Error>)
      requires key in store || o.Failed?
      ensures o.Done? ==> key in store && value == store[key] && err == None
      ensures o.Failed? ==> value == [] && err == Some(o.err)
    {
      if o.Failed? {
        return [], Some(o.err);
      }
      return store[key], None;
    }

    /** `Put(key, value)`: stores `value` under `key`, replacing any earlier
        value, unless the call fails. */
    method Put(key: string, value: Bytes, o: Outcome) returns (err: Option<Error>)
      modifies this
      ensures o.Done? ==> store == old(store)[key := value] && err == None
      ensures o.Failed? ==> store == old(store) && err == Some(o.err)
    {
      if o.Failed? {
        return Some(o.err);
      }
      store := store[key := value];
      return None;
    }

    /** `Delete(key)`: removes `key` (nothing to do if it is absent), unless
        the call fails. */
    method Delete(key: string, o: Outcome) returns (err: Option<Error>)
      modifies this
      ensures o.Done? ==> store == old(store) - {key} && err == None
      ensures o.Failed? ==> store == old(store) && err == Some(o.err)
    {
      if o.Failed? {
        return Some(o.err);
      }
      store := store - {key};
      return None;
    }

    /** `All()`: every stored value, in the engine's scan order, or no values
        and the failure. */
    method All(o: Outcome, order: seq<string>) returns (values: seq<Bytes>, err: Option<Error>)
      requires IsScanOrder(store, order)
      ensures o.Done? ==> |values| == |store| && values == Scan(store, order) && err == None
      ensures o.Failed? ==> values == [] && err == Some(o.err)
    {
      if o.Failed? {
        return [], Some(o.err);
      }
      ScanCoversStore(store, order);
      return Scan(store, order), None;
    }
  }
}
