/** The JSON record store: one record per id, each write and delete atomic and allowed to fail. */
module Store {
  class JsonStore<V> {
    var records: map<string, V>

    constructor ()
      ensures records == map[]
    {
      records := map[];
    }

    /** Write a temporary file, then rename it over the record: either the whole record is replaced or nothing is. */
    method Put(id: string, value: V) returns (ok: bool)
      modifies this
      ensures records == if ok then old(records)[id := value] else old(records)
    {
      ok := *;
      if ok {
        records := records[id := value];
      }
    }

    /** Deleting an absent record succeeds. */
    method Delete(id: string) returns (ok: bool)
      modifies this
      ensures records == if ok then old(records) - {id} else old(records)
    {
      ok := *;
      if ok {
        records := records - {id};
      }
    }
  }
}
