/** The BoltDB bucket behind the plugin, and the loops that write it and read it back. */
module StateStore {

  import opened Options
  import opened ShadowMachine

  /** What the bucket holds under a key: a record, or bytes that decode to none. */
  datatype Value = Readable(record: Stored) | Corrupt

  /** The record that can be read under a claim UID. */
  function ReadableAt(values: map<string, Value>, u: string): Option<Stored> {
    if u in values && values[u].Readable? then Some(values[u].record) else None
  }

  class Bucket {
    var values: map<string, Value>

    constructor ()
      ensures values == map[]
    {
      values := map[];
    }

    method SaveShadows(r: Stored)
      modifies this
      ensures values == old(values)[r.claimUid := Readable(r)]
    {
      values := values[r.claimUid := Readable(r)];
    }

    method DeleteShadows(u: string)
      modifies this
      ensures values == old(values) - {u}
    {
      values := values - {u};
    }

    /** Every readable record once, in any order; corrupt ones are skipped. */
    method ListAll() returns (all: seq<Stored>)
      ensures |all| == |set u | u in values && values[u].Readable?|
      ensures forall r :: r in all <==> exists u :: ReadableAt(values, u) == Some(r)
    {
      all := [];
      var left := values.Keys;
      ghost var listed: set<string> := {};
      while left != {}
        invariant left <= values.Keys && |all| == |listed|
        invariant forall u :: u in listed <==> u in values && u !in left && values[u].Readable?
        invariant forall r :: r in all <==> exists u :: u in listed && values[u].record == r
        decreases left
      {
        var u :| u in left;
        if values[u].Readable? {
          all := all + [values[u].record];
          listed := listed + {u};
        }
        left := left - {u};
      }
      assert listed == set u | u in values && values[u].Readable?;
      assert forall u :: u in listed <==> ReadableAt(values, u).Some?;
    }

    /** persistShadows. */
    method Persist(u: string, c: Claim, shadows: seq<Record>)
      modifies this
      ensures values == old(values)[u := Readable(Persisted(u, c, shadows))]
    {
      var entries: seq<Entry> := [];
      for i := 0 to |shadows|
        invariant |entries| == i && forall j :: 0 <= j < i ==> entries[j] == Encode(shadows[j])
      {
        entries := entries + [Encode(shadows[i])];
      }
      assert entries == Persisted(u, c, shadows).entries;
      SaveShadows(Stored(u, c.ns, entries));
    }

    /** restoreFromState: memory becomes, claim by claim, what can be read from the bucket,
        in whatever order the records are listed. */
    method Restore() returns (mem: map<string, seq<Record>>)
      requires forall u :: ReadableAt(values, u).Some? ==> ReadableAt(values, u).value.claimUid == u
      ensures forall u :: Find(mem, u) == Reload(ReadableAt(values, u))
    {
      var all := ListAll();
      mem := map[];
      for i := 0 to |all|
        invariant forall u :: u in mem <==> exists j :: 0 <= j < i && all[j].claimUid == u
        invariant forall u :: u in mem ==> ReadableAt(values, u).Some? && mem[u] == Restored(ReadableAt(values, u).value)
      {
        var shadows: seq<Record> := [];
        for k := 0 to |all[i].entries|
          invariant |shadows| == k && forall j :: 0 <= j < k ==> shadows[j] == Decode(all[i].entries[j])
        {
          shadows := shadows + [Decode(all[i].entries[k])];
        }
        assert shadows == Restored(all[i]);
        assert all[i] in all;
        mem := mem[all[i].claimUid := shadows];
      }
      forall u | ReadableAt(values, u).Some? ensures u in mem {
        assert ReadableAt(values, u).value in all;
        var j :| 0 <= j < |all| && all[j] == ReadableAt(values, u).value;
      }
    }
  }
}
