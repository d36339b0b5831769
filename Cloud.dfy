/**
 * The parts of the Puter platform that the pipeline and the wipe page change: the key-value
 * store, as a map from keys to records, and the file store, as the set of stored paths. Each
 * call is given the outcome it settles with; a rejected call changes nothing.
 */
module Cloud {
  import opened Remote
  import opened Resume

  /** The path a resolved `fs.upload` reports, if it resolved to a file item at all. */
  function Uploaded(reply: Outcome<Option<string>>): (paths: set<string>)
    ensures |paths| <= 1
    ensures paths != {} <==> reply.Resolved? && reply.value.Some?
  {
    if reply.Resolved? && reply.value.Some? then {reply.value.value} else {}
  }

  class Storage {
    var kv: map<string, Record>
    var blobs: set<string>

    constructor (kv0: map<string, Record>, blobs0: set<string>)
      ensures kv == kv0 && blobs == blobs0
    {
      kv, blobs := kv0, blobs0;
    }

    /** `fs.upload([file])`: a resolved file item adds its path. */
    method Upload(reply: Outcome<Option<string>>) returns (r: Outcome<Option<string>>)
      modifies this
      ensures r == reply
      ensures kv == old(kv) && blobs == old(blobs) + Uploaded(reply)
    {
      r := reply;
      blobs := blobs + Uploaded(reply);
    }

    /** `kv.set(key, value)`. */
    method Set(key: string, value: Record, ack: Ack) returns (r: Ack)
      modifies this
      ensures r == ack
      ensures blobs == old(blobs)
      ensures kv == if ack.Resolved? then old(kv)[key := value] else old(kv)
    {
      r := ack;
      if ack.Resolved? {
        kv := kv[key := value];
      }
    }

    /** `fs.delete(path)`. */
    method Delete(path: string, ack: Ack) returns (r: Ack)
      modifies this
      ensures r == ack
      ensures kv == old(kv)
      ensures blobs == if ack.Resolved? then old(blobs) - {path} else old(blobs)
    {
      r := ack;
      if ack.Resolved? {
        blobs := blobs - {path};
      }
    }

    /** `kv.flush()`: every key goes, not only this application's. */
    method Flush(ack: Ack) returns (r: Ack)
      modifies this
      ensures r == ack
      ensures blobs == old(blobs)
      ensures kv == if ack.Resolved? then map[] else old(kv)
    {
      r := ack;
      if ack.Resolved? {
        kv := map[];
      }
    }
  }
}
