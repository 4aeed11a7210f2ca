/**
 * The in-memory session store (`SessionStorageMemory`): a map from session id to the bytes
 * the session's provider wrote. The write and read channels are the byte sequences they carry.
 */
module Sessions {
  import opened Common

  /** `NoSuchElementException` with its message. */
  datatype SessionError = NoSuchElement(message: string)

  datatype Result<T> = Ok(value: T) | Err(error: SessionError)

  function NotFoundMessage(id: string): string {
    "Session " + id + " not found"
  }

  class SessionStorageMemory {
    var sessions: map<string, seq<byte>>

    constructor ()
      ensures sessions == map[]
    {
      sessions := map[];
    }

    /**
     * `write`: the bytes the provider wrote replace whatever `id` held; every other id keeps
     * its entry.
     */
    method Write(id: string, written: seq<byte>)
      modifies this
      ensures sessions == old(sessions)[id := written]
      ensures id in sessions && sessions[id] == written
      ensures forall other :: other != id ==>
        (other in sessions <==> other in old(sessions)) &&
        (other in sessions ==> sessions[other] == old(sessions)[other])
    {
      sessions := sessions[id := written];
    }

    /**
     * `read`: the consumer's result on the stored bytes. An absent id fails with
     * `NoSuchElementException`; so does a consumer that returns `null` (`None`), since the
     * Elvis operator cannot tell the two apart.
     */
    method Read<R>(id: string, consumer: seq<byte> -> Option<R>) returns (r: Result<R>)
      ensures r.Ok? <==> id in sessions && consumer(sessions[id]).Some?
      ensures r.Ok? ==> r.value == consumer(sessions[id]).value
      ensures r.Err? ==> r.error == NoSuchElement(NotFoundMessage(id))
    {
      if id in sessions {
        var result := consumer(sessions[id]);
        if result.Some? {
          return Ok(result.value);
        }
      }
      r := Err(NoSuchElement(NotFoundMessage(id)));
    }

    /** `invalidate`: `id` is gone, every other id keeps its entry; an absent id changes nothing. */
    method Invalidate(id: string)
      modifies this
      ensures sessions == old(sessions) - {id}
      ensures id !in sessions
      ensures id !in old(sessions) ==> sessions == old(sessions)
      ensures forall other :: other != id ==>
        (other in sessions <==> other in old(sessions)) &&
        (other in sessions ==> sessions[other] == old(sessions)[other])
    {
      sessions := sessions - {id};
    }
  }

  /**
   * A write followed by a read of the same id hands the written bytes to the consumer; a
   * second write replaces the first; after an invalidation the read fails.
   */
  method ReadAfterWrite(store: SessionStorageMemory, id: string, first: seq<byte>, second: seq<byte>)
    returns (afterFirst: Result<seq<byte>>, afterSecond: Result<seq<byte>>, afterInvalidate: Result<seq<byte>>)
    modifies store
    ensures afterFirst == Ok(first) && afterSecond == Ok(second)
    ensures afterInvalidate == Err(NoSuchElement(NotFoundMessage(id)))
  {
    var identity := (b: seq<byte>) => Some(b);
    store.Write(id, first);
    afterFirst := store.Read(id, identity);
    store.Write(id, second);
    afterSecond := store.Read(id, identity);
    store.Invalidate(id);
    afterInvalidate := store.Read(id, identity);
  }
}
