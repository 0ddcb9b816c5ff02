/** internal/cache/cache.go: one ring buffer per service. */
module LogCaches {
  import opened Seqs
  import opened RingBuffers
  import opened Records

  class LogCache {
    var buffers: map<string, RingBuffer<Record>>
    const bufferSize: int
    ghost var Repr: set<object>

    ghost predicate Valid()
      reads this, Repr
    {
      && this in Repr
      && (forall s :: s in buffers ==>
            && buffers[s] in Repr && buffers[s].buf in Repr
            && buffers[s].cap == Clamp(bufferSize)
            && buffers[s].Valid())
      && (forall s, t :: s in buffers && t in buffers && s != t ==>
            buffers[s] != buffers[t] && buffers[s].buf != buffers[t].buf)
    }

    /** Everything added for a service since its last Clear; the cache shows the tail of it. */
    ghost function History(service: string): seq<Record>
      requires Valid()
      reads this, Repr
    {
      if service in buffers then buffers[service].history else []
    }

    constructor (bufferSize: int)
      ensures Valid() && fresh(Repr) && this.bufferSize == bufferSize
      ensures forall s :: History(s) == []
    {
      this.bufferSize := bufferSize;
      buffers := map[];
      Repr := {this};
    }

    /** Sequential form of the double-checked lookup; its interleavings are the subject of CacheRace. */
    method GetOrCreate(service: string) returns (sb: RingBuffer<Record>)
      requires Valid()
      modifies this
      ensures Valid() && fresh(Repr - old(Repr))
      ensures service in buffers && sb == buffers[service]
      ensures service in old(buffers) ==> buffers == old(buffers)
      ensures service !in old(buffers) ==> fresh(sb) && fresh(sb.buf) && buffers == old(buffers)[service := sb]
      ensures forall s :: History(s) == old(History(s))
    {
      if service in buffers {
        return buffers[service];
      }
      sb := new RingBuffer<Record>(bufferSize);
      buffers := buffers[service := sb];
      Repr := Repr + {sb, sb.buf};
    }

    method Add(entry: Record)
      requires Valid()
      modifies Repr
      ensures Valid() && fresh(Repr - old(Repr))
      ensures entry.service in buffers && buffers.Keys == old(buffers.Keys) + {entry.service}
      ensures forall s :: History(s) == old(History(s)) + if s == entry.service then [entry] else []
    {
      var sb := GetOrCreate(entry.service);
      sb.Push(entry);
    }

    /** The last min(limit, capacity) entries of the service; nothing for an unknown one. */
    method Recent(service: string, limit: int) returns (entries: seq<Record>)
      requires Valid()
      ensures entries == if limit <= 0 then [] else LastN(History(service), Min(limit, Clamp(bufferSize)))
    {
      if service !in buffers {
        return [];
      }
      entries := buffers[service].Recent(limit);
    }

    method EntryCount(service: string) returns (n: nat)
      requires Valid()
      ensures n == Min(|History(service)|, Clamp(bufferSize))
    {
      if service !in buffers {
        return 0;
      }
      n := buffers[service].Len();
    }

    method Clear(service: string, zero: Record)
      requires Valid()
      modifies Repr
      ensures Valid() && Repr == old(Repr) && buffers == old(buffers)
      ensures forall s :: History(s) == if s == service then [] else old(History(s))
    {
      if service in buffers {
        buffers[service].Clear(zero);
      }
    }
  }
}
