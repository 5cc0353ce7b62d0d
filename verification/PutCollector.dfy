/** The sequential parts of an upload: the limiter's slots and the collector's loops. */
module PutCollector {
  import opened Sequences
  import opened Manifest
  import opened PutPipeline

  /** The release closure handed out with a slot; it acts once however often it is called. */
  class Ticket {
    var done: bool

    constructor ()
      ensures !done
    {
      done := false;
    }
  }

  /** InflightLimiter: a channel used as a counting semaphore. */
  class InflightLimiter {
    const capacity: nat
    var used: nat
    ghost var issued: set<Ticket>
    ghost var outstanding: set<Ticket>

    /** The slots in use are exactly the tickets not yet released, at most `capacity` of them. */
    ghost predicate Valid()
      reads this, issued
    {
      && outstanding <= issued
      && used == |outstanding| <= capacity
      && forall t | t in issued :: t.done <==> t !in outstanding
    }

    constructor (max: int)
      ensures Valid() && fresh(issued) && capacity >= 1 && (max >= 1 ==> capacity == max) && outstanding == {}
    {
      capacity := if max <= 0 then 1 else max;
      used := 0;
      issued := {};
      outstanding := {};
    }

    /** Acquire with a cancellation already checked; None is the case where the caller blocks. */
    method TryAcquire() returns (ticket: Option<Ticket>)
      requires Valid()
      modifies this
      ensures Valid()
      ensures ticket.Some? <==> old(used) < capacity
      ensures ticket.None? ==> outstanding == old(outstanding) && issued == old(issued)
      ensures ticket.Some? ==> fresh(ticket.value) && !ticket.value.done
      ensures ticket.Some? ==>
        outstanding == old(outstanding) + {ticket.value} && issued == old(issued) + {ticket.value}
    {
      if used < capacity {
        var t := new Ticket();
        issued := issued + {t};
        outstanding := outstanding + {t};
        used := used + 1;
        ticket := Some(t);
      } else {
        ticket := None;
      }
    }

    /** The first call frees exactly this ticket's slot; later calls change nothing. */
    method Release(ticket: Ticket)
      requires Valid() && ticket in issued
      modifies this, ticket
      ensures Valid() && issued == old(issued)
      ensures ticket.done && outstanding == old(outstanding) - {ticket}
      ensures used == old(used) - if old(ticket.done) then 0 else 1
    {
      if !ticket.done {
        ticket.done := true;
        used := used - 1;
        outstanding := outstanding - {ticket};
      }
    }
  }

  /** The collector's loop over the result channel. */
  method Collect(results: seq<Res>) returns (refs: map<nat, int>, total: nat, newChunks: seq<int>, failed: bool)
    ensures refs == RefsOf(results) && total == TotalOf(results) && newChunks == NewChunks(results)
    ensures failed <==> AnyBroke(results)
  {
    refs, total, newChunks, failed := map[], 0, [], false;
    for i := 0 to |results|
      invariant refs == RefsOf(results[..i]) && total == TotalOf(results[..i]) && newChunks == NewChunks(results[..i])
      invariant failed <==> exists k :: 0 <= k < i && results[k].reply.Broke?
    {
      var res := results[i];
      assert results[..i + 1][..i] == results[..i];
      if res.reply.Broke? {
        failed := true;
      } else {
        refs := refs[res.idx := res.reply.id];
        total := total + res.size;
        if !res.reply.reused {
          newChunks := newChunks + [res.reply.id];
        }
      }
    }
    assert results[..|results|] == results;
  }

  /** Turning refsByIdx into a slice, in whatever order the map is walked. */
  method Place(refs: map<nat, int>) returns (chunks: array<ChunkRef>)
    requires Placed(refs)
    ensures fresh(chunks) && chunks[..] == Slots(refs)
  {
    chunks := new ChunkRef[|refs|](_ => ChunkRef(0, 0));
    var todo := refs.Keys;
    while todo != {}
      invariant todo <= refs.Keys
      invariant forall i: nat :: i < chunks.Length && i !in todo ==> chunks[i] == ChunkRef(refs[i], i)
      decreases |todo|
    {
      var idx :| idx in todo;
      chunks[idx] := ChunkRef(refs[idx], idx);
      todo := todo - {idx};
    }
  }
}
