/** The connection queue of app/server.c: a circular array of ten sockets.
    `Ring` is its value; the class is the array itself with the bodies of the
    two critical sections. */
module ConnectionQueue {
  const MAX_CONN_BACKLOG := 10

  /** The cells `conn_q`, and the globals that index it. */
  datatype Ring = Ring(cells: seq<int>, size: int, servicePos: int, producerPos: int)

  ghost predicate Shaped(r: Ring) {
    && |r.cells| == MAX_CONN_BACKLOG
    && 0 <= r.servicePos < MAX_CONN_BACKLOG && 0 <= r.producerPos < MAX_CONN_BACKLOG
    && 0 <= r.size <= MAX_CONN_BACKLOG
  }

  /** The cell `k` places after position `pos`, going round. */
  function Around(pos: int, k: int): int { (pos + k) % MAX_CONN_BACKLOG }

  /** The queued sockets: `size` cells read circularly from `pos`. */
  function Contents(cells: seq<int>, pos: int, size: int): (q: seq<int>)
    requires |cells| == MAX_CONN_BACKLOG && 0 <= size
    ensures |q| == size
  {
    seq(size, k requires 0 <= k < size => cells[Around(pos, k)])
  }

  /** Filling the cell behind the last queued socket appends it. */
  lemma ContentsStore(cells: seq<int>, pos: int, size: int, sock: int)
    requires |cells| == MAX_CONN_BACKLOG && 0 <= pos < MAX_CONN_BACKLOG && 0 <= size < MAX_CONN_BACKLOG
    ensures var cells' := cells[Around(pos, size) := sock];
            && Contents(cells', pos, size) == Contents(cells, pos, size)
            && Contents(cells', pos, size + 1) == Contents(cells, pos, size) + [sock]
  {
  }

  lemma AroundStep(pos: int, k: int)
    requires 0 <= pos < MAX_CONN_BACKLOG && 0 <= k < MAX_CONN_BACKLOG
    ensures Around(Around(pos, 1), k) == Around(pos, k + 1)
  {
    assert Around(pos, 1) == if pos == MAX_CONN_BACKLOG - 1 then 0 else pos + 1;
  }

  /** Taking the first queued socket leaves the rest, one place on. */
  lemma ContentsTake(cells: seq<int>, pos: int, size: int)
    requires |cells| == MAX_CONN_BACKLOG && 0 <= pos < MAX_CONN_BACKLOG && 0 < size <= MAX_CONN_BACKLOG
    ensures Contents(cells, pos, size)[0] == cells[pos]
    ensures Contents(cells, Around(pos, 1), size - 1) == Contents(cells, pos, size)[1..]
  {
    var all, rest := Contents(cells, pos, size), Contents(cells, Around(pos, 1), size - 1);
    assert Around(pos, 0) == pos;
    forall k | 0 <= k < size - 1 ensures rest[k] == all[k + 1] {
      AroundStep(pos, k);
    }
    assert |rest| == |all[1..]|;
  }

  /** Going round from a count's place reaches the later count's place. */
  lemma PositionsLater(count: nat, more: nat)
    ensures Around(count % MAX_CONN_BACKLOG, more) == (count + more) % MAX_CONN_BACKLOG
  {
    var q, r := count / MAX_CONN_BACKLOG, count % MAX_CONN_BACKLOG;
    var q', r' := (r + more) / MAX_CONN_BACKLOG, (r + more) % MAX_CONN_BACKLOG;
    assert count + more == (q + q') * MAX_CONN_BACKLOG + r';
  }

  class Queue {
    const connQ: array<int>
    var connQSize: int
    var serviceThPos: int
    var producerPos: int

    ghost predicate Valid()
      reads this, connQ
    {
      && connQ.Length == MAX_CONN_BACKLOG && Shaped(AsRing())
      && producerPos == Around(serviceThPos, connQSize)
    }

    ghost function AsRing(): Ring
      reads this, connQ
    {
      Ring(connQ[..], connQSize, serviceThPos, producerPos)
    }

    /** The sockets waiting, first to be served first. */
    ghost function Waiting(): seq<int>
      reads this, connQ
      requires Valid()
    {
      Contents(connQ[..], serviceThPos, connQSize)
    }

    constructor ()
      ensures Valid() && fresh(connQ) && Waiting() == []
    {
      connQ := new int[MAX_CONN_BACKLOG];
      connQSize, serviceThPos, producerPos := 0, 0, 0;
    }

    /** The section of `main` under the mutex once the queue is not full:
        `signalled` says whether `cond_conn_q_not_empty` is signalled. */
    method Enqueue(clientSd: int) returns (signalled: bool)
      requires Valid() && connQSize < MAX_CONN_BACKLOG
      modifies this`connQSize, this`producerPos, connQ
      ensures Valid() && Waiting() == old(Waiting()) + [clientSd]
      ensures signalled <==> old(Waiting()) == []
    {
      ContentsStore(connQ[..], serviceThPos, connQSize, clientSd);
      connQ[producerPos] := clientSd;
      assert connQ[..] == old(connQ[..])[producerPos := clientSd];
      producerPos := (producerPos + 1) % MAX_CONN_BACKLOG;
      connQSize := connQSize + 1;
      signalled := connQSize == 1;
    }

    /** The section of `service_thread` under the mutex once the queue is not
        empty: `signalled` says whether `cond_conn_q_not_full` is signalled. */
    method Dequeue() returns (clientSocket: int, signalled: bool)
      requires Valid() && connQSize > 0
      modifies this`connQSize, this`serviceThPos
      ensures Valid() && old(Waiting()) == [clientSocket] + Waiting()
      ensures signalled <==> |old(Waiting())| == MAX_CONN_BACKLOG
    {
      ContentsTake(connQ[..], serviceThPos, connQSize);
      ghost var was := Waiting();
      AroundStep(serviceThPos, connQSize - 1);
      clientSocket := connQ[serviceThPos];
      serviceThPos := (serviceThPos + 1) % MAX_CONN_BACKLOG;
      connQSize := connQSize - 1;
      signalled := connQSize == MAX_CONN_BACKLOG - 1;
      assert was == [was[0]] + was[1..];
    }
  }
}
