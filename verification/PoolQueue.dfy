/** The pool's request queue over whole runs: paths are taken in the order they were put, and a
    shutdown leaves a sentinel for every worker. */
module PoolQueue {
  import opened PathModel
  import opened WorkerPool

  /** Consecutive states of some run of the pool. */
  ghost predicate Steps(tr: seq<Pool>, agents: Agents) {
    |tr| > 0 && forall k :: 0 < k < |tr| ==> Next(tr[k - 1], tr[k], agents)
  }

  /** How often the request queue got shorter. */
  ghost function Takes(tr: seq<Pool>): nat {
    if |tr| < 2 then 0
    else
      var n := |tr| - 1;
      Takes(tr[..n]) + if |tr[n].requestQ| < |tr[n - 1].requestQ| then 1 else 0
  }

  lemma {:induction false} ScanKeepsQueue(p: Pool, w: nat)
    requires w <= |p.workers|
    ensures ScanFrom(p, w).requestQ == p.requestQ
    ensures Living(ScanFrom(p, w).workers) == Living(p.workers)
    decreases |p.workers| - w
  {
    if w < |p.workers| {
      var q := ScanOne(p, w);
      ScanKeepsQueue(q, w + 1);
      if q.workers != p.workers {
        LivingUpdate(p.workers, w, q.workers[w]);
      }
    }
  }

  lemma TickKeepsQueue(p: Pool, q: Pool)
    requires CanTick(p) && q == Tick(p)
    ensures q.requestQ == p.requestQ && Living(q.workers) == Living(p.workers)
  {
    ScanKeepsQueue(p, 0);
  }

  /** Something joins the queue at the back, or its front is taken. */
  ghost predicate Queues(a: seq<Request>, b: seq<Request>) {
    a <= b || (a != [] && b == a[1..])
  }

  lemma LiveQueues(p: Pool, q: Pool, agents: Agents)
    requires LiveStep(p, q, agents)
    ensures Queues(p.requestQ, q.requestQ)
  {
    if w: nat :| CanDequeue(p, w) && q == Dequeue(p, w) {
    } else {
      assert q.requestQ == p.requestQ;
    }
  }

  lemma QueueStep(p: Pool, q: Pool, agents: Agents)
    requires Next(p, q, agents)
    ensures Queues(p.requestQ, q.requestQ)
  {
    if LiveStep(p, q, agents) {
      LiveQueues(p, q, agents);
    } else if CanTick(p) && q == Tick(p) {
      TickKeepsQueue(p, q);
    } else if w: nat :| CanDie(p, w) && q == Die(p, w) {
      assert q.requestQ == p.requestQ;
    } else {
      assert p.requestQ <= q.requestQ;
    }
  }

  /** First come, first served: whatever happens in between, requests leave the queue in the order
      they are in, and those not taken yet are still its front. */
  lemma {:induction false} FirstComeFirstServed(tr: seq<Pool>, agents: Agents)
    requires Steps(tr, agents)
    ensures var q, n := tr[0].requestQ, Takes(tr);
      n <= |q| ==> q[n..] <= tr[|tr| - 1].requestQ
  {
    if |tr| > 1 {
      var n := |tr| - 1;
      FirstComeFirstServed(tr[..n], agents);
      QueueStep(tr[n - 1], tr[n], agents);
    }
  }

  // ------------------------------------------------------------------ shutdown

  ghost function Living(ws: seq<Worker>): nat {
    if ws == [] then 0 else (if ws[0].Idle? || ws[0].Grabbed? || ws[0].Running? then 1 else 0) + Living(ws[1..])
  }

  ghost function Stops(q: seq<Request>): nat {
    if q == [] then 0 else (if q[0].Stop? then 1 else 0) + Stops(q[1..])
  }

  lemma {:induction false} LivingUpdate(ws: seq<Worker>, w: nat, x: Worker)
    requires w < |ws|
    ensures Living(ws[w := x]) == Living(ws)
         - (if ws[w].Idle? || ws[w].Grabbed? || ws[w].Running? then 1 else 0)
         + (if x.Idle? || x.Grabbed? || x.Running? then 1 else 0)
  {
    var vs := ws[w := x];
    if w == 0 {
      assert vs[1..] == ws[1..];
    } else {
      assert vs[1..] == ws[1..][w - 1 := x];
      LivingUpdate(ws[1..], w - 1, x);
    }
  }

  lemma {:induction false} LivingBound(ws: seq<Worker>)
    ensures Living(ws) <= |ws|
    ensures Living(ws) == 0 <==> forall w :: 0 <= w < |ws| ==> !ws[w].Idle? && !ws[w].Grabbed? && !ws[w].Running?
  {
    if ws != [] {
      LivingBound(ws[1..]);
      assert forall w :: 0 < w < |ws| ==> ws[w] == ws[1..][w - 1];
      assert forall w :: 0 <= w < |ws| - 1 ==> ws[1..][w] == ws[w + 1];
    }
  }

  lemma {:induction false} StopsAppend(q: seq<Request>, r: seq<Request>)
    ensures Stops(q + r) == Stops(q) + Stops(r)
  {
    if q == [] {
      assert q + r == r;
    } else {
      assert (q + r)[1..] == q[1..] + r;
      StopsAppend(q[1..], r);
    }
  }

  lemma {:induction false} StopsOf(n: nat)
    ensures Stops(seq(n, _ => Stop)) == n
  {
    if n > 0 {
      assert seq(n, _ => Stop)[1..] == seq(n - 1, _ => Stop);
      StopsOf(n - 1);
    }
  }

  lemma SendingStops(p: Pool)
    ensures Stops(SendStops(p).requestQ) == Stops(p.requestQ) + |p.workers|
  {
    StopsAppend(p.requestQ, seq(|p.workers|, _ => Stop));
    StopsOf(|p.workers|);
  }

  lemma LiveStops(p: Pool, q: Pool, agents: Agents)
    requires LiveStep(p, q, agents) && Stops(p.requestQ) >= Living(p.workers)
    ensures Stops(q.requestQ) >= Living(q.workers)
  {
    if w: nat :| CanDequeue(p, w) && q == Dequeue(p, w) {
      TakeStops(p, w);
    } else if w: nat :| CanClaim(p, w) && q == PutClaim(p, w) {
      WorkStops(p, w, q.workers[w]);
    } else if w: nat :| CanReport(p, w) && q == PutResult(p, w, agents) {
      WorkStops(p, w, q.workers[w]);
    }
  }

  /** A worker that stops takes its sentinel with it. */
  lemma TakeStops(p: Pool, w: nat)
    requires CanDequeue(p, w) && Stops(p.requestQ) >= Living(p.workers)
    ensures Stops(Dequeue(p, w).requestQ) >= Living(Dequeue(p, w).workers)
  {
    LivingUpdate(p.workers, w, Dequeue(p, w).workers[w]);
  }

  lemma WorkStops(p: Pool, w: nat, x: Worker)
    requires w < |p.workers| && p.workers[w].Alive() && x.Alive()
    ensures Living(p.workers[w := x]) == Living(p.workers)
  {
    LivingUpdate(p.workers, w, x);
  }

  lemma DeathStops(p: Pool, w: nat)
    requires CanDie(p, w)
    ensures Living(Die(p, w).workers) <= Living(p.workers)
  {
    LivingUpdate(p.workers, w, Die(p, w).workers[w]);
  }

  lemma StopsStep(p: Pool, q: Pool, agents: Agents)
    requires Next(p, q, agents) && Stops(p.requestQ) >= Living(p.workers)
    ensures Stops(q.requestQ) >= Living(q.workers)
  {
    if LiveStep(p, q, agents) {
      LiveStops(p, q, agents);
    } else if CanTick(p) && q == Tick(p) {
      TickKeepsQueue(p, q);
    } else if w: nat :| CanDie(p, w) && q == Die(p, w) {
      DeathStops(p, w);
    } else if q == SendStops(p) {
      SendingStops(p);
    } else if i: nat, u :| i !in p.submitted && q == Submit(p, i, u) {
      StopsAppend(p.requestQ, [Path(i, u)]);
    }
  }

  /** A shutdown reaches everyone: in any run after it there is a sentinel queued for every worker
      still alive, so once the queue is empty no worker is. */
  lemma {:induction false} ShutdownReachesAll(before: Pool, tr: seq<Pool>, agents: Agents)
    requires Steps(tr, agents) && tr[0] == SendStops(before)
    ensures var p := tr[|tr| - 1];
      && Stops(p.requestQ) >= Living(p.workers)
      && (p.requestQ == [] ==>
            forall w :: 0 <= w < |p.workers| ==>
              !p.workers[w].Idle? && !p.workers[w].Grabbed? && !p.workers[w].Running?)
  {
    var n := |tr| - 1;
    if n == 0 {
      SendingStops(before);
    } else {
      ShutdownReachesAll(before, tr[..n], agents);
      StopsStep(tr[n - 1], tr[n], agents);
    }
    LivingBound(tr[n].workers);
  }
}
