/**
 * The co-simulation interface: the bookkeeping that the simulation thread
 * does around two packet queues, one from the external process into the
 * simulation (filled by a reader thread) and one from the simulation out
 * to the external process (emptied by a writer thread).
 *
 * The threads and the external worker are not modelled. A queue is the
 * sequence of packets it holds; the reader is replaced by whatever the
 * caller has put into `inbound`, and the writer's loop is a method over the
 * queue contents it finds at each of its waits, returning the batches it
 * would hand to the worker.
 */
module CoSimInterface {
  import opened Optional
  import opened Attributes

  datatype PacketFlag = NoFlags | CloseInterface

  /** `AttributePacket`: a value snapshot, the attribute's index, a sequence id, a flag. */
  datatype Packet = Packet(value: Option<Value>, attributeId: nat, sequenceId: nat, flag: PacketFlag)

  /** The sentinel `close` enqueues: a null value, index 0, id 0, the close flag. */
  const ClosePacket := Packet(None, 0, 0, CloseInterface)

  /** An entry of the import table: the attribute, the last sequence id received for it, the block flag. */
  datatype Import = Import(attr: Attribute, seqId: nat, blockOnRead: bool)

  /** An entry of the export table: the attribute and the sequence id its next packet carries. */
  datatype Export = Export(attr: Attribute, seqId: nat)

  /** The per-step tasks the interface can contribute to a simulation. */
  datatype TaskKind = PreStep | PostStep

  /** Outcome of a configuration call; DPsim exits the process on the error. */
  datatype Status = Ok | FatalConfigError

  // ---------------------------------------------------------------------
  // Inbound direction: specification of the drain

  /** The simulation-side state the inbound drain reads and writes. */
  datatype Inbound = Inbound(imports: seq<Import>, next: nat)

  /** Every packet names an existing import (the C++ implementation indexes the table unchecked). */
  predicate Addressed(ps: seq<Packet>, n: nat) {
    forall i :: 0 <= i < |ps| ==> ps[i].attributeId < n
  }

  /**
   * What one dequeued packet does: its value is copied onto the import's
   * attribute (a failed copy only logs a warning), and the import's recorded
   * sequence id becomes the packet's either way. DPsim indexes the
   * table unchecked; the methods below only apply packets that name an
   * existing import, so the last branch is never taken by them.
   */
  function Receive(imports: seq<Import>, p: Packet): seq<Import> {
    if p.attributeId < |imports| then
      var e := imports[p.attributeId];
      imports[p.attributeId := Import(CopyValue(e.attr, p.value).1, p.sequenceId, e.blockOnRead)]
    else imports
  }

  /** The state after dequeuing `ps` in order; each packet also resets the next expected id. */
  function ReceiveAll(st: Inbound, ps: seq<Packet>): (r: Inbound)
    ensures |r.imports| == |st.imports|
    decreases |ps|
  {
    if ps == [] then st
    else
      var p := ps[|ps| - 1];
      var before := ReceiveAll(st, ps[..|ps| - 1]);
      Inbound(Receive(before.imports, p), p.sequenceId + 1)
  }

  /** Applying one more packet of a queue extends the drained prefix by one. */
  lemma ReceiveAllSnoc(st: Inbound, q: seq<Packet>, i: nat)
    requires i < |q|
    ensures ReceiveAll(st, q[..i + 1]) == Inbound(Receive(ReceiveAll(st, q[..i]).imports, q[i]), q[i].sequenceId + 1)
  {
    assert q[..i + 1][..i] == q[..i];
  }

  /** Draining `a` and then `b` is draining `a + b`. */
  lemma {:induction false} ReceiveAllAppend(st: Inbound, a: seq<Packet>, b: seq<Packet>)
    ensures ReceiveAll(ReceiveAll(st, a), b) == ReceiveAll(st, a + b)
    decreases |b|
  {
    if b == [] {
      assert a + b == a;
    } else {
      assert (a + b)[..|a + b| - 1] == a + b[..|b| - 1];
      ReceiveAllAppend(st, a, b[..|b| - 1]);
    }
  }

  /** The blocking loop's condition: some blocking import has not yet seen `expected`. */
  predicate Lagging(imports: seq<Import>, expected: nat) {
    exists j :: 0 <= j < |imports| && imports[j].blockOnRead && imports[j].seqId < expected
  }

  /** The sequence id of the last packet in `ps` addressed to import `j`, if any. */
  function LastIdFor(ps: seq<Packet>, j: nat): Option<nat>
    decreases |ps|
  {
    if ps == [] then None
    else if ps[|ps| - 1].attributeId == j then Some(ps[|ps| - 1].sequenceId)
    else LastIdFor(ps[..|ps| - 1], j)
  }

  /**
   * After a drain, every import records the id of the last packet addressed
   * to it (or keeps its old id), keeps its block flag, its attribute identity
   * and its attribute's type; the next expected id is one past the last
   * packet's id.
   */
  lemma {:induction false} ReceiveAllRecordsLastId(st: Inbound, ps: seq<Packet>)
    ensures ps != [] ==> ReceiveAll(st, ps).next == ps[|ps| - 1].sequenceId + 1
    ensures forall j :: 0 <= j < |st.imports| ==>
      var e := ReceiveAll(st, ps).imports[j];
      && e.seqId == (match LastIdFor(ps, j) case Some(s) => s case None => st.imports[j].seqId)
      && e.blockOnRead == st.imports[j].blockOnRead
      && e.attr.id == st.imports[j].attr.id
      && KindOf(e.attr.value) == KindOf(st.imports[j].attr.value)
    decreases |ps|
  {
    if ps != [] {
      ReceiveAllRecordsLastId(st, ps[..|ps| - 1]);
    }
  }

  /**
   * If, for every blocking import, the last queued packet addressed to it
   * carries at least the expected id, then once the queue is drained no
   * blocking import lags behind.
   */
  lemma FreshInputsCatchUp(st: Inbound, ps: seq<Packet>, expected: nat)
    requires forall j :: 0 <= j < |st.imports| && st.imports[j].blockOnRead ==>
      LastIdFor(ps, j).Some? && LastIdFor(ps, j).value >= expected
    ensures !Lagging(ReceiveAll(st, ps).imports, expected)
  {
    ReceiveAllRecordsLastId(st, ps);
  }

  // ---------------------------------------------------------------------
  // Inbound direction: the dequeue loops of `popDpsimAttrsFromQueue`

  /**
   * The blocking loop: dequeue while some blocking import has recorded an
   * id below `expected`. Each dequeued packet's value is copied onto the
   * import it names (a refused copy is only reported as a warning), its
   * id is recorded on that import and becomes, plus one, the next
   * expected id. `consumed` packets are taken, and the condition held
   * before each of them. If the queue runs dry while the condition still
   * holds, `blocked` is true: there the blocking dequeue would wait.
   */
  method ReceiveWhileLagging(st: Inbound, q: seq<Packet>, expected: nat)
    returns (r: Inbound, consumed: nat, blocked: bool)
    requires Addressed(q, |st.imports|)
    ensures consumed <= |q| && r == ReceiveAll(st, q[..consumed])
    ensures forall k :: 0 <= k < consumed ==> Lagging(ReceiveAll(st, q[..k]).imports, expected)
    ensures blocked <==> Lagging(r.imports, expected)
    ensures blocked ==> consumed == |q|
  {
    var table, next: nat, queue := st.imports, st.next, q;
    consumed := 0;
    assert q[..0] == [];
    blocked := false;
    while Lagging(table, expected)
      invariant 0 <= consumed <= |q| && queue == q[consumed..]
      invariant Inbound(table, next) == ReceiveAll(st, q[..consumed])
      invariant forall k :: 0 <= k < consumed ==> Lagging(ReceiveAll(st, q[..k]).imports, expected)
      invariant !blocked
      decreases |queue|
    {
      if queue == [] {
        blocked := true;
        break;
      }
      assert Lagging(ReceiveAll(st, q[..consumed]).imports, expected);
      ReceiveAllSnoc(st, q, consumed);
      var p := queue[0];
      queue := queue[1..];
      var e := table[p.attributeId];
      var copied := CopyValue(e.attr, p.value);
      table := table[p.attributeId := Import(copied.1, p.sequenceId, e.blockOnRead)];
      next := p.sequenceId + 1;
      consumed := consumed + 1;
    }
    r := Inbound(table, next);
  }

  /** The non-blocking loop: dequeue and apply everything queued, each packet as above. */
  method ReceiveEverything(st: Inbound, q: seq<Packet>) returns (r: Inbound)
    requires Addressed(q, |st.imports|)
    ensures r == ReceiveAll(st, q)
  {
    var table, next: nat, queue := st.imports, st.next, q;
    var i := 0;
    assert q[..0] == [];
    while queue != []
      invariant 0 <= i <= |q| && queue == q[i..]
      invariant Inbound(table, next) == ReceiveAll(st, q[..i])
      decreases |queue|
    {
      ReceiveAllSnoc(st, q, i);
      var p := queue[0];
      queue := queue[1..];
      var e := table[p.attributeId];
      var copied := CopyValue(e.attr, p.value);
      table := table[p.attributeId := Import(copied.1, p.sequenceId, e.blockOnRead)];
      next := p.sequenceId + 1;
      i := i + 1;
    }
    assert q[..i] == q;
    r := Inbound(table, next);
  }

  // ---------------------------------------------------------------------
  // Outbound direction: specification of the export step

  /** The simulation-side state the export step reads and writes. */
  datatype Outbound = Outbound(exports: seq<Export>, counter: nat, queue: seq<Packet>)

  /** One packet per export, in index order, carrying the export's stored id. */
  function Snapshots(exports: seq<Export>): seq<Packet> {
    seq(|exports|, i requires 0 <= i < |exports| => Packet(Some(exports[i].attr.value), i, exports[i].seqId, NoFlags))
  }

  /** Export `i` gets id `counter + i` for its next packet. */
  function Restamp(exports: seq<Export>, counter: nat): seq<Export> {
    seq(|exports|, i requires 0 <= i < |exports| => Export(exports[i].attr, counter + i))
  }

  /** `pushDpsimAttrsToQueue` as a function of the state. */
  function Push(s: Outbound): Outbound {
    Outbound(Restamp(s.exports, s.counter), s.counter + |s.exports|, s.queue + Snapshots(s.exports))
  }

  /** The export table part-way through a push: the first `i` exports restamped. */
  function PartlyRestamped(exports: seq<Export>, counter: nat, i: nat): (r: seq<Export>)
    requires i <= |exports|
    ensures |r| == |exports|
  {
    Restamp(exports, counter)[..i] + exports[i..]
  }

  /** One iteration of the push: export `i` is sent with its stored id, then restamped. */
  lemma RestampStep(exports: seq<Export>, counter: nat, i: nat)
    requires i < |exports|
    ensures PartlyRestamped(exports, counter, i)[i] == exports[i]
    ensures PartlyRestamped(exports, counter, i)[i := Export(exports[i].attr, counter + i)]
      == PartlyRestamped(exports, counter, i + 1)
    ensures Snapshots(exports)[..i + 1]
      == Snapshots(exports)[..i] + [Packet(Some(exports[i].attr.value), i, exports[i].seqId, NoFlags)]
  {
    var before := PartlyRestamped(exports, counter, i);
    var after := PartlyRestamped(exports, counter, i + 1);
    assert before[i := Export(exports[i].attr, counter + i)] == after by {
      forall j | 0 <= j < |exports|
        ensures before[i := Export(exports[i].attr, counter + i)][j] == after[j]
      {
        if j < i {
          assert before[j] == Restamp(exports, counter)[j] == after[j];
        }
      }
    }
  }

  lemma RestampDone(exports: seq<Export>, counter: nat)
    ensures PartlyRestamped(exports, counter, |exports|) == Restamp(exports, counter)
    ensures Snapshots(exports)[..|exports|] == Snapshots(exports)
  {
    assert Restamp(exports, counter)[..|exports|] == Restamp(exports, counter);
  }

  /** Every stored export id is below the global counter. */
  predicate IdsBelow(exports: seq<Export>, counter: nat) {
    forall i :: 0 <= i < |exports| ==> exports[i].seqId < counter
  }

  /**
   * A push appends exactly one packet per export with `attributeId == i`;
   * when the stored ids are below the counter, it keeps them below, and every
   * export's next id is strictly larger than the one just sent, so the ids
   * a given attribute sends strictly increase from push to push.
   */
  lemma PushAdvances(s: Outbound)
    ensures |Push(s).queue| == |s.queue| + |s.exports|
    ensures |Push(s).exports| == |s.exports|
    ensures forall i :: 0 <= i < |s.exports| ==>
      && Push(s).queue[|s.queue| + i].attributeId == i
      && Push(s).queue[|s.queue| + i].sequenceId == s.exports[i].seqId
      && Push(s).exports[i].attr == s.exports[i].attr
    ensures IdsBelow(s.exports, s.counter) ==> IdsBelow(Push(s).exports, Push(s).counter)
    ensures IdsBelow(s.exports, s.counter) ==>
      forall i :: 0 <= i < |s.exports| ==> Snapshots(Push(s).exports)[i].sequenceId > Snapshots(s.exports)[i].sequenceId
  {
  }

  /** The post-step task over steps `0 .. n - 1`: it exports on multiples of `d` only. */
  function RunPostSteps(s: Outbound, n: nat, d: nat): (r: Outbound)
    requires d > 0
    decreases n
  {
    if n == 0 then s
    else
      var before := RunPostSteps(s, n - 1, d);
      if (n - 1) % d == 0 then Push(before) else before
  }

  /** How many of the steps `0 .. n - 1` are multiples of `d`. */
  function Multiples(n: nat, d: nat): nat
    requires d > 0
  {
    if n == 0 then 0 else Multiples(n - 1, d) + (if (n - 1) % d == 0 then 1 else 0)
  }

  /** Each export step adds one packet per export; no other step adds any. */
  lemma {:induction false} PostStepsPacketCount(s: Outbound, n: nat, d: nat)
    requires d > 0
    ensures |RunPostSteps(s, n, d).exports| == |s.exports|
    ensures |RunPostSteps(s, n, d).queue| == |s.queue| + |s.exports| * Multiples(n, d)
  {
    if n > 0 {
      PostStepsPacketCount(s, n - 1, d);
      var before := RunPostSteps(s, n - 1, d);
      assert |Push(before).queue| == |before.queue| + |before.exports|;
      MulSucc(|s.exports|, Multiples(n - 1, d));
    }
  }

  lemma {:induction false} MultiplesInBlock(k: nat, d: nat, j: nat)
    requires d > 0 && j <= d
    ensures Multiples(k * d + j, d) == k + (if j > 0 then 1 else 0)
    decreases k, j
  {
    if j > 0 {
      MultiplesInBlock(k, d, j - 1);
      assert (k * d + j - 1) % d == j - 1 by {
        ModOfBlock(k, d, j - 1);
      }
    } else if k > 0 {
      assert k * d + 0 == (k - 1) * d + d;
      MultiplesInBlock(k - 1, d, d);
    }
  }

  lemma ModOfBlock(k: nat, d: nat, j: nat)
    requires d > 0 && j < d
    ensures (k * d + j) % d == j
  {
    var x := k * d + j;
    var q, r := x / d, x % d;
    assert x == q * d + r;
    assert (k - q) * d == r - j;
    if k > q {
      MulAtLeast(k - q, d);
    } else if k < q {
      MulAtLeast(q - k, d);
    }
  }

  lemma MulSucc(a: nat, m: nat)
    ensures a * (m + 1) == a * m + a
  {
  }

  lemma MulAtLeast(m: int, d: int)
    requires m >= 1 && d > 0
    ensures m * d >= d
  {
  }

  /** How many packets in `ps` are addressed to attribute `i`. */
  function PacketsFor(ps: seq<Packet>, i: nat): (c: nat)
    ensures c <= |ps|
    decreases |ps|
  {
    if ps == [] then 0
    else PacketsFor(ps[..|ps| - 1], i) + (if ps[|ps| - 1].attributeId == i then 1 else 0)
  }

  lemma {:induction false} PacketsForAppend(a: seq<Packet>, b: seq<Packet>, i: nat)
    ensures PacketsFor(a + b, i) == PacketsFor(a, i) + PacketsFor(b, i)
    decreases |b|
  {
    if b == [] {
      assert a + b == a;
    } else {
      assert (a + b)[..|a + b| - 1] == a + b[..|b| - 1];
      PacketsForAppend(a, b[..|b| - 1], i);
    }
  }

  /** The first `m` packets of a push hold one packet for each export below `m` and none for the others. */
  lemma {:induction false} SnapshotsPrefixFor(exports: seq<Export>, m: nat, i: nat)
    requires m <= |exports|
    ensures PacketsFor(Snapshots(exports)[..m], i) == if i < m then 1 else 0
  {
    if m > 0 {
      assert Snapshots(exports)[..m][..m - 1] == Snapshots(exports)[..m - 1];
      SnapshotsPrefixFor(exports, m - 1, i);
    }
  }

  /** Each export step adds exactly one packet for each exported attribute. */
  lemma {:induction false} PostStepsPacketsFor(s: Outbound, n: nat, d: nat, i: nat)
    requires d > 0 && i < |s.exports|
    ensures |RunPostSteps(s, n, d).exports| == |s.exports|
    ensures PacketsFor(RunPostSteps(s, n, d).queue, i) == PacketsFor(s.queue, i) + Multiples(n, d)
  {
    if n > 0 {
      PostStepsPacketsFor(s, n - 1, d, i);
      var before := RunPostSteps(s, n - 1, d);
      if (n - 1) % d == 0 {
        var pushed := Snapshots(before.exports);
        PacketsForAppend(before.queue, pushed, i);
        SnapshotsPrefixFor(before.exports, |before.exports|, i);
        assert pushed[..|before.exports|] == pushed;
      }
    }
  }

  /**
   * Over `k` whole blocks of `d` steps, exactly `k` packets per exported
   * attribute are exported (with a factor of 5, fifty steps give ten),
   * so the queue grows by `k` packets per export in all.
   */
  lemma ExportsPerBlock(s: Outbound, k: nat, d: nat)
    requires d > 0
    ensures |RunPostSteps(s, k * d, d).queue| == |s.queue| + |s.exports| * k
    ensures forall i :: 0 <= i < |s.exports| ==>
      PacketsFor(RunPostSteps(s, k * d, d).queue, i) == PacketsFor(s.queue, i) + k
  {
    var n := k * d;
    MultiplesInBlock(k, d, 0);
    assert Multiples(n, d) == k;
    PostStepsPacketCount(s, n, d);
    forall i | 0 <= i < |s.exports|
      ensures PacketsFor(RunPostSteps(s, n, d).queue, i) == PacketsFor(s.queue, i) + k
    {
      PostStepsPacketsFor(s, n, d, i);
    }
  }

  /**
   * The loop of `pushDpsimAttrsToQueue`: for each export in index order,
   * enqueue a snapshot carrying its stored id, then give it the next id
   * of the global counter.
   */
  method PushEach(s: Outbound) returns (r: Outbound)
    ensures r == Push(s)
  {
    var table, queue, counter := s.exports, s.queue, s.counter;
    var i := 0;
    while i < |table|
      invariant 0 <= i <= |s.exports|
      invariant table == PartlyRestamped(s.exports, s.counter, i)
      invariant queue == s.queue + Snapshots(s.exports)[..i]
      invariant counter == s.counter + i
    {
      RestampStep(s.exports, s.counter, i);
      var e := table[i];
      queue := queue + [Packet(Some(e.attr.value), i, e.seqId, NoFlags)];
      table := table[i := Export(e.attr, counter)];
      counter := counter + 1;
      i := i + 1;
    }
    RestampDone(s.exports, s.counter);
    r := Outbound(table, counter, queue);
  }

  // ---------------------------------------------------------------------
  // The writer thread's loop

  predicate IsClose(p: Packet) {
    p.flag == CloseInterface
  }

  /** Whether `ps` holds a close packet. */
  predicate HasClose(ps: seq<Packet>)
    decreases |ps|
  {
    ps != [] && (IsClose(ps[|ps| - 1]) || HasClose(ps[..|ps| - 1]))
  }

  /** The packets of `ps` that are not the close sentinel, in order. */
  function DataPackets(ps: seq<Packet>): (r: seq<Packet>)
    ensures |r| <= |ps|
    ensures forall i :: 0 <= i < |r| ==> !IsClose(r[i])
    ensures !HasClose(ps) ==> r == ps
    decreases |ps|
  {
    if ps == [] then []
    else
      var init := DataPackets(ps[..|ps| - 1]);
      if IsClose(ps[|ps| - 1]) then init else init + [ps[|ps| - 1]]
  }

  lemma {:induction false} DataPacketsAppend(a: seq<Packet>, b: seq<Packet>)
    ensures DataPackets(a + b) == DataPackets(a) + DataPackets(b)
    decreases |b|
  {
    if b != [] {
      var b' := b[..|b| - 1];
      assert (a + b)[..|a + b| - 1] == a + b';
      DataPacketsAppend(a, b');
    } else {
      assert a + b == a;
    }
  }

  /** All rounds' packets, in order. */
  function Concat(rounds: seq<seq<Packet>>): seq<Packet>
    decreases |rounds|
  {
    if rounds == [] then [] else Concat(rounds[..|rounds| - 1]) + rounds[|rounds| - 1]
  }

  /** The first round holding a close packet, or the number of rounds if none does. */
  function ClosingRound(rounds: seq<seq<Packet>>): (c: nat)
    ensures c <= |rounds|
    ensures c < |rounds| ==> HasClose(rounds[c])
    ensures forall q :: 0 <= q < c ==> !HasClose(rounds[q])
    decreases |rounds|
  {
    if rounds == [] then 0
    else if HasClose(rounds[0]) then 0
    else
      var c := 1 + ClosingRound(rounds[1..]);
      assert forall q :: 1 <= q < c ==> rounds[q] == rounds[1..][q - 1];
      c
  }

  /**
   * What the worker receives after round `b`: that round's non-close packets
   * if it empties the vector each time, otherwise those of all rounds so far.
   */
  function Batch(rounds: seq<seq<Packet>>, b: nat, sinkClears: bool): seq<Packet>
    requires b < |rounds|
  {
    if sinkClears then DataPackets(rounds[b]) else DataPackets(Concat(rounds[..b + 1]))
  }

  /** The batches of the first `n` rounds. */
  function Batches(rounds: seq<seq<Packet>>, n: nat, sinkClears: bool): (bs: seq<seq<Packet>>)
    requires n <= |rounds|
    ensures |bs| == n
    ensures forall b :: 0 <= b < n ==> bs[b] == Batch(rounds, b, sinkClears)
  {
    if n == 0 then []
    else
      var before := Batches(rounds, n - 1, sinkClears);
      var bs := before + [Batch(rounds, n - 1, sinkClears)];
      assert forall b :: 0 <= b < n - 1 ==> bs[b] == before[b];
      bs
  }

  /**
   * One round of the writer: the packet its blocking dequeue returned
   * (`round[0]`), then every packet its non-blocking dequeues find. Non-close
   * packets are appended to `pending`; `sawClose` records whether a close
   * packet was among them.
   */
  method WriterRound(round: seq<Packet>, pending: seq<Packet>) returns (kept: seq<Packet>, sawClose: bool)
    requires round != []
    ensures kept == pending + DataPackets(round)
    ensures sawClose <==> HasClose(round)
  {
    kept := pending;
    var queue := round;
    // the blocking dequeue
    var next := queue[0];
    queue := queue[1..];
    sawClose := IsClose(next);
    if !sawClose {
      kept := kept + [next];
    }
    assert round[..1] == [next];
    // the non-blocking dequeues
    var j := 1;
    while queue != []
      invariant 1 <= j <= |round| && queue == round[j..]
      invariant sawClose <==> HasClose(round[..j])
      invariant kept == pending + DataPackets(round[..j])
      decreases |queue|
    {
      next := queue[0];
      queue := queue[1..];
      if IsClose(next) {
        sawClose := true;
      } else {
        kept := kept + [next];
      }
      assert round[..j + 1] == round[..j] + [next];
      assert round[..j + 1][..j] == round[..j];
      j := j + 1;
    }
    assert round[..j] == round;
  }

  /**
   * `WriterThread::operator()`. `rounds[r]` is what the outbound queue holds
   * when the writer's blocking dequeue returns for the `r`-th time (never
   * empty: that dequeue waits for a packet). Each round keeps the non-close
   * packets in the pending vector and hands that vector to the worker. The
   * vector is passed by reference; `sinkClears` says whether the worker
   * empties it. The loop ends after the round in which a close packet is
   * seen; if the rounds run out first, `closed` is false and the real thread
   * would be waiting for more packets.
   */
  method WriterLoop(rounds: seq<seq<Packet>>, sinkClears: bool) returns (batches: seq<seq<Packet>>, closed: bool)
    requires forall r :: 0 <= r < |rounds| ==> rounds[r] != []
    ensures closed <==> ClosingRound(rounds) < |rounds|
    ensures |batches| == if closed then ClosingRound(rounds) + 1 else |rounds|
    ensures |batches| <= |rounds|
    ensures forall b :: 0 <= b < |batches| ==> batches[b] == Batch(rounds, b, sinkClears)
    ensures forall b, i :: 0 <= b < |batches| && 0 <= i < |batches[b]| ==> !IsClose(batches[b][i])
  {
    batches := [];
    closed := false;
    var pending: seq<Packet> := [];
    var r := 0;
    while !closed && r < |rounds|
      invariant 0 <= r <= |rounds|
      invariant !closed ==> ClosingRound(rounds) >= r
      invariant closed ==> 0 < r && ClosingRound(rounds) == r - 1
      invariant pending == Carried(rounds, r, sinkClears)
      invariant batches == Batches(rounds, r, sinkClears)
      decreases |rounds| - r
    {
      pending, closed := WriterRound(rounds[r], pending);
      ClosingRoundStep(rounds, r);
      BatchStep(rounds, r, sinkClears);
      batches := batches + [pending];
      if sinkClears {
        pending := [];
      }
      r := r + 1;
    }
    forall b, i | 0 <= b < |batches| && 0 <= i < |batches[b]|
      ensures !IsClose(batches[b][i])
    {
      BatchHasNoClose(rounds, b, sinkClears);
    }
  }

  /** What the pending vector holds before round `r`. */
  function Carried(rounds: seq<seq<Packet>>, r: nat, sinkClears: bool): seq<Packet>
    requires r <= |rounds|
  {
    if sinkClears then [] else DataPackets(Concat(rounds[..r]))
  }

  /** A round turns the carried vector into that round's batch, which is what the next round carries. */
  lemma BatchStep(rounds: seq<seq<Packet>>, r: nat, sinkClears: bool)
    requires r < |rounds|
    ensures Carried(rounds, r, sinkClears) + DataPackets(rounds[r]) == Batch(rounds, r, sinkClears)
    ensures Carried(rounds, r + 1, sinkClears) == if sinkClears then [] else Batch(rounds, r, sinkClears)
  {
    assert rounds[..r + 1][..r] == rounds[..r];
    assert Concat(rounds[..r + 1]) == Concat(rounds[..r]) + rounds[r];
    DataPacketsAppend(Concat(rounds[..r]), rounds[r]);
  }

  /** Whether round `r`, reached without a close, holds one decides whether the loop ends there. */
  lemma ClosingRoundStep(rounds: seq<seq<Packet>>, r: nat)
    requires r < |rounds| && ClosingRound(rounds) >= r
    ensures HasClose(rounds[r]) ==> ClosingRound(rounds) == r
    ensures !HasClose(rounds[r]) ==> ClosingRound(rounds) >= r + 1
  {
  }

  /** No batch holds a close packet. */
  lemma BatchHasNoClose(rounds: seq<seq<Packet>>, b: nat, sinkClears: bool)
    requires b < |rounds|
    ensures forall i :: 0 <= i < |Batch(rounds, b, sinkClears)| ==> !IsClose(Batch(rounds, b, sinkClears)[i])
  {
  }

  // ---------------------------------------------------------------------
  // The interface object

  class Interface {
    /** `mOpened`: configuration is frozen once this is set. */
    var isOpen: bool
    /** `mDownsampling`: the interface acts on steps that are multiples of this. */
    const downsampling: nat
    /** `mImportAttrsDpsim` */
    var imports: seq<Import>
    /** `mExportAttrsDpsim` */
    var exports: seq<Export>
    /** `mNextSequenceInterfaceToDpsim`: one counter shared by all imports. */
    var nextSeqIn: nat
    /** `mCurrentSequenceDpsimToInterface`: one counter shared by all exports. */
    var curSeqOut: nat
    /** `mQueueInterfaceToDpsim` */
    var inbound: seq<Packet>
    /** `mQueueDpsimToInterface` */
    var outbound: seq<Packet>

    function InboundState(): Inbound
      reads this
    {
      Inbound(imports, nextSeqIn)
    }

    function OutboundState(): Outbound
      reads this
    {
      Outbound(exports, curSeqOut, outbound)
    }

    /**
     * A closed interface with no imports or exports and empty queues. The
     * counters' initial values are parameters.
     */
    constructor (downsampling: nat, firstSequenceOut: nat, firstSequenceIn: nat)
      ensures !isOpen && this.downsampling == downsampling
      ensures imports == [] && exports == [] && inbound == [] && outbound == []
      ensures curSeqOut == firstSequenceOut && nextSeqIn == firstSequenceIn
    {
      isOpen := false;
      this.downsampling := downsampling;
      imports, exports := [], [];
      nextSeqIn, curSeqOut := firstSequenceIn, firstSequenceOut;
      inbound, outbound := [], [];
    }

    /** `open`: freezes the configuration (the worker and threads are not modelled). */
    method Open()
      modifies this
      ensures isOpen
      ensures imports == old(imports) && exports == old(exports)
      ensures InboundState() == old(InboundState()) && OutboundState() == old(OutboundState())
      ensures inbound == old(inbound)
    {
      isOpen := true;
    }

    /** `close`: clears the isOpen flag and enqueues exactly one close sentinel. */
    method Close()
      modifies this
      ensures !isOpen
      ensures outbound == old(outbound) + [ClosePacket]
      ensures imports == old(imports) && exports == old(exports) && inbound == old(inbound)
      ensures nextSeqIn == old(nextSeqIn) && curSeqOut == old(curSeqOut)
    {
      isOpen := false;
      outbound := outbound + [ClosePacket];
    }

    /** `getTasks`: the pre-step task iff there are imports, the post-step task iff there are exports. */
    method GetTasks() returns (tasks: seq<TaskKind>)
      ensures PreStep in tasks <==> |imports| > 0
      ensures PostStep in tasks <==> |exports| > 0
      ensures |tasks| == (if |imports| > 0 then 1 else 0) + (if |exports| > 0 then 1 else 0)
      ensures |tasks| == 2 ==> tasks[0] == PreStep && tasks[1] == PostStep
    {
      tasks := [];
      if |imports| > 0 {
        tasks := tasks + [PreStep];
      }
      if |exports| > 0 {
        tasks := tasks + [PostStep];
      }
    }

    /**
     * `addImport`: before opening, appends `(attr, 0, blockOnRead)`; after
     * opening it is a fatal configuration error and nothing is added.
     */
    method AddImport(attr: Attribute, blockOnRead: bool) returns (status: Status)
      modifies this
      ensures status == (if old(isOpen) then FatalConfigError else Ok)
      ensures imports == if old(isOpen) then old(imports) else old(imports) + [Import(attr, 0, blockOnRead)]
      ensures isOpen == old(isOpen) && exports == old(exports)
      ensures inbound == old(inbound) && outbound == old(outbound)
      ensures nextSeqIn == old(nextSeqIn) && curSeqOut == old(curSeqOut)
    {
      if isOpen {
        return FatalConfigError;
      }
      imports := imports + [Import(attr, 0, blockOnRead)];
      status := Ok;
    }

    /**
     * `addExport`: before opening, appends `(attr, 0)`; after opening it is a
     * fatal configuration error and nothing is added.
     */
    method AddExport(attr: Attribute) returns (status: Status)
      modifies this
      ensures status == (if old(isOpen) then FatalConfigError else Ok)
      ensures exports == if old(isOpen) then old(exports) else old(exports) + [Export(attr, 0)]
      ensures isOpen == old(isOpen) && imports == old(imports)
      ensures inbound == old(inbound) && outbound == old(outbound)
      ensures nextSeqIn == old(nextSeqIn) && curSeqOut == old(curSeqOut)
    {
      if isOpen {
        return FatalConfigError;
      }
      exports := exports + [Export(attr, 0)];
      status := Ok;
    }

    /**
     * The blocking loop of `popDpsimAttrsFromQueue` on this interface's
     * import table and inbound queue: `ReceiveWhileLagging`, whose result
     * is stored back and whose consumed packets leave the queue.
     */
    method AwaitBlockingImports(expected: nat) returns (blocked: bool, ghost consumed: nat)
      requires Addressed(inbound, |imports|)
      modifies this
      ensures consumed <= |old(inbound)| && inbound == old(inbound)[consumed..]
      ensures InboundState() == ReceiveAll(old(InboundState()), old(inbound)[..consumed])
      ensures forall k :: 0 <= k < consumed ==> Lagging(ReceiveAll(old(InboundState()), old(inbound)[..k]).imports, expected)
      ensures blocked <==> Lagging(imports, expected)
      ensures blocked ==> inbound == []
      ensures isOpen == old(isOpen) && OutboundState() == old(OutboundState())
    {
      var st, taken, b := ReceiveWhileLagging(InboundState(), inbound, expected);
      imports, nextSeqIn, inbound := st.imports, st.next, inbound[taken..];
      blocked, consumed := b, taken;
    }

    /** The non-blocking loop of `popDpsimAttrsFromQueue` on this interface: `ReceiveEverything`. */
    method DrainInbound()
      requires Addressed(inbound, |imports|)
      modifies this
      ensures inbound == []
      ensures InboundState() == ReceiveAll(old(InboundState()), old(inbound))
      ensures isOpen == old(isOpen) && OutboundState() == old(OutboundState())
    {
      var st := ReceiveEverything(InboundState(), inbound);
      imports, nextSeqIn, inbound := st.imports, st.next, [];
    }

    /**
     * `popDpsimAttrsFromQueue`: the blocking loop, then the drain. The whole
     * queue is consumed in order. `blocked` (DPsim would wait for the
     * reader) holds exactly when the lagging condition, with the expected id
     * captured on entry, held after every prefix of the queue.
     */
    method PopFromQueue() returns (blocked: bool)
      requires Addressed(inbound, |imports|)
      modifies this
      ensures inbound == []
      ensures InboundState() == ReceiveAll(old(InboundState()), old(inbound))
      ensures blocked <==> forall k :: 0 <= k <= |old(inbound)| ==>
        Lagging(ReceiveAll(old(InboundState()), old(inbound)[..k]).imports, old(nextSeqIn))
      ensures isOpen == old(isOpen) && OutboundState() == old(OutboundState())
    {
      ghost var st0 := InboundState();
      ghost var q0 := inbound;
      var expected := nextSeqIn;
      ghost var consumed;
      blocked, consumed := AwaitBlockingImports(expected);
      DrainInbound();
      ReceiveAllAppend(st0, q0[..consumed], q0[consumed..]);
      assert q0[..consumed] + q0[consumed..] == q0;
      if blocked {
        assert q0[..consumed] == q0;
      }
    }

    /** `pushDpsimAttrsToQueue` on this interface's export table, counter and outbound queue: `PushEach`. */
    method PushToQueue()
      modifies this
      ensures OutboundState() == Push(old(OutboundState()))
      ensures isOpen == old(isOpen) && InboundState() == old(InboundState()) && inbound == old(inbound)
    {
      var s := PushEach(OutboundState());
      exports, curSeqOut, outbound := s.exports, s.counter, s.queue;
    }

    /** `PreStep::execute`: drains the inbound queue on steps that are multiples of the downsampling factor. */
    method PreStepExecute(time: real, timeStepCount: nat) returns (blocked: bool)
      requires downsampling > 0
      requires timeStepCount % downsampling == 0 ==> Addressed(inbound, |imports|)
      modifies this
      ensures timeStepCount % downsampling != 0 ==>
        !blocked && InboundState() == old(InboundState()) && inbound == old(inbound)
      ensures timeStepCount % downsampling == 0 ==>
        inbound == [] && InboundState() == ReceiveAll(old(InboundState()), old(inbound))
      ensures timeStepCount % downsampling == 0 ==>
        (blocked <==> forall k :: 0 <= k <= |old(inbound)| ==>
          Lagging(ReceiveAll(old(InboundState()), old(inbound)[..k]).imports, old(nextSeqIn)))
      ensures isOpen == old(isOpen) && OutboundState() == old(OutboundState())
    {
      blocked := false;
      if timeStepCount % downsampling == 0 {
        blocked := PopFromQueue();
      }
    }

    /** `PostStep::execute`: exports on steps that are multiples of the downsampling factor. */
    method PostStepExecute(time: real, timeStepCount: nat)
      requires downsampling > 0
      modifies this
      ensures OutboundState() == if timeStepCount % downsampling == 0 then Push(old(OutboundState())) else old(OutboundState())
      ensures isOpen == old(isOpen) && InboundState() == old(InboundState()) && inbound == old(inbound)
    {
      if timeStepCount % downsampling == 0 {
        PushToQueue();
      }
    }
  }
}
