/** The receiving half of DelegateMQ/extras/databus/Participant.h: ProcessIncoming with one duplicate
    filter for each remote id. */
module Participant {
  import opened DuplicateFilter
  import opened Wrappers

  type RemoteId = n: int | 0 <= n < 0x1_0000

  const MARKER: int := 0xAA55
  const ACK_REMOTE_ID: RemoteId := 0

  datatype Packet = Packet(marker: int, id: RemoteId, seqNum: SeqNum, payload: seq<int>)

  /** What ITransport::Receive hands over: a packet, or a non-zero error code. */
  datatype Received = Arrived(packet: Packet) | NothingReceived(code: int)

  /** Whether a packet reaches its handler, given what was accepted before on its id. */
  predicate Delivers(p: Packet, channels: set<RemoteId>, accepted: seq<SeqNum>, n: nat) {
    && p.marker == MARKER
    && p.id in channels
    && (p.id == ACK_REMOTE_ID || p.seqNum !in Recent(accepted, n))
  }

  /** The numbers accepted so far on one id. */
  function AcceptedOn(accepted: map<RemoteId, seq<SeqNum>>, id: RemoteId): seq<SeqNum> {
    if id in accepted then accepted[id] else []
  }

  /** What one packet does to the accepted numbers. */
  function Record(accepted: map<RemoteId, seq<SeqNum>>, n: nat, id: RemoteId, s: SeqNum): map<RemoteId, seq<SeqNum>> {
    accepted[id := Accept(AcceptedOn(accepted, id), n, s)]
  }

  class Participant {
    const historySize: nat
    var channels: set<RemoteId>
    var history: map<RemoteId, SeqHistory>
    /** The contents of all histories. */
    ghost var accepted: map<RemoteId, seq<SeqNum>>
    /** Handler invocations, oldest first. */
    ghost var invoked: seq<Packet>
    var continuousErrors: bool
    /** Ids whose missing dispatcher has been reported. */
    var reported: set<RemoteId>
    /** ERR_NO_DISPATCHER signals, oldest first. */
    ghost var signalled: seq<RemoteId>
    ghost var Repr: set<object>

    ghost predicate Valid()
      reads this, Repr
      ensures Valid() ==> this in Repr && history.Keys == accepted.Keys
    {
      && this in Repr && historySize > 0
      && history.Keys == accepted.Keys
      && (forall id | id in history ::
            && history[id] in Repr && history[id].buffer in Repr && history[id].valid in Repr
            && history[id].Valid() && history[id].size == historySize
            && history[id].accepted == accepted[id])
      && Apart(history)
    }

    /** The histories share no memory. */
    static ghost predicate Apart(history: map<RemoteId, SeqHistory>) {
      forall id1, id2 | id1 in history && id2 in history && id1 != id2 ::
        && history[id1] != history[id2]
        && history[id1].buffer != history[id2].buffer && history[id1].valid != history[id2].valid
    }

    static lemma ApartMore(history: map<RemoteId, SeqHistory>, id: RemoteId, h: SeqHistory)
      requires Apart(history)
      requires forall i | i in history ::
                 history[i] != h && history[i].buffer != h.buffer && history[i].valid != h.valid
      ensures Apart(history[id := h])
    {}

    constructor (historySize: nat)
      requires historySize > 0
      ensures Valid() && fresh(Repr) && this.historySize == historySize
      ensures channels == {} && accepted == map[] && invoked == [] && signalled == []
      ensures reported == {} && !continuousErrors
    {
      this.historySize := historySize;
      channels, history, accepted, invoked, signalled := {}, map[], map[], [], [];
      continuousErrors, reported := false, {};
      Repr := {this};
    }

    method RegisterHandler(id: RemoteId)
      requires Valid()
      modifies this`channels
      ensures Valid() && channels == old(channels) + {id}
    {
      hide SeqHistory.Valid;
      channels := channels + {id};
    }

    method ProcessIncoming(received: Received) returns (result: int)
      requires Valid()
      requires received.NothingReceived? ==> received.code != 0
      modifies Repr
      ensures Valid() && fresh(Repr - old(Repr))
      ensures channels == old(channels) && continuousErrors == old(continuousErrors)
      ensures received.NothingReceived? ==>
                && result == received.code
                && invoked == old(invoked) && accepted == old(accepted)
                && signalled == old(signalled) && reported == old(reported)
      ensures received.Arrived? ==>
                var p := received.packet;
                && result == (if p.marker == MARKER then 0 else -1)
                && invoked == old(invoked)
                     + (if Delivers(p, channels, AcceptedOn(old(accepted), p.id), historySize) then [p] else [])
                && reported == old(reported) + (if p.marker == MARKER && p.id !in channels then {p.id} else {})
                && signalled == old(signalled)
                     + (if p.marker == MARKER && p.id !in channels && (p.id !in old(reported) || continuousErrors)
                        then [p.id] else [])
                && accepted == (if p.marker == MARKER && p.id in channels && p.id != ACK_REMOTE_ID
                                then Record(old(accepted), historySize, p.id, p.seqNum) else old(accepted))
    {
      hide Valid, Recent, Accept, Record, AcceptedOn;
      if received.NothingReceived? {
        return received.code;
      }
      var p := received.packet;
      if p.marker != MARKER {
        return -1;
      }
      if p.id !in channels {
        OnChannelError(p.id);
        return 0;
      }
      if p.id != ACK_REMOTE_ID {
        var duplicate := Filter(p.id, p.seqNum);
        if duplicate {
          return 0;
        }
      }
      Invoke(p);
      return 0;
    }

    method Invoke(p: Packet)
      requires Valid()
      modifies this`invoked
      ensures Valid() && invoked == old(invoked) + [p]
    {
      hide SeqHistory.Valid;
      invoked := invoked + [p];
    }

    /** An error is signalled once for its topic, and again only if continuous errors are on. Different ids
        have different topics, the one that maps to the id or one made up from it. */
    method OnChannelError(id: RemoteId)
      requires Valid()
      modifies this`reported, this`signalled
      ensures Valid() && reported == old(reported) + {id}
      ensures signalled == old(signalled) + (if id !in old(reported) || continuousErrors then [id] else [])
    {
      hide SeqHistory.Valid;
      var shouldFire := false;
      if id !in reported {
        reported, shouldFire := reported + {id}, true;
      } else if continuousErrors {
        shouldFire := true;
      }
      if shouldFire {
        signalled := signalled + [id];
      }
    }

    method EnableContinuousErrors(enable: bool)
      requires Valid()
      modifies this`continuousErrors
      ensures Valid() && continuousErrors == enable
    {
      hide SeqHistory.Valid;
      continuousErrors := enable;
    }

    method ResetErrors()
      requires Valid()
      modifies this`reported
      ensures Valid() && reported == {}
    {
      hide SeqHistory.Valid;
      reported := {};
    }

    /** The history of an id is created, empty, the first time the id is seen. */
    method Filter(id: RemoteId, s: SeqNum) returns (duplicate: bool)
      requires Valid()
      modifies Repr
      ensures Valid() && fresh(Repr - old(Repr))
      ensures unchanged(`channels, `invoked, `reported, `signalled, `continuousErrors)
      ensures duplicate <==> s in Recent(AcceptedOn(old(accepted), id), historySize)
      ensures accepted == Record(old(accepted), historySize, id, s)
    {
      hide Valid, Recent, Accept;
      if id !in history {
        AddHistory(id);
      }
      duplicate := CheckHistory(id, s);
    }

    method AddHistory(id: RemoteId)
      requires Valid() && id !in history
      modifies this`history, this`accepted, this`Repr
      ensures Valid() && fresh(Repr - old(Repr)) && old(Repr) <= Repr
      ensures id in history && accepted == old(accepted)[id := []]
    {
      hide SeqHistory.Valid, Apart;
      var h := new SeqHistory(historySize);
      ApartMore(history, id, h);
      history := history[id := h];
      accepted := accepted[id := []];
      Repr := Repr + {h, h.buffer, h.valid};
    }

    method CheckHistory(id: RemoteId, s: SeqNum) returns (duplicate: bool)
      requires Valid() && id in history
      modifies this`accepted, Repr - {this}
      ensures Valid()
      ensures duplicate <==> s in Recent(old(accepted)[id], historySize)
      ensures accepted == old(accepted)[id := Accept(old(accepted)[id], historySize, s)]
    {
      hide SeqHistory.Valid, Recent, Accept;
      var h := history[id];
      duplicate := h.IsDuplicate(s);
      accepted := accepted[id := h.accepted];
    }
  }

  // ---------- Whole runs of packets ----------

  function RecordPacket(accepted: map<RemoteId, seq<SeqNum>>, channels: set<RemoteId>, n: nat, p: Packet)
      : map<RemoteId, seq<SeqNum>> {
    if p.marker == MARKER && p.id in channels && p.id != ACK_REMOTE_ID
    then Record(accepted, n, p.id, p.seqNum) else accepted
  }

  /** What ProcessIncoming has accepted after these packets. */
  function AcceptedAfter(packets: seq<Packet>, channels: set<RemoteId>, n: nat): map<RemoteId, seq<SeqNum>> {
    if packets == [] then map[]
    else RecordPacket(AcceptedAfter(packets[..|packets| - 1], channels, n), channels, n, packets[|packets| - 1])
  }

  /** The sequence numbers that reach the filter of one id. */
  function Arrivals(packets: seq<Packet>, channels: set<RemoteId>, id: RemoteId): seq<SeqNum> {
    if packets == [] then []
    else
      var p := packets[|packets| - 1];
      Arrivals(packets[..|packets| - 1], channels, id)
        + if p.marker == MARKER && p.id in channels && p.id == id then [p.seqNum] else []
  }

  /** Each id is filtered on its own: packets of other ids change nothing. */
  lemma {:induction false} AcceptedIsRun(packets: seq<Packet>, channels: set<RemoteId>, n: nat, id: RemoteId)
    requires id != ACK_REMOTE_ID
    ensures AcceptedOn(AcceptedAfter(packets, channels, n), id) == Run(Arrivals(packets, channels, id), n)
  {
    hide Accept;
    if packets != [] {
      var front, p := packets[..|packets| - 1], packets[|packets| - 1];
      AcceptedIsRun(front, channels, n, id);
      var a := Arrivals(front, channels, id);
      assert (a + [p.seqNum])[..|a + [p.seqNum]| - 1] == a;
      assert a + [] == a;
      assert Run(a + [p.seqNum], n) == Accept(Run(a, n), n, p.seqNum);
    }
  }

  lemma {:induction false} ArrivalsGrow(packets: seq<Packet>, channels: set<RemoteId>, id: RemoteId, k: nat)
    requires k <= |packets|
    ensures Arrivals(packets[..k], channels, id) <= Arrivals(packets, channels, id)
  {
    if k < |packets| {
      ArrivalsGrow(packets[..|packets| - 1], channels, id, k);
      assert packets[..|packets| - 1][..k] == packets[..k];
    } else {
      assert packets[..k] == packets;
    }
  }

  predicate Runs(packets: seq<Packet>, channels: set<RemoteId>, n: nat, k: nat)
    requires k < |packets|
  {
    Delivers(packets[k], channels, AcceptedOn(AcceptedAfter(packets[..k], channels, n), packets[k].id), n)
  }

  /** How many packets of an id run their handler from one position up to another. */
  function RunsOn(packets: seq<Packet>, channels: set<RemoteId>, n: nat, id: RemoteId, from: nat, end: nat): nat
    requires end <= |packets|
  {
    if end <= from then 0
    else RunsOn(packets, channels, n, id, from, end - 1)
         + if packets[end - 1].id == id && Runs(packets, channels, n, end - 1) then 1 else 0
  }

  lemma AcceptedStep(packets: seq<Packet>, channels: set<RemoteId>, n: nat, id: RemoteId, j: nat)
    requires id != ACK_REMOTE_ID && j < |packets|
    ensures |AcceptedOn(AcceptedAfter(packets[..j + 1], channels, n), id)|
         == |AcceptedOn(AcceptedAfter(packets[..j], channels, n), id)|
              + if packets[j].id == id && Runs(packets, channels, n, j) then 1 else 0
  {
    assert packets[..j + 1][..j] == packets[..j];
  }

  lemma {:induction false} RunsOnIs(packets: seq<Packet>, channels: set<RemoteId>, n: nat, id: RemoteId, from: nat,
                                    end: nat)
    requires id != ACK_REMOTE_ID && from <= end <= |packets|
    ensures RunsOn(packets, channels, n, id, from, end)
         == |AcceptedOn(AcceptedAfter(packets[..end], channels, n), id)|
              - |AcceptedOn(AcceptedAfter(packets[..from], channels, n), id)|
    decreases end
  {
    hide AcceptedAfter, AcceptedOn, Runs;
    if from < end {
      RunsOnIs(packets, channels, n, id, from, end - 1);
      AcceptedStep(packets, channels, n, id, end - 1);
    }
  }

  /** The packet is well formed and a handler is registered for its id. */
  predicate Addressed(p: Packet, channels: set<RemoteId>) {
    p.marker == MARKER && p.id in channels
  }

  /** The place of a packet among the arrivals of its id, and that both filters agree on it. */
  lemma Place(packets: seq<Packet>, channels: set<RemoteId>, n: nat, i: nat, k: nat)
    requires i <= k < |packets| && packets[i].id == packets[k].id != ACK_REMOTE_ID && Addressed(packets[i], channels)
    ensures var id := packets[k].id;
            var a, at := Arrivals(packets[..k + 1], channels, id), |Arrivals(packets[..i], channels, id)|;
            && at < |a| && a[at] == packets[i].seqNum && a[..at] == Arrivals(packets[..i], channels, id)
            && a[..at + 1] == Arrivals(packets[..i + 1], channels, id)
            && (Passes(a, n, at) <==> Runs(packets, channels, n, i))
  {
    hide DuplicateFilter.Run, Recent, Accept, AcceptedAfter, AcceptedOn;
    var id := packets[k].id;
    assert packets[..k + 1][..i + 1] == packets[..i + 1] && packets[..i + 1][..i] == packets[..i];
    ArrivalsGrow(packets[..k + 1], channels, id, i + 1);
    assert Arrivals(packets[..i + 1], channels, id) == Arrivals(packets[..i], channels, id) + [packets[i].seqNum];
    AcceptedIsRun(packets[..i], channels, n, id);
  }

  lemma Between(packets: seq<Packet>, channels: set<RemoteId>, n: nat, i: nat, k: nat)
    requires i < k < |packets| && packets[i].id == packets[k].id != ACK_REMOTE_ID
    requires Addressed(packets[i], channels) && Addressed(packets[k], channels)
    ensures var id := packets[k].id;
            var a := Arrivals(packets[..k + 1], channels, id);
            var ai, ak := |Arrivals(packets[..i], channels, id)|, |Arrivals(packets[..k], channels, id)|;
            ai < ak < |a| && PassedBetween(a, n, ai, ak) == RunsOn(packets, channels, n, id, i + 1, k)
  {
    hide DuplicateFilter.Run, AcceptedAfter, AcceptedOn, Passes, Runs, Arrivals;
    var id := packets[k].id;
    Place(packets, channels, n, i, k);
    Place(packets, channels, n, k, k);
    assert packets[..k][..i + 1] == packets[..i + 1];
    ArrivalsGrow(packets[..k], channels, id, i + 1);
    AcceptedIsRun(packets[..i + 1], channels, n, id);
    AcceptedIsRun(packets[..k], channels, n, id);
    RunsOnIs(packets, channels, n, id, i + 1, k);
  }

  /** The packet that is the arrival at this place. */
  lemma {:induction false} PacketOf(packets: seq<Packet>, channels: set<RemoteId>, id: RemoteId, at: nat)
    returns (i: nat)
    requires at < |Arrivals(packets, channels, id)|
    ensures i < |packets| && packets[i].id == id && Addressed(packets[i], channels)
    ensures |Arrivals(packets[..i], channels, id)| == at
  {
    var front := packets[..|packets| - 1];
    if at < |Arrivals(front, channels, id)| {
      i := PacketOf(front, channels, id, at);
      assert front[..i] == packets[..i];
    } else {
      i := |packets| - 1;
    }
  }

  /** An earlier copy of packet k ran its handler, and fewer than n others of the id since. */
  predicate RanNear(packets: seq<Packet>, channels: set<RemoteId>, n: nat, i: nat, k: nat)
    requires i < k < |packets|
  {
    && packets[i].id == packets[k].id && packets[i].seqNum == packets[k].seqNum && Runs(packets, channels, n, i)
    && RunsOn(packets, channels, n, packets[k].id, i + 1, k) < n
  }

  /** Over any arrivals at all (late, repeated, reordered or missing): a packet runs its handler if and only
      if it is well formed, a handler is registered, and it is no acknowledgement of which a copy ran near
      before. Nothing new is ever dropped. */
  lemma RunsIff(packets: seq<Packet>, channels: set<RemoteId>, n: nat, k: nat)
    requires k < |packets|
    ensures Runs(packets, channels, n, k)
       <==> && Addressed(packets[k], channels)
            && (packets[k].id == ACK_REMOTE_ID || !exists i: nat :: i < k && RanNear(packets, channels, n, i, k))
  {
    var id := packets[k].id;
    if Addressed(packets[k], channels) && id != ACK_REMOTE_ID {
      RunsIffNew(packets, channels, n, k);
    }
  }

  lemma RunsIffNew(packets: seq<Packet>, channels: set<RemoteId>, n: nat, k: nat)
    requires k < |packets| && Addressed(packets[k], channels) && packets[k].id != ACK_REMOTE_ID
    ensures Runs(packets, channels, n, k) <==> !exists i: nat :: i < k && RanNear(packets, channels, n, i, k)
  {
    var id := packets[k].id;
    var a, ak := Arrivals(packets[..k + 1], channels, id), |Arrivals(packets[..k], channels, id)|;
    Place(packets, channels, n, k, k);
    DroppedIff(a, n, ak);
    if !Passes(a, n, ak) {
      var ai: nat :| ai < ak && Passes(a, n, ai) && a[ai] == a[ak] && PassedBetween(a, n, ai, ak) < n;
      var i := EarlierPacket(packets, channels, n, k, ai);
      assert RanNear(packets, channels, n, i, k);
    }
    forall i: nat | i < k && RanNear(packets, channels, n, i, k)
      ensures !Passes(a, n, ak)
    {
      Place(packets, channels, n, i, k);
      Between(packets, channels, n, i, k);
    }
  }

  lemma EarlierPacket(packets: seq<Packet>, channels: set<RemoteId>, n: nat, k: nat, ai: nat) returns (i: nat)
    requires k < |packets| && Addressed(packets[k], channels) && packets[k].id != ACK_REMOTE_ID
    requires ai < |Arrivals(packets[..k], channels, packets[k].id)|
    requires |Arrivals(packets[..k], channels, packets[k].id)| < |Arrivals(packets[..k + 1], channels, packets[k].id)|
    requires var a := Arrivals(packets[..k + 1], channels, packets[k].id);
             var ak := |Arrivals(packets[..k], channels, packets[k].id)|;
             Passes(a, n, ai) && a[ai] == packets[k].seqNum && PassedBetween(a, n, ai, ak) < n
    ensures i < k && RanNear(packets, channels, n, i, k)
  {
    hide Run, Recent, Passes, Runs, Arrivals, AcceptedAfter, AcceptedOn;
    i := PacketOf(packets[..k], channels, packets[k].id, ai);
    assert packets[..k][..i] == packets[..i];
    Place(packets, channels, n, i, k);
    Between(packets, channels, n, i, k);
  }

  /** Two copies of one packet both run the handler only if n other packets of that id ran it in between. */
  lemma PacketAtMostOnce(packets: seq<Packet>, channels: set<RemoteId>, n: nat, i: nat, k: nat)
    requires i < k < |packets|
    requires packets[i].id == packets[k].id != ACK_REMOTE_ID && packets[i].seqNum == packets[k].seqNum
    requires Runs(packets, channels, n, i) && Runs(packets, channels, n, k)
    ensures RunsOn(packets, channels, n, packets[k].id, i + 1, k) >= n
  {
    RunsIff(packets, channels, n, k);
    assert !RanNear(packets, channels, n, i, k);
  }

  // ---------- Within the window ----------

  /** The packets of an id use these sequence numbers only. */
  ghost predicate Uses(packets: seq<Packet>, id: RemoteId, numbers: set<SeqNum>) {
    forall p | p in packets && p.id == id :: p.seqNum in numbers
  }

  lemma NotTwice(packets: seq<Packet>, channels: set<RemoteId>, n: nat, numbers: set<SeqNum>, i: nat, k: nat)
    requires i < k < |packets| && |numbers| <= n && Uses(packets, packets[k].id, numbers)
    requires packets[i].id == packets[k].id != ACK_REMOTE_ID && packets[i].seqNum == packets[k].seqNum
    ensures !(Runs(packets, channels, n, i) && Runs(packets, channels, n, k))
  {
    hide Accept;
    var id, s := packets[k].id, packets[k].seqNum;
    if Runs(packets, channels, n, i) && Runs(packets, channels, n, k) {
      var arrivals := Arrivals(packets[..k], channels, id);
      ArrivalsFrom(packets[..k], channels, id);
      assert packets[..k][i] == packets[i];
      AcceptedIsRun(packets[..k], channels, n, id);
      ExactlyOnceWithinWindow(arrivals, n, numbers);
      RunFrom(arrivals, n);
      DistinctWithin(Run(arrivals, n), numbers);
      assert false;
    }
  }

  lemma {:induction false} ArrivalsFrom(packets: seq<Packet>, channels: set<RemoteId>, id: RemoteId)
    ensures forall s | s in Arrivals(packets, channels, id) :: exists p :: p in packets && p.id == id && p.seqNum == s
    ensures forall p | p in packets && Addressed(p, channels) && p.id == id ::
              p.seqNum in Arrivals(packets, channels, id)
  {
    if packets != [] {
      var front, last := packets[..|packets| - 1], packets[|packets| - 1];
      ArrivalsFrom(front, channels, id);
      assert packets == front + [last];
      assert last in packets;
    }
  }

  /** With at most n sequence numbers in use on an id, every number that arrives there runs its handler
      exactly once, however often and in whatever order its copies arrive. */
  lemma EachRunsOnce(packets: seq<Packet>, channels: set<RemoteId>, n: nat, numbers: set<SeqNum>, k: nat)
    returns (j: nat)
    requires k < |packets| && Addressed(packets[k], channels) && packets[k].id != ACK_REMOTE_ID
    requires |numbers| <= n && Uses(packets, packets[k].id, numbers)
    ensures j <= k && packets[j].id == packets[k].id && packets[j].seqNum == packets[k].seqNum
    ensures Runs(packets, channels, n, j)
    ensures forall i | 0 <= i < |packets| && i != j
                       && packets[i].id == packets[k].id && packets[i].seqNum == packets[k].seqNum ::
              !Runs(packets, channels, n, i)
  {
    j := k;
    if !Runs(packets, channels, n, k) {
      RunsIff(packets, channels, n, k);
      j :| j < k && RanNear(packets, channels, n, j, k);
    }
    forall i | 0 <= i < |packets| && i != j && packets[i].id == packets[k].id && packets[i].seqNum == packets[k].seqNum
      ensures !Runs(packets, channels, n, i)
    {
      if i < j {
        NotTwice(packets, channels, n, numbers, i, j);
      } else {
        NotTwice(packets, channels, n, numbers, j, i);
      }
    }
  }
}
