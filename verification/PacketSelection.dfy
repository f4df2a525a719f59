/** Choosing the next approved job packet from the catalog. */
module PacketSelection {
  import opened Outcomes
  import opened Text

  /** What a packet commits a dispatch to; every part of it goes into the job id. */
  datatype Work = Work(pipeline: string, item: string, slice: string, commit: string)

  datatype SelectionFault = DuplicateWorkItem

  datatype Packet = Packet(work: Work, order: int, eligible: bool)

  function Key(p: Packet): string { p.work.pipeline + ":" + p.work.item }

  /** The order packets are ranked in: catalog order, then pipeline, then work item. */
  predicate Outranks(a: Packet, b: Packet) {
    || a.order < b.order
    || (a.order == b.order && Before(a.work.pipeline, b.work.pipeline))
    || (a.order == b.order && a.work.pipeline == b.work.pipeline && Before(a.work.item, b.work.item))
  }

  lemma RankingIsTotal(a: Packet, b: Packet)
    ensures Outranks(a, b) || Outranks(b, a) || Key(a) == Key(b)
    ensures !(Outranks(a, b) && Outranks(b, a)) && !Outranks(a, a)
  {
    BeforeIsTotal(a.work.pipeline, b.work.pipeline);
    BeforeIsTotal(a.work.item, b.work.item);
    BeforeIsIrreflexive(a.work.pipeline);
    BeforeIsIrreflexive(a.work.item);
  }

  lemma RankingIsTransitive(a: Packet, b: Packet, c: Packet)
    requires Outranks(a, b) && Outranks(b, c)
    ensures Outranks(a, c)
  {
    if Before(a.work.pipeline, b.work.pipeline) && Before(b.work.pipeline, c.work.pipeline) {
      BeforeIsTransitive(a.work.pipeline, b.work.pipeline, c.work.pipeline);
    }
    if Before(a.work.item, b.work.item) && Before(b.work.item, c.work.item) {
      BeforeIsTransitive(a.work.item, b.work.item, c.work.item);
    }
  }

  /** Exclusions are stripped, and blank ones mean nothing. */
  predicate Excluded(p: Packet, exclusions: seq<string>) {
    p.work.item != "" && exists i :: 0 <= i < |exclusions| && Strip(exclusions[i]) == p.work.item
  }

  predicate Candidate(p: Packet, exclusions: seq<string>) { p.eligible && !Excluded(p, exclusions) }

  predicate Ambiguous(packets: seq<Packet>) {
    exists i, j :: 0 <= i < j < |packets| && packets[i].eligible && packets[j].eligible && Key(packets[i]) == Key(packets[j])
  }

  /** The first packet of the ranking, taking the packets from the left. */
  function Best(packets: seq<Packet>, exclusions: seq<string>): Option<Packet> {
    if packets == [] then None
    else
      var last := packets[|packets| - 1];
      var best := Best(packets[..|packets| - 1], exclusions);
      if Candidate(last, exclusions) && (best.None? || Outranks(last, best.value)) then Some(last) else best
  }

  function Select(packets: seq<Packet>, exclusions: seq<string>): Result<Option<Packet>, SelectionFault> {
    if Ambiguous(packets) then Err(DuplicateWorkItem) else Ok(Best(packets, exclusions))
  }

  method SelectNextPacket(packets: seq<Packet>, exclusions: seq<string>) returns (r: Result<Option<Packet>, SelectionFault>)
    ensures r == Select(packets, exclusions)
  {
    var seen: set<string> := {};
    for i := 0 to |packets|
      invariant seen == set j | 0 <= j < i && packets[j].eligible :: Key(packets[j])
      invariant forall j, k :: 0 <= j < k < i && packets[j].eligible && packets[k].eligible ==> Key(packets[j]) != Key(packets[k])
    {
      if packets[i].eligible {
        if Key(packets[i]) in seen {
          return Err(DuplicateWorkItem);
        }
        seen := seen + {Key(packets[i])};
      }
    }
    var best: Option<Packet> := None;
    for i := 0 to |packets|
      invariant best == Best(packets[..i], exclusions)
    {
      assert packets[..i + 1][..i] == packets[..i];
      if Candidate(packets[i], exclusions) && (best.None? || Outranks(packets[i], best.value)) {
        best := Some(packets[i]);
      }
    }
    assert packets[..|packets|] == packets;
    r := Ok(best);
  }

  lemma {:induction false} BestIsLeast(packets: seq<Packet>, exclusions: seq<string>)
    ensures
      match Best(packets, exclusions)
      case None => forall p :: p in packets ==> !Candidate(p, exclusions)
      case Some(b) => b in packets && Candidate(b, exclusions) && forall p :: p in packets && Candidate(p, exclusions) ==> !Outranks(p, b)
  {
    if packets != [] {
      var front, last := packets[..|packets| - 1], packets[|packets| - 1];
      BestIsLeast(front, exclusions);
      var best := Best(packets, exclusions);
      forall p | p in packets && Candidate(p, exclusions) ensures best.Some? && !Outranks(p, best.value) {
        assert p in front || p == last;
        RankingIsTotal(p, best.value);
        if best == Some(last) && p in front {
          var b := Best(front, exclusions).value;
          RankingIsTotal(p, b);
          if Outranks(p, last) {
            RankingIsTransitive(p, last, b);
          }
        }
      }
    }
  }

  /**
   The packet selected is the one candidate that outranks every other packet not named like it:
   selection fails only on a duplicate, and finds nothing only when nothing may be selected.
   */
  lemma SelectionIsLeast(packets: seq<Packet>, exclusions: seq<string>)
    ensures
      match Select(packets, exclusions)
      case Err(_) => Ambiguous(packets)
      case Ok(None) => forall p :: p in packets ==> !p.eligible || Excluded(p, exclusions)
      case Ok(Some(b)) =>
        && b in packets && b.eligible && !Excluded(b, exclusions)
        && forall p :: p in packets && Candidate(p, exclusions) && p != b ==> Outranks(b, p)
  {
    BestIsLeast(packets, exclusions);
    if !Ambiguous(packets) && Best(packets, exclusions).Some? {
      var b := Best(packets, exclusions).value;
      forall p | p in packets && Candidate(p, exclusions) && p != b ensures Outranks(b, p) {
        var i :| 0 <= i < |packets| && packets[i] == p;
        var j :| 0 <= j < |packets| && packets[j] == b;
        assert Key(p) != Key(b) by {
          assert i < j || j < i;
        }
        RankingIsTotal(p, b);
      }
    }
  }

  /** The order packets are listed in never matters: only which packets there are. */
  lemma SelectionIgnoresListing(a: seq<Packet>, b: seq<Packet>, exclusions: seq<string>)
    requires !Ambiguous(a) && !Ambiguous(b) && forall p :: p in a <==> p in b
    ensures Select(a, exclusions) == Select(b, exclusions)
  {
    SelectionIsLeast(a, exclusions);
    SelectionIsLeast(b, exclusions);
    var x, y := Best(a, exclusions), Best(b, exclusions);
    if x.Some? && y.Some? && x != y {
      assert Outranks(x.value, y.value) && Outranks(y.value, x.value);
      RankingIsTotal(x.value, y.value);
    }
  }
}
