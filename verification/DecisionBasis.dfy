/** The canonical evidence a dispatch is bound to, and how far it was current when the dispatch was saved. */
module DecisionBasis {
  import opened Outcomes
  import opened LifecycleEvidence
  import opened LifecycleReducer
  import opened LifecycleJournal
  import opened LifecycleRecovery
  import opened CanonicalClassification
  import RefillDispatch

  /** The evidence store and the recovered lifecycle files, as read under the evidence lock. */
  datatype Evidence = Evidence(store: Store, disk: Disk, required: bool)

  /** A versioned basis names the dispatch it was bound to. */
  function Bind(basis: Option<RefillDispatch.Basis>, p: RefillDispatch.Prepared): Option<RefillDispatch.Basis> {
    match basis
    case Some(BasisV1(prior, snapshot, evidence, action, _)) =>
      Some(RefillDispatch.BasisV1(prior, snapshot, evidence, action, Some(RefillDispatch.Action(p.generation, p.attempt))))
    case _ => basis
  }

  function GenerationOf(id: Identity): Option<string> {
    if id.generation == "" then None else Some(id.generation)
  }

  datatype BasisFault = SchemaMismatch | ActionMismatch | CanonicalUnfresh | CanonicalMissing | CanonicalMismatch

  /** Why a prepared dispatch may not proceed on its basis, if it may not. */
  function BasisError(e: Evidence, p: RefillDispatch.Prepared): Option<BasisFault> {
    match p.basis
    case None => None
    case Some(Unversioned) => Some(SchemaMismatch)
    case Some(BasisV1(prior, snapshot, evidence, action, newAction)) =>
      if newAction != Some(RefillDispatch.Action(p.generation, p.attempt)) then Some(ActionMismatch)
      else
        match Classify(e.store, e.disk, prior.job, GenerationOf(prior), e.required)
        case Err(_) => Some(CanonicalUnfresh)
        case Ok(NoVerdict) => Some(CanonicalMissing)
        case Ok(MissingSnapshot) => Some(CanonicalMismatch)
        case Ok(Classified(category, current)) =>
          if category.ItemTerminal? && current == snapshot && current.evidence == evidence && current.action == action
          then None else Some(CanonicalMismatch)
  }

  /**
   A dispatch may proceed on a basis only if the basis names this dispatch and, at that moment, the heads of
   the prior attempt are the evidence it names and were reduced to a terminal item. Reducing them now gives
   that verdict exactly if what it rests on, outside those heads too, still holds.
   */
  lemma BasisHolds(e: Evidence, p: RefillDispatch.Prepared)
    requires Sane(e.disk) && Settled(e.disk) && AllReduced(e.disk)
    ensures
      BasisError(e, p).None? && p.basis.Some? ==>
        && p.basis.value.BasisV1?
        && var b := p.basis.value;
        && b.newAction == Some(RefillDispatch.Action(p.generation, p.attempt))
        && HeadsOf(e.store, b.snapshot.identity) == b.evidence
        && b.snapshot.itemTerminal && b.action == ExcludeAndSelectNext
        && b.snapshot.identity.job == b.prior.job
        && (exists proof, drafted :: ReduceHeads(b.snapshot.identity, HeadsOf(e.store, b.snapshot.identity), proof, drafted) == b.snapshot)
        && (Sound(e.store) ==> VerdictStands(e.store, b.snapshot))
  {
    hide Classify, Sane, Settled, AllReduced, ReduceHeads, HeadsOf, Sound, VerdictStands;
    if BasisError(e, p).None? && p.basis.Some? {
      var b := p.basis.value;
      VerdictIsFresh(e.store, e.disk, b.prior.job, GenerationOf(b.prior), e.required);
      TerminalVerdictExcludes(e, b.prior.job, GenerationOf(b.prior));
      if Sound(e.store) {
        BasisStands(e, b.prior.job, GenerationOf(b.prior), b.snapshot);
      }
    }
  }

  /** Whether or not there is a completion report, today's reduction is this verdict exactly if the verdict still rests on something. */
  ghost predicate VerdictStands(s: Store, snapshot: Snapshot) {
    forall proof: bool :: SameVerdict(Reduce(s, snapshot.identity, proof), snapshot) <==> StillRests(s, snapshot.identity, proof)
  }

  lemma BasisStands(e: Evidence, job: string, generation: Option<string>, snapshot: Snapshot)
    requires Sound(e.store) && Sane(e.disk) && Settled(e.disk) && AllReduced(e.disk)
    requires Classify(e.store, e.disk, job, generation, e.required) == Ok(Classified(ItemTerminal, snapshot))
    ensures VerdictStands(e.store, snapshot)
  {
    hide Sound, Sane, Settled, AllReduced, Classify, Reduce, StillRests, SameVerdict;
    forall proof: bool ensures SameVerdict(Reduce(e.store, snapshot.identity, proof), snapshot) <==> StillRests(e.store, snapshot.identity, proof) {
      TerminalVerdictAgreesExactly(e.store, e.disk, job, generation, e.required, proof);
    }
  }

  lemma TerminalVerdictExcludes(e: Evidence, job: string, generation: Option<string>)
    ensures
      match Classify(e.store, e.disk, job, generation, e.required)
      case Ok(Classified(ItemTerminal, snapshot)) => snapshot.action == ExcludeAndSelectNext
      case _ => true
  {}

  /** A head of the prior attempt that moved since the basis was taken stops the dispatch. */
  lemma MovedHeadsStopDispatch(e: Evidence, p: RefillDispatch.Prepared)
    requires Sane(e.disk) && Settled(e.disk) && AllReduced(e.disk)
    requires p.basis.Some? && p.basis.value.BasisV1?
    requires HeadsOf(e.store, p.basis.value.snapshot.identity) != p.basis.value.evidence
    ensures BasisError(e, p).Some?
  {
    BasisHolds(e, p);
  }

  /** The converse: a basis bound to this dispatch passes as long as the settled snapshot it names is of the heads that exist. */
  lemma UnmovedHeadsPass(e: Evidence, p: RefillDispatch.Prepared, id: Identity)
    requires Settled(e.disk) && id in e.disk.attempts && id.generation != "" && Matching(e.disk, id.job, Some(id.generation)) == {id}
    requires p.basis.Some? && p.basis.value.BasisV1?
    requires
      var b := p.basis.value;
      && b.newAction == Some(RefillDispatch.Action(p.generation, p.attempt)) && b.prior == id && b.snapshot == e.disk.attempts[id]
      && b.snapshot.identity == id && b.evidence == b.snapshot.evidence == HeadsOf(e.store, id)
      && b.snapshot.itemTerminal && b.action == b.snapshot.action == ExcludeAndSelectNext
    ensures BasisError(e, p).None?
  {
    hide Settled, HeadsOf, Matching;
    SettledIsReported(e.store, e.disk, id, e.required);
    hide Classify;
  }
}
