/** Agreement of the gate's and the source's patch evidence on the paths a candidate changes. */
module PatchEvidence {
  import opened Outcomes
  import opened Text

  /** A patch the source reports; `intact` when its file lies in the evidence directory and has the stated hash. */
  datatype Patch = Patch(task: string, complete: bool, file: string, sha: string, paths: seq<string>, intact: bool)

  /** What the gate recorded about a task's patch. */
  datatype GatePatch = GatePatch(file: string, sha: string, paths: seq<string>)

  datatype Fault = NoPatches | Incomplete | GateMissing | GateMismatch | Overlap | PatchBroken | PathsDisagree

  function PathSet(paths: seq<string>): set<string> { set i | 0 <= i < |paths| :: Slashed(paths[i]) }

  /** Why a patch is refused, given the paths of the patches before it, if it is. */
  function PatchFault(p: Patch, gate: map<string, GatePatch>, union: set<string>): Option<Fault> {
    if !p.complete then Some(Incomplete)
    else if p.task !in gate then Some(GateMissing)
    else if gate[p.task] != GatePatch(p.file, p.sha, p.paths) then Some(GateMismatch)
    else if union * PathSet(p.paths) != {} then Some(Overlap)
    else if !p.intact then Some(PatchBroken)
    else None
  }

  /** No path twice. */
  predicate Distinct(paths: seq<string>) { forall i, j :: 0 <= i < j < |paths| ==> Slashed(paths[i]) != Slashed(paths[j]) }

  /** The paths all patches change together, which must be the gate's list without repetition. */
  method AgreedPaths(patches: seq<Patch>, gate: map<string, GatePatch>, gatePaths: seq<string>) returns (r: Result<set<string>, Fault>)
    ensures r.Ok? <==> Agrees(patches, gate, gatePaths)
    ensures r.Ok? ==> r.value == PathSet(gatePaths)
  {
    if patches == [] || gate == map[] {
      return Err(NoPatches);
    }
    var union: set<string> := {};
    for i := 0 to |patches|
      invariant Covers(union, patches, i) && Prefix(patches, gate, i)
    {
      hide PathSet, Distinct;
      var fault := PatchFault(patches[i], gate, union);
      if fault.Some? {
        FaultDisagrees(patches, gate, gatePaths, i, union);
        return Err(fault.value);
      }
      PrefixGrows(patches, gate, i, union);
      union := union + PathSet(patches[i].paths);
    }
    hide PathSet, Distinct;
    if union != PathSet(gatePaths) || !Distinct(gatePaths) {
      return Err(PathsDisagree);
    }
    r := Ok(union);
  }

  /** The set holds exactly the paths of the first patches. */
  ghost predicate Covers(union: set<string>, patches: seq<Patch>, n: nat)
    requires n <= |patches|
  {
    forall path :: path in union <==> exists j :: 0 <= j < n && path in PathSet(patches[j].paths)
  }

  /** The first patches are sound and touch different paths. */
  predicate Prefix(patches: seq<Patch>, gate: map<string, GatePatch>, n: nat)
    requires n <= |patches|
  {
    && (forall j :: 0 <= j < n ==> Sound(patches[j], gate))
    && (forall j, k :: 0 <= j < k < n ==> PathSet(patches[j].paths) !! PathSet(patches[k].paths))
  }

  lemma FaultDisagrees(patches: seq<Patch>, gate: map<string, GatePatch>, gatePaths: seq<string>, i: nat, union: set<string>)
    requires i < |patches| && Covers(union, patches, i) && PatchFault(patches[i], gate, union).Some?
    ensures !Agrees(patches, gate, gatePaths)
  {
    hide PathSet, Distinct;
    if PatchFault(patches[i], gate, union) == Some(Overlap) {
      var path :| path in union && path in PathSet(patches[i].paths);
      var j :| 0 <= j < i && path in PathSet(patches[j].paths);
      assert !(PathSet(patches[j].paths) !! PathSet(patches[i].paths));
    }
  }

  lemma PrefixGrows(patches: seq<Patch>, gate: map<string, GatePatch>, i: nat, union: set<string>)
    requires i < |patches| && Covers(union, patches, i) && Prefix(patches, gate, i) && PatchFault(patches[i], gate, union).None?
    ensures Prefix(patches, gate, i + 1) && Covers(union + PathSet(patches[i].paths), patches, i + 1)
  {
    hide PathSet;
    forall j | 0 <= j < i ensures PathSet(patches[j].paths) !! PathSet(patches[i].paths) {
      Apart(union, PathSet(patches[j].paths), PathSet(patches[i].paths));
    }
  }

  lemma Apart(union: set<string>, part: set<string>, other: set<string>)
    requires union * other == {} && part <= union
    ensures part !! other
  {
    forall path | path in part ensures path !in other {
      assert path !in union * other;
    }
  }

  predicate Sound(p: Patch, gate: map<string, GatePatch>) {
    p.complete && p.intact && p.task in gate && gate[p.task] == GatePatch(p.file, p.sha, p.paths)
  }

  /**
   Evidence agrees when every patch is whole and known to the gate as it is, no two patches touch the
   same path, and the gate lists each touched path exactly once.
   */
  ghost predicate Agrees(patches: seq<Patch>, gate: map<string, GatePatch>, gatePaths: seq<string>) {
    && patches != [] && gate != map[] && Distinct(gatePaths)
    && (forall i :: 0 <= i < |patches| ==> Sound(patches[i], gate))
    && (forall i, j :: 0 <= i < j < |patches| ==> PathSet(patches[i].paths) !! PathSet(patches[j].paths))
    && (forall path :: path in PathSet(gatePaths) <==> exists i :: 0 <= i < |patches| && path in PathSet(patches[i].paths))
  }

  predicate OnlyIn(patches: seq<Patch>, i: nat, path: string)
    requires i < |patches|
  {
    path in PathSet(patches[i].paths) && forall j :: 0 <= j < |patches| && j != i ==> path !in PathSet(patches[j].paths)
  }

  /** Then every path the gate lists belongs to exactly one patch, and no patch changes any other path. */
  lemma AgreedPathsArePartitioned(patches: seq<Patch>, gate: map<string, GatePatch>, gatePaths: seq<string>, k: int)
    requires Agrees(patches, gate, gatePaths) && 0 <= k < |gatePaths|
    ensures exists i :: 0 <= i < |patches| && OnlyIn(patches, i, Slashed(gatePaths[k]))
  {
    var path := Slashed(gatePaths[k]);
    assert path in PathSet(gatePaths);
    var i :| 0 <= i < |patches| && path in PathSet(patches[i].paths);
    forall j | 0 <= j < |patches| && j != i ensures path !in PathSet(patches[j].paths) {
      if j < i {
        assert PathSet(patches[j].paths) !! PathSet(patches[i].paths);
      } else {
        assert PathSet(patches[i].paths) !! PathSet(patches[j].paths);
      }
    }
    assert OnlyIn(patches, i, path);
  }
}
