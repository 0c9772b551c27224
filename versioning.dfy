/**
 * The configuration schema migration engine (lib/src/app_config/versioning.rs).
 *
 * `UpgradeData` is the imperative engine: it validates both version strings,
 * refuses downgrades, returns the data unchanged for equal version strings,
 * refuses targets no upgrader produces, and then makes one forward pass over
 * the registry, threading a mutable (current version, current data) pair.
 * `UpgradeOutcome` is its functional specification, with typed errors; the
 * pass itself is the left fold `Run` of `Step` over the registry.
 *
 * The lemmas characterise every outcome without reference to the fold:
 * `Taken` describes, entry by entry, which upgraders the pass applies, and a
 * success is exactly a `Route` (the composition of the steps taken, the last
 * one producing the target), a breaking change exactly a pass `BlockedAt` an
 * applicable breaking step, and a missing route exactly a pass that reaches
 * the end of the registry.
 */
module Versioning {
  import opened Wrappers
  import opened SemVer
  import opened Traits

  /** The process-wide default registry, empty until migrations exist. */
  const Upgraders: seq<Upgrader> := []

  datatype UpgradeError =
    | InvalidFromVersion
    | InvalidToVersion
    | Downgrade(from: string, to: string)
    | UnsupportedTarget(target: string)
    | BreakingChange(from: string, to: string, message: string)
    | NoRoute(target: string)

  /** The error text the engine returns for each kind of failure. */
  function Message(e: UpgradeError): string {
    match e
    case InvalidFromVersion => "Invalid from_version"
    case InvalidToVersion => "Invalid to_version"
    case Downgrade(from, to) =>
      "Cannot upgrade from version " + from + " to " + to + ": "
      + "from_version must be less than or equal to to_version"
    case UnsupportedTarget(target) => "Target version " + target + " is not supported"
    case BreakingChange(from, to, message) => "Cannot upgrade from version " + from + " to " + to + ": " + message
    case NoRoute(target) =>
      "Could not upgrade to target version " + target + ": no applicable upgrade route found"
  }

  function Render(r: Result<string, UpgradeError>): Result<string, string> {
    match r
    case Ok(data) => Ok(data)
    case Err(e) => Err(Message(e))
  }

  /** The override when one is given, the default registry otherwise. */
  function SelectUpgraders(upgradersOverride: Option<seq<Upgrader>>): seq<Upgrader> {
    match upgradersOverride
    case Some(upgraders) => upgraders
    case None => Upgraders
  }

  /** Some registered upgrader produces `target` (compared as strings). */
  predicate Supports(upgraders: seq<Upgrader>, target: string) {
    exists i :: 0 <= i < |upgraders| && upgraders[i].version == target
  }

  // ---------------------------------------------------------------------
  // The forward pass
  // ---------------------------------------------------------------------

  /** The state of the pass: still going, stopped at the target, or aborted. */
  datatype Pass =
    | Running(version: string, data: string)
    | Reached(data: string)
    | Aborted(error: UpgradeError)

  /**
   * Visiting one registry entry. A stopped pass stays as it is; a running
   * pass moves only to the entry's version, and never to the target while
   * still running; it aborts only with a breaking change and stops only on
   * producing the target.
   */
  function Step(p: Pass, u: Upgrader, target: string): (r: Pass)
    ensures !p.Running? ==> r == p
    ensures r.Running? ==> p.Running? && (r == p || (r.version == u.version && r.version != target))
    ensures r.Aborted? ==> p.Aborted? || r.error.BreakingChange?
    ensures r.Reached? ==> p.Reached? || u.version == target
  {
    match p
    case Running(version, data) =>
      if !u.canUpgrade(version) then p
      else if u.breakingChangeMessage.Some? then
        Aborted(BreakingChange(version, u.version, u.breakingChangeMessage.value))
      else if u.version == target then Reached(u.upgrade(data))
      else Running(u.version, u.upgrade(data))
    case Reached(_) => p
    case Aborted(_) => p
  }

  /** Visiting the entries of `upgraders` in order. A pass that has stopped is never resumed. */
  function Run(upgraders: seq<Upgrader>, start: Pass, target: string): (r: Pass)
    ensures !start.Running? ==> r == start
    ensures r.Running? ==> start.Running?
    decreases |upgraders|
  {
    if upgraders == [] then start
    else Step(Run(upgraders[..|upgraders| - 1], start, target), upgraders[|upgraders| - 1], target)
  }

  /** After the pass: the current version must be the target. */
  function Finish(p: Pass, target: string): (r: Result<string, UpgradeError>)
    ensures r.Ok? <==> p.Reached? || (p.Running? && p.version == target)
    ensures r.Ok? ==> r.value == p.data
    ensures r.Err? && !p.Aborted? ==> r.error == NoRoute(target)
  {
    match p
    case Running(version, data) => if version == target then Ok(data) else Err(NoRoute(target))
    case Reached(data) => Ok(data)
    case Aborted(e) => Err(e)
  }

  /** What upgrading `data` from `fromVersion` to `toVersion` with `upgraders` yields. */
  function UpgradeOutcome(fromVersion: string, toVersion: string, data: string, upgraders: seq<Upgrader>)
    : (r: Result<string, UpgradeError>)
    ensures r.Ok? ==> && Parse(fromVersion).Some? && Parse(toVersion).Some?
                      && Compare(Parse(fromVersion).value, Parse(toVersion).value) != Greater
    ensures r.Ok? && fromVersion == toVersion ==> r.value == data
    ensures r.Ok? && fromVersion != toVersion ==> Supports(upgraders, toVersion)
  {
    var from := Parse(fromVersion);
    var to := Parse(toVersion);
    if from.None? then Err(InvalidFromVersion)
    else if to.None? then Err(InvalidToVersion)
    else if Compare(from.value, to.value) == Greater then Err(Downgrade(fromVersion, toVersion))
    else if fromVersion == toVersion then Ok(data)
    else if !Supports(upgraders, toVersion) then Err(UnsupportedTarget(toVersion))
    else Finish(Run(upgraders, Running(fromVersion, data), toVersion), toVersion)
  }

  // ---------------------------------------------------------------------
  // The engine
  // ---------------------------------------------------------------------

  method UpgradeData(fromVersion: string, toVersion: string, data: string, upgradersOverride: Option<seq<Upgrader>>)
    returns (r: Result<string, string>)
    ensures r == Render(UpgradeOutcome(fromVersion, toVersion, data, SelectUpgraders(upgradersOverride)))
  {
    var upgraders := match upgradersOverride
      case Some(override) => override
      case None => Upgraders;
    assert upgraders == SelectUpgraders(upgradersOverride);
    var fromSv := Parse(fromVersion);
    if fromSv.None? {
      return Err(Message(InvalidFromVersion));
    }
    var toSv := Parse(toVersion);
    if toSv.None? {
      return Err(Message(InvalidToVersion));
    }
    if Compare(fromSv.value, toSv.value) == Greater {
      return Err(Message(Downgrade(fromVersion, toVersion)));
    }
    if fromVersion == toVersion {
      return Ok(data);
    }
    if !Supports(upgraders, toVersion) {
      return Err(Message(UnsupportedTarget(toVersion)));
    }
    PassOutcome(fromVersion, toVersion, data, upgraders);
    r := ForwardPass(upgraders, fromVersion, toVersion, data);
  }

  /** The forward pass of the engine: the upgraders in order, until the target is produced. */
  method ForwardPass(upgraders: seq<Upgrader>, fromVersion: string, toVersion: string, data: string)
    returns (r: Result<string, string>)
    ensures r == Render(Finish(Run(upgraders, Running(fromVersion, data), toVersion), toVersion))
  {
    var currentData := data;
    var currentVersion := fromVersion;
    ghost var start := Running(fromVersion, data);
    assert upgraders[..|upgraders|] == upgraders;
    for i := 0 to |upgraders|
      invariant Run(upgraders[..i], start, toVersion) == Running(currentVersion, currentData)
    {
      var upgrader := upgraders[i];
      RunExtend(upgraders, start, toVersion, i);
      if upgrader.canUpgrade(currentVersion) {
        if upgrader.breakingChangeMessage.Some? {
          RunTerminal(upgraders, start, toVersion, i + 1, |upgraders|);
          return Err(Message(BreakingChange(currentVersion, upgrader.version, upgrader.breakingChangeMessage.value)));
        }
        currentVersion := upgrader.version;
        currentData := upgrader.upgrade(currentData);
        if currentVersion == toVersion {
          RunTerminal(upgraders, start, toVersion, i + 1, |upgraders|);
          break;
        }
      }
    }
    if currentVersion != toVersion {
      return Err(Message(NoRoute(toVersion)));
    }
    return Ok(currentData);
  }

  // ---------------------------------------------------------------------
  // Facts about the fold
  // ---------------------------------------------------------------------

  /** One more entry of the registry is one more step of the fold. */
  lemma RunExtend(upgraders: seq<Upgrader>, start: Pass, target: string, i: nat)
    requires i < |upgraders|
    ensures Run(upgraders[..i + 1], start, target) == Step(Run(upgraders[..i], start, target), upgraders[i], target)
  {
    assert upgraders[..i + 1][..i] == upgraders[..i];
  }

  /** Once the pass has stopped, the remaining entries change nothing. */
  lemma {:induction false} RunTerminal(upgraders: seq<Upgrader>, start: Pass, target: string, n: nat, m: nat)
    requires n <= m <= |upgraders|
    requires !Run(upgraders[..n], start, target).Running?
    ensures Run(upgraders[..m], start, target) == Run(upgraders[..n], start, target)
    decreases m
  {
    if m > n {
      RunTerminal(upgraders, start, target, n, m - 1);
      assert upgraders[..m][..m - 1] == upgraders[..m - 1];
    }
  }

  /** A pass that stops does so at one entry, and its state then is final. */
  lemma {:induction false} FirstStop(upgraders: seq<Upgrader>, start: Pass, target: string, m: nat) returns (n: nat)
    requires start.Running? && m <= |upgraders|
    requires !Run(upgraders[..m], start, target).Running?
    ensures n < m
    ensures Run(upgraders[..n], start, target).Running?
    ensures Run(upgraders[..n + 1], start, target) == Run(upgraders[..m], start, target)
    decreases m
  {
    assert upgraders[..0] == [];
    assert upgraders[..m][..m - 1] == upgraders[..m - 1];
    if Run(upgraders[..m - 1], start, target).Running? {
      n := m - 1;
    } else {
      n := FirstStop(upgraders, start, target, m - 1);
    }
  }

  /** The pass only ever aborts with a breaking change. */
  lemma {:induction false} RunAbortsOnBreaking(upgraders: seq<Upgrader>, from: string, data: string, target: string)
    requires Run(upgraders, Running(from, data), target).Aborted?
    ensures Run(upgraders, Running(from, data), target).error.BreakingChange?
    decreases |upgraders|
  {
    var prefix := upgraders[..|upgraders| - 1];
    if upgraders != [] && Run(prefix, Running(from, data), target).Aborted? {
      RunAbortsOnBreaking(prefix, from, data, target);
    }
  }

  /** While the pass runs, the current version is never the target, unless it started there. */
  lemma {:induction false} RunningOffTarget(upgraders: seq<Upgrader>, from: string, data: string, target: string)
    requires from != target
    requires Run(upgraders, Running(from, data), target).Running?
    ensures Run(upgraders, Running(from, data), target).version != target
    decreases |upgraders|
  {
    if upgraders != [] {
      RunningOffTarget(upgraders[..|upgraders| - 1], from, data, target);
    }
  }

  // ---------------------------------------------------------------------
  // Which steps the pass takes
  // ---------------------------------------------------------------------

  /** Strictly increasing positions below `n`. */
  ghost predicate Increasing(idx: seq<nat>, n: nat) {
    && (forall k :: 0 <= k < |idx| ==> idx[k] < n)
    && (forall k, l :: 0 <= k < l < |idx| ==> idx[k] < idx[l])
  }

  /** The version current after applying the first `k` entries at `idx`, starting at `from`. */
  function VersionAt(upgraders: seq<Upgrader>, from: string, idx: seq<nat>, k: nat): string
    requires k <= |idx|
    requires forall l :: 0 <= l < |idx| ==> idx[l] < |upgraders|
  {
    if k == 0 then from else upgraders[idx[k - 1]].version
  }

  /** The version current after applying all the entries at `idx`, starting at `from`. */
  function VersionAfter(upgraders: seq<Upgrader>, from: string, idx: seq<nat>): string
    requires forall k :: 0 <= k < |idx| ==> idx[k] < |upgraders|
  {
    VersionAt(upgraders, from, idx, |idx|)
  }

  /** `data` transformed by the entries at `idx`, left to right. */
  function Compose(upgraders: seq<Upgrader>, idx: seq<nat>, data: string): string
    requires forall k :: 0 <= k < |idx| ==> idx[k] < |upgraders|
    decreases |idx|
  {
    if idx == [] then data
    else upgraders[idx[|idx| - 1]].upgrade(Compose(upgraders, idx[..|idx| - 1], data))
  }

  /**
   * Visiting the first `n` entries, starting at `from`, applies exactly the
   * entries at `idx`, in order, and neither aborts nor reaches `target`:
   * every applied entry accepts the version current before it, is not
   * breaking and does not produce the target; every other entry does not
   * accept the version current when it is visited.
   */
  ghost predicate Taken(upgraders: seq<Upgrader>, from: string, target: string, idx: seq<nat>, n: nat) {
    && n <= |upgraders|
    && Increasing(idx, n)
    && Applied(upgraders, from, target, idx)
    && Skipped(upgraders, from, idx, n)
  }

  /** Every entry at `idx` accepts the version current before it, is not breaking and does not produce `target`. */
  ghost predicate Applied(upgraders: seq<Upgrader>, from: string, target: string, idx: seq<nat>)
    requires forall k :: 0 <= k < |idx| ==> idx[k] < |upgraders|
  {
    forall k {:trigger VersionAt(upgraders, from, idx, k)} :: 0 <= k < |idx| ==>
      && upgraders[idx[k]].canUpgrade(VersionAt(upgraders, from, idx, k))
      && upgraders[idx[k]].breakingChangeMessage.None?
      && upgraders[idx[k]].version != target
  }

  /** Every entry below `n` that lies between the applied entries `idx[k-1]` and `idx[k]` rejects the version of the first `k` of them. */
  ghost predicate Skipped(upgraders: seq<Upgrader>, from: string, idx: seq<nat>, n: nat)
    requires n <= |upgraders|
    requires forall k :: 0 <= k < |idx| ==> idx[k] < |upgraders|
  {
    forall j, k {:trigger upgraders[j], VersionAt(upgraders, from, idx, k)} ::
      0 <= j < n && 0 <= k <= |idx| && (k == 0 || idx[k - 1] < j) && (k == |idx| || j < idx[k]) ==>
      !upgraders[j].canUpgrade(VersionAt(upgraders, from, idx, k))
  }

  /** A successful pass: the steps `idx` are taken and the last of them produces `to`. */
  ghost predicate Route(upgraders: seq<Upgrader>, from: string, to: string, idx: seq<nat>) {
    && |idx| > 0
    && (forall k :: 0 <= k < |idx| ==> idx[k] < |upgraders|)
    && Taken(upgraders, from, to, idx[..|idx| - 1], idx[|idx| - 1])
    && upgraders[idx[|idx| - 1]].canUpgrade(VersionAfter(upgraders, from, idx[..|idx| - 1]))
    && upgraders[idx[|idx| - 1]].breakingChangeMessage.None?
    && upgraders[idx[|idx| - 1]].version == to
  }

  /** A pass that has taken the steps `idx` and then meets an applicable breaking step at `n`. */
  ghost predicate BlockedAt(upgraders: seq<Upgrader>, from: string, to: string, idx: seq<nat>, n: nat) {
    && n < |upgraders|
    && Taken(upgraders, from, to, idx, n)
    && upgraders[n].canUpgrade(VersionAfter(upgraders, from, idx))
    && upgraders[n].breakingChangeMessage.Some?
  }

  /** A prefix of the applied entries yields the same intermediate versions. */
  lemma VersionAtPrefix(upgraders: seq<Upgrader>, from: string, idx: seq<nat>, idx': seq<nat>, k: nat)
    requires |idx'| <= |idx| && k <= |idx'|
    requires forall l :: 0 <= l < |idx| ==> idx[l] < |upgraders|
    requires forall l :: 0 <= l < |idx'| ==> idx'[l] == idx[l]
    ensures VersionAt(upgraders, from, idx', k) == VersionAt(upgraders, from, idx, k)
  {
  }

  lemma TakenDropLast(upgraders: seq<Upgrader>, from: string, target: string, idx: seq<nat>, n: nat)
    requires n > 0 && Taken(upgraders, from, target, idx, n)
    requires |idx| > 0 && idx[|idx| - 1] == n - 1
    ensures Taken(upgraders, from, target, idx[..|idx| - 1], n - 1)
  {
    var idx' := idx[..|idx| - 1];
    forall k | 0 <= k < |idx'|
      ensures idx'[k] < n - 1
    {
      assert idx[k] < idx[|idx| - 1];
    }
    assert Increasing(idx', n - 1);
    AppliedPrefix(upgraders, from, target, idx, idx');
    forall j, k | 0 <= j < n - 1 && 0 <= k <= |idx'| && (k == 0 || idx'[k - 1] < j) && (k == |idx'| || j < idx'[k])
      ensures !upgraders[j].canUpgrade(VersionAt(upgraders, from, idx', k))
    {
      VersionAtPrefix(upgraders, from, idx, idx', k);
      assert j < idx[k];
      assert !upgraders[j].canUpgrade(VersionAt(upgraders, from, idx, k));
    }
    assert Skipped(upgraders, from, idx', n - 1);
  }

  /** A prefix of applied entries is applied. */
  lemma AppliedPrefix(upgraders: seq<Upgrader>, from: string, target: string, idx: seq<nat>, idx': seq<nat>)
    requires forall l :: 0 <= l < |idx| ==> idx[l] < |upgraders|
    requires Applied(upgraders, from, target, idx)
    requires |idx'| <= |idx| && forall l :: 0 <= l < |idx'| ==> idx'[l] == idx[l]
    ensures Applied(upgraders, from, target, idx')
  {
    forall k | 0 <= k < |idx'|
      ensures && upgraders[idx'[k]].canUpgrade(VersionAt(upgraders, from, idx', k))
              && upgraders[idx'[k]].breakingChangeMessage.None?
              && upgraders[idx'[k]].version != target
    {
      VersionAtPrefix(upgraders, from, idx, idx', k);
    }
  }

  /** Applied entries never produce the target, so a pass that starts off the target stays off it. */
  lemma TakenOffTarget(upgraders: seq<Upgrader>, from: string, target: string, idx: seq<nat>, n: nat)
    requires Taken(upgraders, from, target, idx, n)
    requires from != target
    ensures VersionAfter(upgraders, from, idx) != target
  {
    if |idx| > 0 {
      assert upgraders[idx[|idx| - 1]].version != target by {
        assert upgraders[idx[|idx| - 1]].canUpgrade(VersionAt(upgraders, from, idx, |idx| - 1));
      }
    }
  }

  lemma TakenDropSkipped(upgraders: seq<Upgrader>, from: string, target: string, idx: seq<nat>, n: nat)
    requires n > 0 && Taken(upgraders, from, target, idx, n)
    requires |idx| == 0 || idx[|idx| - 1] != n - 1
    ensures Taken(upgraders, from, target, idx, n - 1)
  {
    forall j, k | 0 <= j < n - 1 && 0 <= k <= |idx| && (k == 0 || idx[k - 1] < j) && (k == |idx| || j < idx[k])
      ensures !upgraders[j].canUpgrade(VersionAt(upgraders, from, idx, k))
    {
    }
  }

  lemma TakenAddApplied(upgraders: seq<Upgrader>, from: string, target: string, idx: seq<nat>, n: nat)
    requires n < |upgraders| && Taken(upgraders, from, target, idx, n)
    requires upgraders[n].canUpgrade(VersionAfter(upgraders, from, idx))
    requires upgraders[n].breakingChangeMessage.None? && upgraders[n].version != target
    ensures Taken(upgraders, from, target, idx + [n], n + 1)
  {
    var idx' := idx + [n];
    AppliedExtend(upgraders, from, target, idx, n);
    forall j, k | 0 <= j < n + 1 && 0 <= k < |idx'| && (k == 0 || idx'[k - 1] < j) && j < idx'[k]
      ensures !upgraders[j].canUpgrade(VersionAt(upgraders, from, idx', k))
    {
      VersionAtPrefix(upgraders, from, idx', idx, k);
    }
  }

  /** Applying one more accepting, non-breaking, off-target entry keeps the entries applied. */
  lemma AppliedExtend(upgraders: seq<Upgrader>, from: string, target: string, idx: seq<nat>, n: nat)
    requires n < |upgraders|
    requires forall l :: 0 <= l < |idx| ==> idx[l] < |upgraders|
    requires Applied(upgraders, from, target, idx)
    requires upgraders[n].canUpgrade(VersionAfter(upgraders, from, idx))
    requires upgraders[n].breakingChangeMessage.None? && upgraders[n].version != target
    ensures Applied(upgraders, from, target, idx + [n])
  {
    var idx' := idx + [n];
    forall k | 0 <= k < |idx'|
      ensures && upgraders[idx'[k]].canUpgrade(VersionAt(upgraders, from, idx', k))
              && upgraders[idx'[k]].breakingChangeMessage.None?
              && upgraders[idx'[k]].version != target
    {
      VersionAtPrefix(upgraders, from, idx', idx, k);
    }
  }

  lemma TakenAddSkipped(upgraders: seq<Upgrader>, from: string, target: string, idx: seq<nat>, n: nat)
    requires n < |upgraders| && Taken(upgraders, from, target, idx, n)
    requires !upgraders[n].canUpgrade(VersionAfter(upgraders, from, idx))
    ensures Taken(upgraders, from, target, idx, n + 1)
  {
    forall j, k | 0 <= j < n + 1 && 0 <= k <= |idx| && (k == 0 || idx[k - 1] < j) && (k == |idx| || j < idx[k])
      ensures !upgraders[j].canUpgrade(VersionAt(upgraders, from, idx, k))
    {
      if j == n {
        assert k == |idx|;
      }
    }
  }

  /** The steps described by `Taken` are what the pass applies: it is still running, at their version, with their composition. */
  lemma {:induction false} TakenRun(upgraders: seq<Upgrader>, from: string, target: string, data: string, idx: seq<nat>, n: nat)
    requires Taken(upgraders, from, target, idx, n)
    ensures Run(upgraders[..n], Running(from, data), target)
         == Running(VersionAfter(upgraders, from, idx), Compose(upgraders, idx, data))
    decreases n
  {
    if n == 0 {
      assert |idx| == 0;
      assert upgraders[..0] == [];
    } else {
      assert upgraders[..n][..n - 1] == upgraders[..n - 1];
      assert idx[..|idx|] == idx;
      if |idx| > 0 && idx[|idx| - 1] == n - 1 {
        var idx' := idx[..|idx| - 1];
        TakenDropLast(upgraders, from, target, idx, n);
        TakenRun(upgraders, from, target, data, idx', n - 1);
        VersionAtPrefix(upgraders, from, idx, idx', |idx'|);
        assert upgraders[n - 1].canUpgrade(VersionAt(upgraders, from, idx, |idx'|));
      } else {
        TakenDropSkipped(upgraders, from, target, idx, n);
        TakenRun(upgraders, from, target, data, idx, n - 1);
        assert !upgraders[n - 1].canUpgrade(VersionAt(upgraders, from, idx, |idx|));
      }
    }
  }

  /** Conversely, a pass still running after `n` entries has taken the steps of some `Taken` description. */
  lemma {:induction false} RunTaken(upgraders: seq<Upgrader>, from: string, target: string, data: string, n: nat)
    returns (idx: seq<nat>)
    requires n <= |upgraders|
    requires Run(upgraders[..n], Running(from, data), target).Running?
    ensures Taken(upgraders, from, target, idx, n)
    decreases n
  {
    if n == 0 {
      idx := [];
    } else {
      assert upgraders[..n][..n - 1] == upgraders[..n - 1];
      var idx' := RunTaken(upgraders, from, target, data, n - 1);
      TakenRun(upgraders, from, target, data, idx', n - 1);
      if upgraders[n - 1].canUpgrade(VersionAfter(upgraders, from, idx')) {
        TakenAddApplied(upgraders, from, target, idx', n - 1);
        idx := idx' + [n - 1];
      } else {
        TakenAddSkipped(upgraders, from, target, idx', n - 1);
        idx := idx';
      }
    }
  }

  // ---------------------------------------------------------------------
  // What the engine promises
  // ---------------------------------------------------------------------

  /** Both versions are valid, not a downgrade, distinct, and the target is supported: the pass runs. */
  ghost predicate EntersPass(fromVersion: string, toVersion: string, upgraders: seq<Upgrader>) {
    && Parse(fromVersion).Some?
    && Parse(toVersion).Some?
    && Compare(Parse(fromVersion).value, Parse(toVersion).value) != Greater
    && fromVersion != toVersion
    && Supports(upgraders, toVersion)
  }

  /** Once the guards are passed, the outcome is decided by the forward pass alone. */
  lemma PassOutcome(fromVersion: string, toVersion: string, data: string, upgraders: seq<Upgrader>)
    requires EntersPass(fromVersion, toVersion, upgraders)
    ensures UpgradeOutcome(fromVersion, toVersion, data, upgraders)
         == Finish(Run(upgraders, Running(fromVersion, data), toVersion), toVersion)
  {
  }

  /** Errors of the pass are breaking changes or a missing route, never a guard's error. */
  lemma PassErrors(fromVersion: string, toVersion: string, data: string, upgraders: seq<Upgrader>)
    requires EntersPass(fromVersion, toVersion, upgraders)
    requires UpgradeOutcome(fromVersion, toVersion, data, upgraders).Err?
    ensures UpgradeOutcome(fromVersion, toVersion, data, upgraders).error.BreakingChange?
         || UpgradeOutcome(fromVersion, toVersion, data, upgraders).error == NoRoute(toVersion)
  {
    PassOutcome(fromVersion, toVersion, data, upgraders);
    var p := Run(upgraders, Running(fromVersion, data), toVersion);
    if p.Aborted? {
      RunAbortsOnBreaking(upgraders, fromVersion, data, toVersion);
    }
  }

  /** An invalid `fromVersion` is reported first, whatever `toVersion` is; nothing else yields this error. */
  lemma InvalidFromVersionFirst(fromVersion: string, toVersion: string, data: string, upgraders: seq<Upgrader>)
    ensures UpgradeOutcome(fromVersion, toVersion, data, upgraders) == Err(InvalidFromVersion)
        <==> Parse(fromVersion).None?
  {
    if EntersPass(fromVersion, toVersion, upgraders) && UpgradeOutcome(fromVersion, toVersion, data, upgraders).Err? {
      PassErrors(fromVersion, toVersion, data, upgraders);
    }
  }

  /** An invalid `toVersion` with a valid `fromVersion`; nothing else yields this error. */
  lemma InvalidToVersionSecond(fromVersion: string, toVersion: string, data: string, upgraders: seq<Upgrader>)
    ensures UpgradeOutcome(fromVersion, toVersion, data, upgraders) == Err(InvalidToVersion)
        <==> Parse(fromVersion).Some? && Parse(toVersion).None?
  {
    if EntersPass(fromVersion, toVersion, upgraders) && UpgradeOutcome(fromVersion, toVersion, data, upgraders).Err? {
      PassErrors(fromVersion, toVersion, data, upgraders);
    }
  }

  /** Downgrades, by precedence, are refused whatever the registry holds; nothing else yields this error. */
  lemma DowngradeRefused(fromVersion: string, toVersion: string, data: string, upgraders: seq<Upgrader>, f: string, t: string)
    ensures UpgradeOutcome(fromVersion, toVersion, data, upgraders) == Err(Downgrade(f, t))
        <==> && Parse(fromVersion).Some? && Parse(toVersion).Some?
             && Compare(Parse(fromVersion).value, Parse(toVersion).value) == Greater
             && f == fromVersion && t == toVersion
  {
    if EntersPass(fromVersion, toVersion, upgraders) && UpgradeOutcome(fromVersion, toVersion, data, upgraders).Err? {
      PassErrors(fromVersion, toVersion, data, upgraders);
    }
  }

  /** Versions that differ at most in build metadata are never refused as a downgrade, in either order. */
  lemma BuildMetadataNeverDowngrade(fromVersion: string, toVersion: string, data: string, upgraders: seq<Upgrader>)
    requires Parse(fromVersion).Some? && Parse(toVersion).Some?
    requires Parse(fromVersion).value.(build := []) == Parse(toVersion).value.(build := [])
    ensures UpgradeOutcome(fromVersion, toVersion, data, upgraders).Err?
        ==> !UpgradeOutcome(fromVersion, toVersion, data, upgraders).error.Downgrade?
  {
    var a := Parse(fromVersion).value;
    var b := Parse(toVersion).value;
    CompareIgnoresBuild(a, b, [], []);
    CompareFlip(a.(build := []), b.(build := []));
    if EntersPass(fromVersion, toVersion, upgraders) && UpgradeOutcome(fromVersion, toVersion, data, upgraders).Err? {
      PassErrors(fromVersion, toVersion, data, upgraders);
    }
  }

  /** Equal valid version strings give back the data unchanged, for every registry. */
  lemma SameVersionIdentity(version: string, data: string, upgraders: seq<Upgrader>)
    requires Parse(version).Some?
    ensures UpgradeOutcome(version, version, data, upgraders) == Ok(data)
  {
    CompareFlip(Parse(version).value, Parse(version).value);
  }

  /** A target no upgrader produces is refused before any step; nothing else yields this error. */
  lemma UnsupportedTargetRefused(fromVersion: string, toVersion: string, data: string, upgraders: seq<Upgrader>, t: string)
    ensures UpgradeOutcome(fromVersion, toVersion, data, upgraders) == Err(UnsupportedTarget(t))
        <==> && Parse(fromVersion).Some? && Parse(toVersion).Some?
             && Compare(Parse(fromVersion).value, Parse(toVersion).value) != Greater
             && fromVersion != toVersion && !Supports(upgraders, toVersion)
             && t == toVersion
  {
    if EntersPass(fromVersion, toVersion, upgraders) && UpgradeOutcome(fromVersion, toVersion, data, upgraders).Err? {
      PassErrors(fromVersion, toVersion, data, upgraders);
    }
  }

  /** With the default registry, every valid forward upgrade between distinct strings is unsupported. */
  lemma DefaultRegistrySupportsNothing(fromVersion: string, toVersion: string, data: string)
    requires Parse(fromVersion).Some? && Parse(toVersion).Some?
    requires Compare(Parse(fromVersion).value, Parse(toVersion).value) != Greater
    requires fromVersion != toVersion
    ensures UpgradeOutcome(fromVersion, toVersion, data, SelectUpgraders(None)) == Err(UnsupportedTarget(toVersion))
  {
  }

  /** The pass along a route reaches the target with the left-to-right composition of the route's steps. */
  lemma RouteReaches(upgraders: seq<Upgrader>, from: string, to: string, data: string, idx: seq<nat>)
    requires Route(upgraders, from, to, idx)
    ensures Run(upgraders, Running(from, data), to) == Reached(Compose(upgraders, idx, data))
  {
    var n := idx[|idx| - 1];
    var idx' := idx[..|idx| - 1];
    var start := Running(from, data);
    TakenRun(upgraders, from, to, data, idx', n);
    assert upgraders[..n + 1][..n] == upgraders[..n];
    assert Run(upgraders[..n + 1], start, to) == Reached(Compose(upgraders, idx, data));
    RunTerminal(upgraders, start, to, n + 1, |upgraders|);
    assert upgraders[..|upgraders|] == upgraders;
  }

  /** Following a route succeeds with the left-to-right composition of its steps. */
  lemma RouteSucceeds(fromVersion: string, toVersion: string, data: string, upgraders: seq<Upgrader>, idx: seq<nat>)
    requires EntersPass(fromVersion, toVersion, upgraders)
    requires Route(upgraders, fromVersion, toVersion, idx)
    ensures UpgradeOutcome(fromVersion, toVersion, data, upgraders) == Ok(Compose(upgraders, idx, data))
  {
    RouteReaches(upgraders, fromVersion, toVersion, data, idx);
  }

  /** Every success follows a route, and its data is the composition of the route's steps. */
  lemma SuccessFollowsRoute(fromVersion: string, toVersion: string, data: string, upgraders: seq<Upgrader>)
    returns (idx: seq<nat>)
    requires EntersPass(fromVersion, toVersion, upgraders)
    requires UpgradeOutcome(fromVersion, toVersion, data, upgraders).Ok?
    ensures Route(upgraders, fromVersion, toVersion, idx)
    ensures UpgradeOutcome(fromVersion, toVersion, data, upgraders) == Ok(Compose(upgraders, idx, data))
  {
    var start := Running(fromVersion, data);
    PassOutcome(fromVersion, toVersion, data, upgraders);
    assert upgraders[..|upgraders|] == upgraders;
    if Run(upgraders, start, toVersion).Running? {
      RunningOffTarget(upgraders, fromVersion, data, toVersion);
    }
    assert Run(upgraders, start, toVersion).Reached?;
    var n := FirstStop(upgraders, start, toVersion, |upgraders|);
    var idx' := RunTaken(upgraders, fromVersion, toVersion, data, n);
    TakenRun(upgraders, fromVersion, toVersion, data, idx', n);
    assert upgraders[..n + 1][..n] == upgraders[..n];
    assert Step(Running(VersionAfter(upgraders, fromVersion, idx'), Compose(upgraders, idx', data)), upgraders[n], toVersion).Reached?;
    idx := idx' + [n];
    RouteOfTaken(upgraders, fromVersion, toVersion, idx', n);
    RouteSucceeds(fromVersion, toVersion, data, upgraders, idx);
  }

  /** A description of the steps taken, closed by an applicable, non-breaking step producing the target, is a route. */
  lemma RouteOfTaken(upgraders: seq<Upgrader>, from: string, to: string, idx: seq<nat>, n: nat)
    requires n < |upgraders| && Taken(upgraders, from, to, idx, n)
    requires upgraders[n].canUpgrade(VersionAfter(upgraders, from, idx))
    requires upgraders[n].breakingChangeMessage.None? && upgraders[n].version == to
    ensures Route(upgraders, from, to, idx + [n])
  {
    var idx' := idx + [n];
    assert idx'[..|idx'| - 1] == idx;
  }

  /** Meeting an applicable breaking step aborts with that step's message, before it is applied. */
  lemma BlockedFails(fromVersion: string, toVersion: string, data: string, upgraders: seq<Upgrader>, idx: seq<nat>, n: nat)
    requires EntersPass(fromVersion, toVersion, upgraders)
    requires BlockedAt(upgraders, fromVersion, toVersion, idx, n)
    ensures UpgradeOutcome(fromVersion, toVersion, data, upgraders)
         == Err(BreakingChange(VersionAfter(upgraders, fromVersion, idx), upgraders[n].version,
                               upgraders[n].breakingChangeMessage.value))
  {
    var start := Running(fromVersion, data);
    TakenRun(upgraders, fromVersion, toVersion, data, idx, n);
    assert upgraders[..n + 1][..n] == upgraders[..n];
    RunTerminal(upgraders, start, toVersion, n + 1, |upgraders|);
    assert upgraders[..|upgraders|] == upgraders;
  }

  /** Every breaking-change error comes from a pass blocked at an applicable breaking step. */
  lemma BreakingChangeBlocked(fromVersion: string, toVersion: string, data: string, upgraders: seq<Upgrader>)
    returns (idx: seq<nat>, n: nat)
    requires UpgradeOutcome(fromVersion, toVersion, data, upgraders).Err?
    requires UpgradeOutcome(fromVersion, toVersion, data, upgraders).error.BreakingChange?
    ensures EntersPass(fromVersion, toVersion, upgraders)
    ensures BlockedAt(upgraders, fromVersion, toVersion, idx, n)
    ensures UpgradeOutcome(fromVersion, toVersion, data, upgraders)
         == Err(BreakingChange(VersionAfter(upgraders, fromVersion, idx), upgraders[n].version,
                               upgraders[n].breakingChangeMessage.value))
  {
    var start := Running(fromVersion, data);
    assert EntersPass(fromVersion, toVersion, upgraders);
    PassOutcome(fromVersion, toVersion, data, upgraders);
    assert upgraders[..|upgraders|] == upgraders;
    assert Run(upgraders, start, toVersion).Aborted?;
    n := FirstStop(upgraders, start, toVersion, |upgraders|);
    idx := RunTaken(upgraders, fromVersion, toVersion, data, n);
    TakenRun(upgraders, fromVersion, toVersion, data, idx, n);
    RunExtend(upgraders, start, toVersion, n);
    assert Step(Running(VersionAfter(upgraders, fromVersion, idx), Compose(upgraders, idx, data)), upgraders[n], toVersion).Aborted?;
    BlockedFails(fromVersion, toVersion, data, upgraders, idx, n);
  }

  /** A pass that visits the whole registry without stopping reports that no route was found. */
  lemma ExhaustedFails(fromVersion: string, toVersion: string, data: string, upgraders: seq<Upgrader>, idx: seq<nat>)
    requires EntersPass(fromVersion, toVersion, upgraders)
    requires Taken(upgraders, fromVersion, toVersion, idx, |upgraders|)
    ensures UpgradeOutcome(fromVersion, toVersion, data, upgraders) == Err(NoRoute(toVersion))
  {
    TakenRun(upgraders, fromVersion, toVersion, data, idx, |upgraders|);
    TakenOffTarget(upgraders, fromVersion, toVersion, idx, |upgraders|);
    assert upgraders[..|upgraders|] == upgraders;
  }

  /** Every missing-route error comes from a pass that visited the whole registry without stopping. */
  lemma NoRouteExhausted(fromVersion: string, toVersion: string, data: string, upgraders: seq<Upgrader>, t: string)
    returns (idx: seq<nat>)
    requires UpgradeOutcome(fromVersion, toVersion, data, upgraders) == Err(NoRoute(t))
    ensures EntersPass(fromVersion, toVersion, upgraders) && t == toVersion
    ensures Taken(upgraders, fromVersion, toVersion, idx, |upgraders|)
  {
    var start := Running(fromVersion, data);
    assert upgraders[..|upgraders|] == upgraders;
    if Run(upgraders, start, toVersion).Aborted? {
      RunAbortsOnBreaking(upgraders, fromVersion, data, toVersion);
    }
    idx := RunTaken(upgraders, fromVersion, toVersion, data, |upgraders|);
  }

  /** Entries after the step that reaches the target are never consulted: appending entries keeps a success. */
  lemma LaterEntriesIgnored(fromVersion: string, toVersion: string, data: string, upgraders: seq<Upgrader>, extra: seq<Upgrader>)
    requires UpgradeOutcome(fromVersion, toVersion, data, upgraders).Ok?
    ensures UpgradeOutcome(fromVersion, toVersion, data, upgraders + extra)
         == UpgradeOutcome(fromVersion, toVersion, data, upgraders)
  {
    if fromVersion != toVersion {
      var all := upgraders + extra;
      var start := Running(fromVersion, data);
      assert all[..|upgraders|] == upgraders;
      assert all[..|all|] == all;
      assert upgraders[..|upgraders|] == upgraders;
      var i :| 0 <= i < |upgraders| && upgraders[i].version == toVersion;
      assert all[i].version == toVersion;
      if Run(upgraders, start, toVersion).Running? {
        RunningOffTarget(upgraders, fromVersion, data, toVersion);
      }
      RunTerminal(all, start, toVersion, |upgraders|, |all|);
    }
  }

  /** Whether and how the engine fails depends on the versions and the registry only, never on the data. */
  lemma ErrorsIgnoreData(fromVersion: string, toVersion: string, data: string, other: string, upgraders: seq<Upgrader>)
    requires UpgradeOutcome(fromVersion, toVersion, data, upgraders).Err?
    ensures UpgradeOutcome(fromVersion, toVersion, other, upgraders)
         == UpgradeOutcome(fromVersion, toVersion, data, upgraders)
  {
    if EntersPass(fromVersion, toVersion, upgraders) {
      PassErrors(fromVersion, toVersion, data, upgraders);
      if UpgradeOutcome(fromVersion, toVersion, data, upgraders).error.BreakingChange? {
        var idx, n := BreakingChangeBlocked(fromVersion, toVersion, data, upgraders);
        BlockedFails(fromVersion, toVersion, other, upgraders, idx, n);
      } else {
        var idx := NoRouteExhausted(fromVersion, toVersion, data, upgraders, toVersion);
        ExhaustedFails(fromVersion, toVersion, other, upgraders, idx);
      }
    }
  }
}
