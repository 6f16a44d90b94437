/** Comparing execution contexts before a task may run its agent. */
module Drift {
  import opened Lifecycle
  import opened Text
  import opened Paths

  // ---- snapshots -----------------------------------------------------------------

  datatype FileState = FileState(
    path: string,
    originalPath: string,
    indexStatus: string,
    worktreeStatus: string,
    contentKind: string,
    mode: string,
    contentDigest: string,
    indexDigest: string,
    size: int,
    indexEntries: seq<string>)

  /** A list that may be absent; the comparison tells an absent list from an empty one. */
  type Files = Option<seq<FileState>>

  datatype Workspace = Workspace(
    configuredPath: string,
    normalizedPath: string,
    readable: bool,
    captureError: string,
    isGit: bool,
    workTree: string,
    identity: string,
    branch: string,
    detached: bool,
    head: string,
    tracked: Files,
    untracked: Files,
    conflicted: Files,
    digest: string)

  /** Key execution fields in canonical form, and whether they are a JSON object. */
  datatype Settings = Settings(canonical: string, isObject: bool)

  /** Identifier 0 stands for the nil identifier. */
  datatype Context = Context(
    capturedAt: int,
    requirementId: nat,
    requirementVersion: int,
    requirementDigest: string,
    planId: nat,
    planResourceVersion: int,
    planContentVersion: int,
    planSpecDigest: string,
    projectVersion: int,
    configVersion: int,
    settings: Settings,
    generationProvider: string,
    executionProvider: string,
    workspace: Workspace,
    integrityError: string)

  predicate HexDigit(c: char) { '0' <= c <= '9' || 'a' <= c <= 'f' || 'A' <= c <= 'F' }

  predicate IsSha256(s: string) { |s| == 64 && forall i | 0 <= i < |s| :: HexDigit(s[i]) }

  predicate ValidWorkspace(w: Workspace) {
    && Trim(w.captureError) == "" && w.readable
    && Trim(w.configuredPath) != "" && Trim(w.normalizedPath) != ""
    && IsSha256(w.digest)
    && (w.isGit ==>
          && Trim(w.workTree) != "" && Trim(w.identity) != ""
          && !(w.branch == "" && !w.detached && w.head != ""))
  }

  predicate ValidContext(c: Context) {
    && Trim(c.integrityError) == ""
    && c.requirementId != 0 && c.planId != 0
    && c.requirementVersion >= 1 && c.planResourceVersion >= 1 && c.planContentVersion >= 1
    && c.projectVersion >= 1 && c.configVersion >= 1
    && IsSha256(c.requirementDigest) && IsSha256(c.planSpecDigest)
    && Trim(c.generationProvider) != "" && Trim(c.executionProvider) != ""
    && c.settings.isObject
    && ValidWorkspace(c.workspace)
  }

  // ---- differences ----------------------------------------------------------------

  datatype Severity = Clean | SafeIgnore | NeedsConfirmation | MustBlock

  function Rank(s: Severity): nat {
    match s
    case MustBlock => 3
    case NeedsConfirmation => 2
    case SafeIgnore => 1
    case Clean => 0
  }

  datatype Value = Str(text: string) | Number(n: int) | Flag(b: bool) | FileList(files: Files)

  datatype Action = Proceed | ReviewAndAccept | Regenerate | ResolveConflicts | RepairWorkspace

  datatype Difference = Difference(
    field: string,
    baseline: Value,
    current: Value,
    severity: Severity,
    reason: string,
    action: Action)

  predicate Blocks(d: Difference) { d.severity == NeedsConfirmation || d.severity == MustBlock }

  /** Some difference is at least as grave as rank n. */
  predicate Reaches(ds: seq<Difference>, n: nat) { exists i | 0 <= i < |ds| :: Rank(ds[i].severity) >= n }

  function DiffWhen(found: bool, d: Difference): seq<Difference> { if found then [d] else [] }

  function TextDiff(field: string, b: string, c: string, severity: Severity, reason: string, action: Action): seq<Difference> {
    DiffWhen(b != c, Difference(field, Str(b), Str(c), severity, reason, action))
  }

  function ServerDiff(field: string, b: int, c: int): seq<Difference> {
    if b == c then []
    else if c > b then [Difference(field, Number(b), Number(c), SafeIgnore, "the server version increased", Proceed)]
    else [Difference(field, Number(b), Number(c), MustBlock, "the server version moved backwards", RepairWorkspace)]
  }

  function IdentityDiffs(b: Context, c: Context): seq<Difference> {
    TextDiff("workspace.configured_path", b.workspace.configuredPath, c.workspace.configuredPath, MustBlock,
             "configured path changed", Regenerate)
    + TextDiff("workspace.normalized_path", b.workspace.normalizedPath, c.workspace.normalizedPath, MustBlock,
               "real path changed", Regenerate)
    + DiffWhen(b.requirementId != c.requirementId,
           Difference("requirement.id", Number(b.requirementId), Number(c.requirementId), MustBlock,
                      "different requirement", Regenerate))
    + DiffWhen(b.planId != c.planId,
           Difference("plan.id", Number(b.planId), Number(c.planId), MustBlock, "different plan", Regenerate))
  }

  function ContentDiffs(b: Context, c: Context): seq<Difference> {
    DiffWhen(b.requirementVersion != c.requirementVersion,
         Difference("requirement.version", Number(b.requirementVersion), Number(c.requirementVersion), MustBlock,
                    "requirement version changed", Regenerate))
    + TextDiff("requirement.digest", b.requirementDigest, c.requirementDigest, MustBlock, "requirement changed", Regenerate)
    + DiffWhen(b.planContentVersion != c.planContentVersion,
           Difference("plan.content_version", Number(b.planContentVersion), Number(c.planContentVersion), MustBlock,
                      "plan content version changed", Regenerate))
    + TextDiff("plan.spec_digest", b.planSpecDigest, c.planSpecDigest, MustBlock, "plan specification changed", Regenerate)
  }

  function VersionDiffs(b: Context, c: Context): seq<Difference> {
    ServerDiff("plan.resource_version", b.planResourceVersion, c.planResourceVersion)
    + ServerDiff("project.version", b.projectVersion, c.projectVersion)
    + ServerDiff("config.version", b.configVersion, c.configVersion)
  }

  function ProviderDiffs(b: Context, c: Context): seq<Difference> {
    TextDiff("provider.generation", b.generationProvider, c.generationProvider, NeedsConfirmation,
             "generation provider changed", ReviewAndAccept)
    + TextDiff("provider.execution", b.executionProvider, c.executionProvider, NeedsConfirmation,
               "execution provider changed", ReviewAndAccept)
    + TextDiff("settings.key_execution_fields", b.settings.canonical, c.settings.canonical, NeedsConfirmation,
               "execution settings changed", ReviewAndAccept)
  }

  /** The state a checkpoint vouches for. */
  predicate SameState(x: Workspace, y: Workspace) {
    && x.normalizedPath == y.normalizedPath && x.isGit == y.isGit && x.workTree == y.workTree
    && x.identity == y.identity && x.branch == y.branch && x.detached == y.detached && x.head == y.head
    && x.digest == y.digest && x.conflicted == y.conflicted
  }

  predicate Vouched(c: Workspace, checkpoint: Option<Workspace>) {
    checkpoint.Some? && SameState(c, checkpoint.value)
  }

  function StateSeverity(vouched: bool): Severity { if vouched then SafeIgnore else NeedsConfirmation }

  function StateReason(text: string, vouched: bool): string {
    if vouched then text + "; matches the latest checkpoint" else text
  }

  function StateDiff(field: string, changed: bool, b: Value, c: Value, text: string, vouched: bool): seq<Difference> {
    DiffWhen(changed, Difference(field, b, c, StateSeverity(vouched), StateReason(text, vouched),
                             if vouched then Proceed else ReviewAndAccept))
  }

  predicate HasPath(files: Files, path: string) {
    files.Some? && exists i | 0 <= i < |files.value| :: files.value[i].path == path
  }

  function DirtyReason(kind: string, b: Files, c: Files): string {
    if c.Some? && exists i | 0 <= i < |c.value| :: !HasPath(b, c.value[i].path)
    then "new " + kind + " dirty files appeared" else kind + " dirty file status or content changed"
  }

  predicate Conflicts(w: Workspace) { w.conflicted.Some? && w.conflicted.value != [] }

  function ConflictDiffs(b: Workspace, c: Workspace, vouched: bool): seq<Difference> {
    if Conflicts(c) then
      [Difference("git.conflicted_files", FileList(b.conflicted), FileList(c.conflicted), MustBlock,
                  "unresolved merge conflicts", ResolveConflicts)]
    else StateDiff("git.conflicted_files", b.conflicted != c.conflicted, FileList(b.conflicted), FileList(c.conflicted),
                   "the conflict set changed", vouched)
  }

  function RepositoryDiffs(b: Workspace, c: Workspace): seq<Difference> {
    TextDiff("git.work_tree", b.workTree, c.workTree, MustBlock, "work tree changed", Regenerate)
    + TextDiff("git.repository_identity", b.identity, c.identity, MustBlock, "repository changed", Regenerate)
    + DiffWhen(b.isGit != c.isGit,
           Difference("git.is_repository", Flag(b.isGit), Flag(c.isGit), MustBlock, "repository status changed", Regenerate))
  }

  function HeadDiffs(b: Workspace, c: Workspace, vouched: bool): seq<Difference> {
    StateDiff("git.branch", b.branch != c.branch, Str(b.branch), Str(c.branch), "branch changed", vouched)
    + StateDiff("git.detached_head", b.detached != c.detached, Flag(b.detached), Flag(c.detached), "detached state changed", vouched)
    + StateDiff("git.head", b.head != c.head, Str(b.head), Str(c.head), "HEAD changed", vouched)
  }

  function DirtyDiffs(b: Workspace, c: Workspace, vouched: bool): seq<Difference> {
    StateDiff("git.tracked_changes", b.tracked != c.tracked, FileList(b.tracked), FileList(c.tracked),
              DirtyReason("tracked", b.tracked, c.tracked), vouched)
    + StateDiff("git.untracked_files", b.untracked != c.untracked, FileList(b.untracked), FileList(c.untracked),
                DirtyReason("untracked", b.untracked, c.untracked), vouched)
    + StateDiff("git.workspace_content_digest", b.digest != c.digest, Str(b.digest), Str(c.digest),
                "dirty content changed", vouched)
  }

  function WorkspaceDiffs(b: Workspace, c: Workspace, checkpoint: Option<Workspace>): seq<Difference> {
    var vouched := Vouched(c, checkpoint);
    RepositoryDiffs(b, c) + HeadDiffs(b, c, vouched) + ConflictDiffs(b, c, vouched) + DirtyDiffs(b, c, vouched)
  }

  function TimeDiffs(b: Context, c: Context): seq<Difference> {
    DiffWhen(b.capturedAt != c.capturedAt,
         Difference("snapshot.captured_at", Number(b.capturedAt), Number(c.capturedAt), SafeIgnore,
                    "capture times do not matter", Proceed))
  }

  /** The checkpoint's workspace, when it can be used. */
  function UsableCheckpoint(checkpoint: Option<Context>): Option<Workspace> {
    if checkpoint.Some? && ValidWorkspace(checkpoint.value.workspace) then Some(checkpoint.value.workspace) else None
  }

  function Invalid(field: string, reason: string): seq<Difference> {
    [Difference(field, Str("valid"), Str("invalid"), MustBlock, reason, RepairWorkspace)]
  }

  function AllDiffs(baseline: Option<Context>, c: Context, checkpoint: Option<Context>): seq<Difference> {
    if baseline.None? then
      [Difference("snapshot.baseline", Str("missing"), Str("present"), MustBlock, "no execution baseline", RepairWorkspace)]
    else if !ValidContext(baseline.value) then Invalid("snapshot.baseline_integrity", "the baseline is damaged")
    else if !ValidContext(c) then Invalid("snapshot.current_integrity", "the context could not be read")
    else
      var b := baseline.value;
      TimeDiffs(b, c) + IdentityDiffs(b, c) + ContentDiffs(b, c) + VersionDiffs(b, c) + ProviderDiffs(b, c)
      + WorkspaceDiffs(b.workspace, c.workspace, UsableCheckpoint(checkpoint))
  }

  // ---- the report ------------------------------------------------------------------

  /** The order of a report: by field, the graver difference first, then by reason. */
  predicate ReportedBefore(x: Difference, y: Difference) {
    if x.field != y.field then Less(x.field, y.field)
    else if x.severity != y.severity then Rank(x.severity) > Rank(y.severity)
    else Less(x.reason, y.reason)
  }

  function InsertDiff(ds: seq<Difference>, d: Difference): seq<Difference> {
    if ds == [] || !ReportedBefore(d, ds[|ds| - 1]) then ds + [d]
    else InsertDiff(ds[..|ds| - 1], d) + [ds[|ds| - 1]]
  }

  function SortedDiffs(ds: seq<Difference>): seq<Difference> {
    if ds == [] then [] else InsertDiff(SortedDiffs(ds[..|ds| - 1]), ds[|ds| - 1])
  }

  function Blocking(ds: seq<Difference>): seq<Difference> {
    if ds == [] then []
    else Blocking(ds[..|ds| - 1]) + if Blocks(ds[|ds| - 1]) then [ds[|ds| - 1]] else []
  }

  /** The part of a context a fingerprint depends on. */
  datatype StableContext = StableContext(
    requirementId: nat,
    requirementVersion: int,
    requirementDigest: string,
    planId: nat,
    planContentVersion: int,
    planSpecDigest: string,
    settings: string,
    generationProvider: string,
    executionProvider: string,
    configuredPath: string,
    normalizedPath: string,
    workTree: string,
    identity: string,
    branch: string,
    detached: bool,
    head: string,
    digest: string,
    conflicted: Files)

  function StableFields(c: Context): StableContext {
    StableContext(c.requirementId, c.requirementVersion, c.requirementDigest, c.planId, c.planContentVersion,
                  c.planSpecDigest, c.settings.canonical, c.generationProvider, c.executionProvider,
                  c.workspace.configuredPath, c.workspace.normalizedPath, c.workspace.workTree, c.workspace.identity,
                  c.workspace.branch, c.workspace.detached, c.workspace.head, c.workspace.digest, c.workspace.conflicted)
  }

  /** What is hashed into the fingerprint. */
  datatype Fingerprint = Fingerprint(differences: seq<Difference>, current: StableContext)

  datatype Report = Report(severity: Severity, differences: seq<Difference>, fingerprint: Fingerprint, cliAllowed: bool)

  predicate IsReport(r: Report, ds: seq<Difference>, c: Context) {
    && r.differences == SortedDiffs(ds)
    && r.fingerprint == Fingerprint(Blocking(SortedDiffs(ds)), StableFields(c))
    && (forall i | 0 <= i < |r.differences| :: Rank(r.differences[i].severity) <= Rank(r.severity))
    && (r.severity == Clean || exists i | 0 <= i < |r.differences| :: r.differences[i].severity == r.severity)
    && (r.cliAllowed <==> r.severity == Clean || r.severity == SafeIgnore)
  }

  method GravestSeverity(sorted: seq<Difference>) returns (severity: Severity)
    ensures forall i | 0 <= i < |sorted| :: Rank(sorted[i].severity) <= Rank(severity)
    ensures severity == Clean || exists i | 0 <= i < |sorted| :: sorted[i].severity == severity
  {
    severity := Clean;
    for i := 0 to |sorted|
      invariant forall j | 0 <= j < i :: Rank(sorted[j].severity) <= Rank(severity)
      invariant severity == Clean || exists j | 0 <= j < i :: sorted[j].severity == severity
    {
      if Rank(sorted[i].severity) > Rank(severity) {
        severity := sorted[i].severity;
      }
    }
  }

  method FingerprintItems(sorted: seq<Difference>) returns (items: seq<Difference>)
    ensures items == Blocking(sorted)
  {
    items := [];
    for i := 0 to |sorted|
      invariant items == Blocking(sorted[..i])
    {
      assert sorted[..i + 1][..i] == sorted[..i];
      if sorted[i].severity == NeedsConfirmation || sorted[i].severity == MustBlock {
        items := items + [sorted[i]];
      }
    }
    assert sorted[..|sorted|] == sorted;
  }

  method FinishReport(ds: seq<Difference>, c: Context) returns (r: Report)
    ensures IsReport(r, ds, c)
  {
    hide SortedDiffs, Blocking;
    var sorted := SortedDiffs(ds);
    var severity := GravestSeverity(sorted);
    var items := FingerprintItems(sorted);
    r := Report(severity, sorted, Fingerprint(items, StableFields(c)),
                severity != NeedsConfirmation && severity != MustBlock);
  }

  /** CompareExecutionContexts */
  method Compare(baseline: Option<Context>, c: Context, checkpoint: Option<Context>) returns (r: Report)
    ensures IsReport(r, AllDiffs(baseline, c, checkpoint), c)
  {
    hide TimeDiffs, IdentityDiffs, ContentDiffs, VersionDiffs, ProviderDiffs, WorkspaceDiffs, ValidContext, IsReport,
      UsableCheckpoint;
    var differences: seq<Difference> := [];
    if baseline.None? || !ValidContext(baseline.value) || !ValidContext(c) {
      differences := AllDiffs(baseline, c, checkpoint);
    } else {
      var b := baseline.value;
      differences := TimeDiffs(b, c);
      differences := differences + IdentityDiffs(b, c);
      differences := differences + ContentDiffs(b, c);
      differences := differences + VersionDiffs(b, c);
      differences := differences + ProviderDiffs(b, c);
      differences := differences + WorkspaceDiffs(b.workspace, c.workspace, UsableCheckpoint(checkpoint));
    }
    r := FinishReport(differences, c);
  }

  // ---- the gate --------------------------------------------------------------------------

  lemma {:induction false} InsertedSame(ds: seq<Difference>, d: Difference)
    ensures forall x :: x in InsertDiff(ds, d) <==> x in ds || x == d
    ensures |InsertDiff(ds, d)| == |ds| + 1
  {
    if ds != [] && ReportedBefore(d, ds[|ds| - 1]) {
      InsertedSame(ds[..|ds| - 1], d);
      assert ds == ds[..|ds| - 1] + [ds[|ds| - 1]];
    }
  }

  lemma {:induction false} SortedSame(ds: seq<Difference>)
    ensures forall x :: x in SortedDiffs(ds) <==> x in ds
    ensures |SortedDiffs(ds)| == |ds|
  {
    if ds == [] {
    } else {
      SortedSame(ds[..|ds| - 1]);
      InsertedSame(SortedDiffs(ds[..|ds| - 1]), ds[|ds| - 1]);
      assert ds == ds[..|ds| - 1] + [ds[|ds| - 1]];
    }
  }

  /** A report is as grave as the gravest of its differences. */
  lemma ReportReaches(r: Report, ds: seq<Difference>, c: Context, n: nat)
    requires IsReport(r, ds, c) && n > 0
    ensures Rank(r.severity) >= n <==> Reaches(ds, n)
  {
    SortedSame(ds);
    if i :| 0 <= i < |ds| && Rank(ds[i].severity) >= n {
      assert ds[i] in SortedDiffs(ds);
      var j :| 0 <= j < |r.differences| && r.differences[j] == ds[i];
    }
    if Rank(r.severity) >= n {
      var i :| 0 <= i < |r.differences| && r.differences[i].severity == r.severity;
      assert r.differences[i] in ds;
      var j :| 0 <= j < |ds| && ds[j] == r.differences[i];
      assert Rank(ds[j].severity) >= n;
    }
  }

  lemma ReachesAppend(x: seq<Difference>, y: seq<Difference>, n: nat)
    ensures Reaches(x + y, n) <==> Reaches(x, n) || Reaches(y, n)
  {
    if i :| 0 <= i < |x| && Rank(x[i].severity) >= n {
      assert Rank((x + y)[i].severity) >= n;
    }
    if i :| 0 <= i < |y| && Rank(y[i].severity) >= n {
      assert Rank((x + y)[|x| + i].severity) >= n;
    }
  }

  /** The dirty state of the work tree is that of the baseline. */
  predicate SameDirtyState(b: Workspace, c: Workspace) {
    && b.branch == c.branch && b.detached == c.detached && b.head == c.head
    && b.conflicted == c.conflicted && b.tracked == c.tracked && b.untracked == c.untracked && b.digest == c.digest
  }

  predicate SameOrigin(b: Context, c: Context) {
    && b.workspace.configuredPath == c.workspace.configuredPath
    && b.workspace.normalizedPath == c.workspace.normalizedPath
    && b.requirementId == c.requirementId && b.planId == c.planId
    && b.requirementVersion == c.requirementVersion && b.requirementDigest == c.requirementDigest
    && b.planContentVersion == c.planContentVersion && b.planSpecDigest == c.planSpecDigest
  }

  predicate NotBackwards(b: Context, c: Context) {
    && b.planResourceVersion <= c.planResourceVersion && b.projectVersion <= c.projectVersion
    && b.configVersion <= c.configVersion
  }

  predicate SameVersions(b: Context, c: Context) {
    && b.planResourceVersion == c.planResourceVersion && b.projectVersion == c.projectVersion
    && b.configVersion == c.configVersion
  }

  predicate SameProviders(b: Context, c: Context) {
    && b.generationProvider == c.generationProvider && b.executionProvider == c.executionProvider
    && b.settings.canonical == c.settings.canonical
  }

  predicate SameRepository(b: Workspace, c: Workspace) {
    b.workTree == c.workTree && b.identity == c.identity && b.isGit == c.isGit
  }

  /** A list is as grave as its parts. */
  lemma PartsReach(n: nat)
    requires n > 0
    ensures forall x: seq<Difference>, y: seq<Difference> :: Reaches(x + y, n) <==> Reaches(x, n) || Reaches(y, n)
    ensures forall found: bool, d: Difference :: Reaches(DiffWhen(found, d), n) <==> found && Rank(d.severity) >= n
    ensures forall d: Difference :: Reaches([d], n) <==> Rank(d.severity) >= n
    ensures !Reaches([], n)
  {
    forall x: seq<Difference>, y: seq<Difference> ensures Reaches(x + y, n) <==> Reaches(x, n) || Reaches(y, n) {
      ReachesAppend(x, y, n);
    }
    forall found: bool, d: Difference ensures Reaches(DiffWhen(found, d), n) <==> found && Rank(d.severity) >= n {
      if found {
        assert DiffWhen(found, d)[0] == d;
      }
    }
    forall d: Difference ensures Reaches([d], n) <==> Rank(d.severity) >= n {
      assert [d][0] == d;
    }
  }

  lemma OriginReaches(b: Context, c: Context, n: nat)
    requires 0 < n <= 3
    ensures Reaches(IdentityDiffs(b, c), n) || Reaches(ContentDiffs(b, c), n) <==> !SameOrigin(b, c)
  {
    hide Reaches, IdentityDiffs, ContentDiffs;
    IdentityReaches(b, c, n);
    ContentReaches(b, c, n);
  }

  lemma IdentityReaches(b: Context, c: Context, n: nat)
    requires 0 < n <= 3
    ensures Reaches(IdentityDiffs(b, c), n) <==>
      !(b.workspace.configuredPath == c.workspace.configuredPath && b.workspace.normalizedPath == c.workspace.normalizedPath
        && b.requirementId == c.requirementId && b.planId == c.planId)
  {
    hide Reaches, DiffWhen;
    PartsReach(n);
  }

  lemma ContentReaches(b: Context, c: Context, n: nat)
    requires 0 < n <= 3
    ensures Reaches(ContentDiffs(b, c), n) <==>
      !(b.requirementVersion == c.requirementVersion && b.requirementDigest == c.requirementDigest
        && b.planContentVersion == c.planContentVersion && b.planSpecDigest == c.planSpecDigest)
  {
    hide Reaches, DiffWhen;
    PartsReach(n);
  }

  lemma VersionsReach(b: Context, c: Context, n: nat)
    requires 0 < n <= 3
    ensures Reaches(VersionDiffs(b, c), n) <==> if n == 1 then !SameVersions(b, c) else !NotBackwards(b, c)
  {
    hide Reaches, DiffWhen;
    PartsReach(n);
  }

  lemma ProvidersReach(b: Context, c: Context, n: nat)
    requires 0 < n <= 3
    ensures Reaches(ProviderDiffs(b, c), n) <==> n <= 2 && !SameProviders(b, c)
  {
    hide Reaches, DiffWhen;
    PartsReach(n);
  }

  lemma TimeReaches(b: Context, c: Context, n: nat)
    requires 0 < n <= 3
    ensures Reaches(TimeDiffs(b, c), n) <==> n == 1 && b.capturedAt != c.capturedAt
  {
    hide Reaches, DiffWhen;
    PartsReach(n);
  }

  lemma RepositoryReaches(b: Workspace, c: Workspace, n: nat)
    requires 0 < n <= 3
    ensures Reaches(RepositoryDiffs(b, c), n) <==> !SameRepository(b, c)
  {
    hide Reaches, DiffWhen;
    PartsReach(n);
  }

  lemma HeadReaches(b: Workspace, c: Workspace, vouched: bool, n: nat)
    requires 0 < n <= 3
    ensures Reaches(HeadDiffs(b, c, vouched), n) <==>
      n <= Rank(StateSeverity(vouched)) && !(b.branch == c.branch && b.detached == c.detached && b.head == c.head)
  {
    hide Reaches, DiffWhen, StateReason;
    PartsReach(n);
  }

  lemma DirtyReaches(b: Workspace, c: Workspace, vouched: bool, n: nat)
    requires 0 < n <= 3
    ensures Reaches(DirtyDiffs(b, c, vouched), n) <==>
      n <= Rank(StateSeverity(vouched)) && !(b.tracked == c.tracked && b.untracked == c.untracked && b.digest == c.digest)
  {
    hide Reaches, DiffWhen, DirtyReason, StateReason;
    PartsReach(n);
  }

  lemma ConflictReaches(b: Workspace, c: Workspace, vouched: bool, n: nat)
    requires 0 < n <= 3
    ensures Reaches(ConflictDiffs(b, c, vouched), n) <==>
      Conflicts(c) || (n <= Rank(StateSeverity(vouched)) && b.conflicted != c.conflicted)
  {
    hide Reaches, DiffWhen, StateReason;
    PartsReach(n);
  }

  lemma WorkspaceReaches(b: Workspace, c: Workspace, checkpoint: Option<Workspace>, n: nat)
    requires 0 < n <= 3
    ensures Reaches(WorkspaceDiffs(b, c, checkpoint), n) <==>
      !SameRepository(b, c) || Conflicts(c) || (n <= Rank(StateSeverity(Vouched(c, checkpoint))) && !SameDirtyState(b, c))
  {
    hide Reaches, DiffWhen, Vouched, RepositoryDiffs, HeadDiffs, ConflictDiffs, DirtyDiffs, SameRepository, StateSeverity, Rank;
    var vouched := Vouched(c, checkpoint);
    PartsReach(n);
    RepositoryReaches(b, c, n);
    HeadReaches(b, c, vouched, n);
    ConflictReaches(b, c, vouched, n);
    DirtyReaches(b, c, vouched, n);
  }

  /** How grave the differences of two contexts are. */
  lemma ContextsReach(baseline: Option<Context>, c: Context, checkpoint: Option<Context>, n: nat)
    requires 0 < n <= 3
    ensures Reaches(AllDiffs(baseline, c, checkpoint), n) <==>
      || baseline.None? || !ValidContext(baseline.value) || !ValidContext(c)
      || (var b := baseline.value;
          || !SameOrigin(b, c) || !SameRepository(b.workspace, c.workspace) || Conflicts(c.workspace)
          || (if n == 1 then !SameVersions(b, c) || b.capturedAt != c.capturedAt else !NotBackwards(b, c))
          || (n <= 2 && !SameProviders(b, c))
          || (n <= Rank(StateSeverity(Vouched(c.workspace, UsableCheckpoint(checkpoint))))
              && !SameDirtyState(b.workspace, c.workspace)))
  {
    hide Reaches, ValidContext, TimeDiffs, IdentityDiffs, ContentDiffs, VersionDiffs, ProviderDiffs, WorkspaceDiffs,
      SameOrigin, SameVersions, NotBackwards, SameProviders, SameRepository, SameDirtyState, Vouched, UsableCheckpoint,
      StateSeverity;
    PartsReach(n);
    if baseline.Some? {
      var b := baseline.value;
      OriginReaches(b, c, n);
      VersionsReach(b, c, n);
      ProvidersReach(b, c, n);
      TimeReaches(b, c, n);
      WorkspaceReaches(b.workspace, c.workspace, UsableCheckpoint(checkpoint), n);
    }
  }

  // ---- the gate, field by field -------------------------------------------------------------

  /** A digest in hexadecimal. */
  predicate Digest(s: string) {
    |s| == 64 && forall i | 0 <= i < |s| ::
      s[i] in {'0', '1', '2', '3', '4', '5', '6', '7', '8', '9', 'a', 'b', 'c', 'd', 'e', 'f', 'A', 'B', 'C', 'D', 'E', 'F'}
  }

  /** The work tree was read without an error: its paths are known, its content was hashed, and of a
      repository work tree and identity are known and, unless HEAD is detached or unborn, the branch. */
  predicate TreeRead(w: Workspace) {
    && w.readable && Trim(w.captureError) == ""
    && Trim(w.configuredPath) != "" && Trim(w.normalizedPath) != "" && Digest(w.digest)
    && (w.isGit ==> Trim(w.workTree) != "" && Trim(w.identity) != "" && (w.branch != "" || w.detached || w.head == ""))
  }

  /** Everything about the context is known. */
  predicate ContextRead(c: Context) {
    && Trim(c.integrityError) == "" && c.requirementId > 0 && c.planId > 0
    && c.requirementVersion > 0 && c.planResourceVersion > 0 && c.planContentVersion > 0
    && c.projectVersion > 0 && c.configVersion > 0
    && Digest(c.requirementDigest) && Digest(c.planSpecDigest)
    && Trim(c.generationProvider) != "" && Trim(c.executionProvider) != "" && c.settings.isObject
    && TreeRead(c.workspace)
  }

  /** Requirement, plan and repository are those of the baseline, no version fell and nothing is in conflict. */
  predicate SameWork(b: Context, c: Context) {
    && c.requirementId == b.requirementId && c.requirementVersion == b.requirementVersion
    && c.requirementDigest == b.requirementDigest
    && c.planId == b.planId && c.planContentVersion == b.planContentVersion && c.planSpecDigest == b.planSpecDigest
    && c.workspace.configuredPath == b.workspace.configuredPath && c.workspace.normalizedPath == b.workspace.normalizedPath
    && c.workspace.isGit == b.workspace.isGit && c.workspace.workTree == b.workspace.workTree
    && c.workspace.identity == b.workspace.identity
    && c.planResourceVersion >= b.planResourceVersion && c.projectVersion >= b.projectVersion
    && c.configVersion >= b.configVersion
    && (c.workspace.conflicted == None || c.workspace.conflicted == Some([]))
  }

  /** Branch, HEAD and all changed files are those of the baseline. */
  predicate SameChanges(b: Workspace, c: Workspace) {
    && c.branch == b.branch && c.detached == b.detached && c.head == b.head && c.digest == b.digest
    && c.tracked == b.tracked && c.untracked == b.untracked && c.conflicted == b.conflicted
  }

  /** The checkpoint was read and shows the work tree as it is now. */
  predicate CheckpointAgrees(checkpoint: Option<Context>, c: Workspace) {
    && checkpoint.Some?
    && var k := checkpoint.value.workspace;
    && TreeRead(k)
    && k.normalizedPath == c.normalizedPath && k.isGit == c.isGit && k.workTree == c.workTree && k.identity == c.identity
    && k.branch == c.branch && k.detached == c.detached && k.head == c.head && k.digest == c.digest
    && k.conflicted == c.conflicted
  }

  /** When the agent may run without a confirmation. */
  predicate Allowed(baseline: Option<Context>, c: Context, checkpoint: Option<Context>) {
    && baseline.Some? && ContextRead(baseline.value) && ContextRead(c) && SameWork(baseline.value, c)
    && c.generationProvider == baseline.value.generationProvider && c.executionProvider == baseline.value.executionProvider
    && c.settings.canonical == baseline.value.settings.canonical
    && (SameChanges(baseline.value.workspace, c.workspace) || CheckpointAgrees(checkpoint, c.workspace))
  }

  lemma DigestIsSha256(s: string)
    ensures Digest(s) <==> IsSha256(s)
  {
  }

  lemma TreeReadIsValid(w: Workspace)
    ensures TreeRead(w) <==> ValidWorkspace(w)
  {
    hide IsSha256, Digest, Trim;
    DigestIsSha256(w.digest);
  }

  lemma ContextReadIsValid(c: Context)
    ensures ContextRead(c) <==> ValidContext(c)
  {
    hide IsSha256, Digest, Trim, ValidWorkspace, TreeRead;
    DigestIsSha256(c.requirementDigest);
    DigestIsSha256(c.planSpecDigest);
    TreeReadIsValid(c.workspace);
  }

  lemma CheckpointVouches(checkpoint: Option<Context>, c: Workspace)
    ensures CheckpointAgrees(checkpoint, c) <==> Vouched(c, UsableCheckpoint(checkpoint))
  {
    hide ValidWorkspace, TreeRead;
    if checkpoint.Some? {
      TreeReadIsValid(checkpoint.value.workspace);
    }
  }

  /** The drift gate. A report must block exactly when a context was not read, or the work is not that of
      the baseline; the agent may run without confirmation exactly when moreover providers and settings
      are the same and the changed files are those of the baseline or of a checkpoint that was read; and
      nothing at all is reported exactly when nothing differs. */
  lemma GateIs(baseline: Option<Context>, c: Context, checkpoint: Option<Context>, r: Report)
    requires IsReport(r, AllDiffs(baseline, c, checkpoint), c)
    ensures r.severity == MustBlock <==>
      !(baseline.Some? && ContextRead(baseline.value) && ContextRead(c) && SameWork(baseline.value, c))
    ensures r.cliAllowed <==> Allowed(baseline, c, checkpoint)
    ensures r.severity == Clean <==>
      && Allowed(baseline, c, checkpoint) && SameChanges(baseline.value.workspace, c.workspace)
      && c.capturedAt == baseline.value.capturedAt && c.planResourceVersion == baseline.value.planResourceVersion
      && c.projectVersion == baseline.value.projectVersion && c.configVersion == baseline.value.configVersion
  {
    hide Reaches, ValidContext, ContextRead, AllDiffs, CheckpointAgrees, Vouched, UsableCheckpoint;
    var ds := AllDiffs(baseline, c, checkpoint);
    ContextReadIsValid(c);
    if baseline.Some? {
      ContextReadIsValid(baseline.value);
    }
    CheckpointVouches(checkpoint, c.workspace);
    ReportReaches(r, ds, c, 1);
    ReportReaches(r, ds, c, 2);
    ReportReaches(r, ds, c, 3);
    ContextsReach(baseline, c, checkpoint, 1);
    ContextsReach(baseline, c, checkpoint, 2);
    ContextsReach(baseline, c, checkpoint, 3);
    assert (r.severity == MustBlock <==> Rank(r.severity) >= 3) && (r.severity == Clean <==> !(Rank(r.severity) >= 1))
      && (r.cliAllowed <==> !(Rank(r.severity) >= 2));
  }

  // ---- the fingerprint --------------------------------------------------------------------

  lemma BeforeOrder(x: Difference, y: Difference, z: Difference)
    ensures ReportedBefore(x, y) && ReportedBefore(y, z) ==> ReportedBefore(x, z)
    ensures ReportedBefore(x, y) ==> !ReportedBefore(y, x)
    ensures !ReportedBefore(x, y) && ReportedBefore(x, z) ==> ReportedBefore(y, z) || (y.field == x.field && y.severity == x.severity && y.reason == x.reason)
  {
    hide Less;
    LessOrder(x.field, y.field, z.field);
    LessOrder(x.reason, y.reason, z.reason);
  }

  lemma LessOrder(x: string, y: string, z: string)
    ensures Less(x, y) && Less(y, z) ==> Less(x, z)
    ensures Less(x, y) || Less(y, x) || x == y
    ensures !(Less(x, y) && Less(y, x)) && !Less(x, x)
    ensures Less(y, x) && Less(x, z) ==> Less(y, z)
  {
    LessTotal(x, y);
    if Less(x, y) && Less(y, z) {
      LessTrans(x, y, z);
    }
    if Less(y, x) && Less(x, z) {
      LessTrans(y, x, z);
    }
  }

  predicate ReportInOrder(ds: seq<Difference>) {
    forall i, j | 0 <= i < j < |ds| :: !ReportedBefore(ds[j], ds[i])
  }

  lemma {:induction false} InsertKeepsOrder(ds: seq<Difference>, d: Difference)
    requires ReportInOrder(ds)
    ensures ReportInOrder(InsertDiff(ds, d))
  {
    hide ReportedBefore;
    if ds == [] {
    } else {
      var n := |ds| - 1;
      var last := ds[n];
      if ReportedBefore(d, last) {
        InsertKeepsOrder(ds[..n], d);
        InsertedSame(ds[..n], d);
        var t := InsertDiff(ds[..n], d);
        forall i | 0 <= i < |t| ensures !ReportedBefore(last, t[i]) {
          assert t[i] in t;
          BeforeOrder(d, last, last);
        }
      } else {
        forall i | 0 <= i < n ensures !ReportedBefore(d, ds[i]) {
          BeforeOrder(d, ds[i], last);
          BeforeOrder(d, last, ds[i]);
          assert !ReportedBefore(last, ds[i]);
          NotBeforeEarlier(d, last, ds[i]);
        }
      }
    }
  }

  /** What does not come before a later entry does not come before an earlier one. */
  lemma NotBeforeEarlier(d: Difference, last: Difference, early: Difference)
    requires !ReportedBefore(d, last) && !ReportedBefore(last, early)
    ensures !ReportedBefore(d, early)
  {
    hide Less;
    LessOrder(d.field, last.field, early.field);
    LessOrder(last.field, early.field, d.field);
    LessOrder(d.reason, last.reason, early.reason);
    LessOrder(last.reason, early.reason, d.reason);
    LessOrder(early.field, d.field, last.field);
    LessOrder(early.reason, d.reason, last.reason);
  }

  lemma {:induction false} SortedInOrder(ds: seq<Difference>)
    ensures ReportInOrder(SortedDiffs(ds))
  {
    if ds == [] {
    } else {
      SortedInOrder(ds[..|ds| - 1]);
      InsertKeepsOrder(SortedDiffs(ds[..|ds| - 1]), ds[|ds| - 1]);
    }
  }

  lemma {:induction false} BlockingMembers(ds: seq<Difference>)
    ensures forall x | x in Blocking(ds) :: x in ds
  {
    if ds == [] {
    } else {
      BlockingMembers(ds[..|ds| - 1]);
    }
  }

  lemma {:induction false} BlockingChosen(ds: seq<Difference>)
    ensures forall x :: x in Blocking(ds) <==> x in ds && (x.severity == NeedsConfirmation || x.severity == MustBlock)
  {
    if ds == [] {
    } else {
      BlockingChosen(ds[..|ds| - 1]);
      assert ds == ds[..|ds| - 1] + [ds[|ds| - 1]];
    }
  }

  /** A report lists every difference by field, the graver one first, then by reason; its fingerprint has
      those among them that block or need a confirmation. */
  lemma ReportLists(r: Report, ds: seq<Difference>, c: Context)
    requires IsReport(r, ds, c)
    ensures |r.differences| == |ds| && forall x :: x in r.differences <==> x in ds
    ensures forall i, j | 0 <= i < j < |ds| :: var x, y := r.differences[i], r.differences[j];
      && !Less(y.field, x.field)
      && (x.field == y.field ==> Rank(x.severity) >= Rank(y.severity) && (x.severity == y.severity ==> !Less(y.reason, x.reason)))
    ensures forall x :: x in r.fingerprint.differences <==>
      x in ds && (x.severity == NeedsConfirmation || x.severity == MustBlock)
  {
    hide SortedDiffs, Blocking, Less;
    SortedSame(ds);
    SortedInOrder(ds);
    BlockingChosen(SortedDiffs(ds));
    forall i, j | 0 <= i < j < |ds| {
      LessTotal(r.differences[i].field, r.differences[j].field);
    }
  }

  /** Choosing the blocking entries and inserting in order commute. */
  lemma {:induction false} InsertThenChoose(ds: seq<Difference>, d: Difference)
    requires ReportInOrder(ds)
    ensures Blocking(InsertDiff(ds, d)) == if Blocks(d) then InsertDiff(Blocking(ds), d) else Blocking(ds)
  {
    hide ReportedBefore;
    if ds == [] {
      assert InsertDiff(ds, d) == [d] && [d][..0] == [];
    } else if ReportedBefore(d, ds[|ds| - 1]) {
      InsertThenChoose(ds[..|ds| - 1], d);
      ChooseBelow(ds, d);
    } else {
      ChooseAtEnd(ds, d);
    }
  }

  lemma ChooseBelow(ds: seq<Difference>, d: Difference)
    requires ds != [] && ReportedBefore(d, ds[|ds| - 1])
    requires var front := ds[..|ds| - 1];
      Blocking(InsertDiff(front, d)) == if Blocks(d) then InsertDiff(Blocking(front), d) else Blocking(front)
    ensures Blocking(InsertDiff(ds, d)) == if Blocks(d) then InsertDiff(Blocking(ds), d) else Blocking(ds)
  {
    hide ReportedBefore, Blocks;
    var last := ds[|ds| - 1];
    var t := InsertDiff(ds[..|ds| - 1], d);
    assert (t + [last])[..|t|] == t;
    var u := Blocking(ds[..|ds| - 1]);
    assert (u + [last])[..|u|] == u && u + [] == u && Blocking(t) + [] == Blocking(t);
  }

  lemma ChooseAtEnd(ds: seq<Difference>, d: Difference)
    requires ds != [] && ReportInOrder(ds) && !ReportedBefore(d, ds[|ds| - 1])
    ensures Blocking(InsertDiff(ds, d)) == if Blocks(d) then InsertDiff(Blocking(ds), d) else Blocking(ds)
  {
    hide ReportedBefore;
    var last := ds[|ds| - 1];
    assert (ds + [d])[..|ds|] == ds && Blocking(ds) + [] == Blocking(ds);
    var u := Blocking(ds);
    if u != [] {
      BlockingMembers(ds);
      assert u[|u| - 1] in ds;
      var i :| 0 <= i < |ds| && ds[i] == u[|u| - 1];
      if i < |ds| - 1 {
        NotBeforeEarlier(d, last, ds[i]);
      }
    }
  }

  /** The blocking part of a sorted report does not depend on what else was reported. */
  lemma {:induction false} SortThenChoose(ds: seq<Difference>)
    ensures Blocking(SortedDiffs(ds)) == SortedDiffs(Blocking(ds))
  {
    hide InsertDiff, ReportedBefore;
    if ds == [] {
    } else {
      var n := |ds| - 1;
      SortThenChoose(ds[..n]);
      SortedInOrder(ds[..n]);
      InsertThenChoose(SortedDiffs(ds[..n]), ds[n]);
      var u := Blocking(ds[..n]);
      assert (u + [ds[n]])[..|u|] == u && u + [] == u;
    }
  }

  lemma {:induction false} BlockingAppend(x: seq<Difference>, y: seq<Difference>)
    ensures Blocking(x + y) == Blocking(x) + Blocking(y)
  {
    if y == [] {
      assert x + y == x;
    } else {
      BlockingAppend(x, y[..|y| - 1]);
      assert (x + y)[..|x + y| - 1] == x + y[..|y| - 1];
    }
  }

  /** The same context, captured at another time and after the server rows moved on. */
  predicate MovedOn(b: Context, c: Context, d: Context) {
    && d == c.(capturedAt := d.capturedAt, planResourceVersion := d.planResourceVersion,
               projectVersion := d.projectVersion, configVersion := d.configVersion)
    && NotBackwards(b, c) && NotBackwards(b, d) && ValidContext(c) && ValidContext(d)
  }

  lemma QuietDiffs(b: Context, c: Context)
    requires NotBackwards(b, c)
    ensures Blocking(TimeDiffs(b, c)) == [] && Blocking(VersionDiffs(b, c)) == []
  {
    hide Reaches, Blocking, TimeDiffs, VersionDiffs;
    VersionsReach(b, c, 2);
    TimeReaches(b, c, 2);
    NoneBlocking(TimeDiffs(b, c));
    NoneBlocking(VersionDiffs(b, c));
  }

  lemma {:induction false} NoneBlocking(ds: seq<Difference>)
    ensures !Reaches(ds, 2) ==> Blocking(ds) == []
  {
    if ds == [] {
    } else {
      NoneBlocking(ds[..|ds| - 1]);
    }
  }

  /** The fingerprint ignores capture time and forward server versions. */
  lemma FingerprintStays(b: Context, c: Context, d: Context, checkpoint: Option<Context>, r: Report, s: Report)
    requires MovedOn(b, c, d)
    requires IsReport(r, AllDiffs(Some(b), c, checkpoint), c) && IsReport(s, AllDiffs(Some(b), d, checkpoint), d)
    ensures r.fingerprint == s.fingerprint && r.cliAllowed == s.cliAllowed
  {
    hide AllDiffs, Blocking, SortedDiffs, ValidContext, SameDirtyState, Vouched, UsableCheckpoint, SameRepository, Conflicts;
    GateIs(Some(b), c, checkpoint, r);
    GateIs(Some(b), d, checkpoint, s);
    SortThenChoose(AllDiffs(Some(b), c, checkpoint));
    SortThenChoose(AllDiffs(Some(b), d, checkpoint));
    SameBlocking(b, c, d, checkpoint);
  }

  /** And it tells apart whatever else differs: contexts with one fingerprint agree in every field that
      matters to the agent. */
  lemma FingerprintTells(c: Context, d: Context, ds: seq<Difference>, es: seq<Difference>, r: Report, s: Report)
    requires IsReport(r, ds, c) && IsReport(s, es, d) && r.fingerprint == s.fingerprint
    ensures forall x: Difference | x.severity == NeedsConfirmation || x.severity == MustBlock :: x in ds <==> x in es
    ensures c.requirementId == d.requirementId && c.requirementVersion == d.requirementVersion
    ensures c.requirementDigest == d.requirementDigest
    ensures c.planId == d.planId && c.planContentVersion == d.planContentVersion && c.planSpecDigest == d.planSpecDigest
    ensures c.settings.canonical == d.settings.canonical
    ensures c.generationProvider == d.generationProvider && c.executionProvider == d.executionProvider
    ensures var v, w := c.workspace, d.workspace;
      && v.configuredPath == w.configuredPath && v.normalizedPath == w.normalizedPath && v.workTree == w.workTree
      && v.identity == w.identity && v.branch == w.branch && v.detached == w.detached && v.head == w.head
      && v.digest == w.digest && v.conflicted == w.conflicted
  {
    hide IsReport;
    ReportLists(r, ds, c);
    ReportLists(s, es, d);
    SameFields(r, s, ds, es, c, d);
  }

  lemma SameFields(r: Report, s: Report, ds: seq<Difference>, es: seq<Difference>, c: Context, d: Context)
    requires IsReport(r, ds, c) && IsReport(s, es, d) && r.fingerprint == s.fingerprint
    ensures StableFields(c) == StableFields(d)
  {
  }

  lemma SameBlocking(b: Context, c: Context, d: Context, checkpoint: Option<Context>)
    requires MovedOn(b, c, d)
    ensures Blocking(AllDiffs(Some(b), c, checkpoint)) == Blocking(AllDiffs(Some(b), d, checkpoint))
  {
    hide Blocking, ValidContext;
    if ValidContext(b) {
      BlockingParts(b, c, checkpoint);
      BlockingParts(b, d, checkpoint);
      SameParts(b, c, d);
    }
  }

  lemma SameParts(b: Context, c: Context, d: Context)
    requires MovedOn(b, c, d)
    ensures IdentityDiffs(b, c) == IdentityDiffs(b, d) && ContentDiffs(b, c) == ContentDiffs(b, d)
    ensures ProviderDiffs(b, c) == ProviderDiffs(b, d)
  {
    hide DiffWhen, TextDiff, ValidContext, NotBackwards;
  }

  /** The blocking entries come from the parts that neither time nor forward versions touch. */
  lemma BlockingParts(b: Context, c: Context, checkpoint: Option<Context>)
    requires NotBackwards(b, c) && ValidContext(c)
    requires ValidContext(b)
    ensures Blocking(AllDiffs(Some(b), c, checkpoint)) ==
      Blocking(IdentityDiffs(b, c)) + Blocking(ContentDiffs(b, c)) + Blocking(ProviderDiffs(b, c))
      + Blocking(WorkspaceDiffs(b.workspace, c.workspace, UsableCheckpoint(checkpoint)))
  {
    hide IdentityDiffs, ContentDiffs, ProviderDiffs, WorkspaceDiffs, TimeDiffs, VersionDiffs, ValidContext, UsableCheckpoint, Blocking;
    QuietDiffs(b, c);
    var t, i, k, v := TimeDiffs(b, c), IdentityDiffs(b, c), ContentDiffs(b, c), VersionDiffs(b, c);
    var p, w := ProviderDiffs(b, c), WorkspaceDiffs(b.workspace, c.workspace, UsableCheckpoint(checkpoint));
    BlockingAppend(t + i + k + v + p, w);
    BlockingAppend(t + i + k + v, p);
    BlockingAppend(t + i + k, v);
    BlockingAppend(t + i, k);
    BlockingAppend(t, i);
  }
}
