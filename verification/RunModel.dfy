/** The daemon's records: a run's registry entry, a queued run, and the parts of
    the file system the registry consults. Modelled on src/daemon/registry.rs and
    src/daemon/protocol.rs. */
module RunModel {
  import opened Prelude

  type RunId = string
  type Path = string
  type RepoKey = string
  type Instant = int

  datatype RunStatus = Queued | Running | Succeeded | Failed | Stopped {
    predicate IsTerminal() {
      Succeeded? || Failed? || Stopped?
    }
  }

  datatype RunEntry = RunEntry(
    runId: RunId,
    planPath: Path,
    repoDir: Path,
    sessionName: string,
    tmuxSession: Option<string>,
    status: RunStatus,
    currentPhase: Option<string>,
    startedAt: Instant,
    finishedAt: Option<Instant>,
    crashRestarts: nat,
    configDir: Option<Path>,
    errorMessage: Option<string>,
    restartable: bool,
    claudePid: Option<nat>,
    scheduleId: Option<string>,
    lastRecoveryAt: Option<Instant>,
    writeEpoch: nat)

  datatype PendingRun = PendingRun(
    runId: RunId,
    planPath: Path,
    repoDir: Path,
    sessionName: Option<string>,
    configDir: Option<Path>,
    verbose: nat,
    queuedAt: Instant)

  /** What the registry asks of the file system. `canonicalize` already includes
      the source's fallback to the path itself; `hash` stands for the truncated
      SHA-256 of the canonical path. */
  datatype Env = Env(
    canonicalize: Path -> Path,
    hash: Path -> RepoKey,
    isAbsolute: Path -> bool,
    join: (Path, Path) -> Path,
    fileName: Path -> Option<string>)

  /** A file system in which every path is its own canonical form and key. */
  const PLAIN := Env((p: Path) => p, (p: Path) => p, (p: Path) => true, (r: Path, p: Path) => p, (p: Path) => Some(p))

  function RepoHash(env: Env, repo: Path): RepoKey {
    env.hash(env.canonicalize(repo))
  }

  function NormalizePlan(env: Env, plan: Path, repo: Path): Path {
    env.canonicalize(if env.isAbsolute(plan) then plan else env.join(repo, plan))
  }

  /** Two references to a plan under one repository name the same plan: same
      normalized path, or same (present) base name. */
  predicate PlansMatch(env: Env, a: Path, b: Path, repo: Path) {
    var na, nb := NormalizePlan(env, a, repo), NormalizePlan(env, b, repo);
    na == nb || (env.fileName(na) == env.fileName(nb) && env.fileName(na).Some?)
  }

  function SessionFor(id: RunId): string {
    "gw-" + id
  }

  lemma SessionForInjective(a: RunId, b: RunId)
    requires SessionFor(a) == SessionFor(b)
    ensures a == b
  {
    assert a == SessionFor(a)[3..];
    assert b == SessionFor(b)[3..];
  }

  /** For a fixed repository, plan matching is an equivalence, in spite of the
      base-name fallback. */
  lemma PlansMatchEquivalence(env: Env, repo: Path, a: Path, b: Path, c: Path)
    ensures PlansMatch(env, a, a, repo)
    ensures PlansMatch(env, a, b, repo) == PlansMatch(env, b, a, repo)
    ensures PlansMatch(env, a, b, repo) && PlansMatch(env, b, c, repo) ==> PlansMatch(env, a, c, repo)
  {
  }

  /** Paths are compared in canonical form, relative ones within the repository;
      plans of one path match, and so do plans of one present base name. */
  lemma PlansMatchByName(env: Env, repo: Path, a: Path, b: Path, at: Path, bt: Path)
    requires at == env.canonicalize(if env.isAbsolute(a) then a else env.join(repo, a))
    requires bt == env.canonicalize(if env.isAbsolute(b) then b else env.join(repo, b))
    ensures at == bt ==> PlansMatch(env, a, b, repo)
    ensures env.fileName(at).Some? && env.fileName(bt) == env.fileName(at) ==> PlansMatch(env, a, b, repo)
    ensures at != bt && (env.fileName(at).None? || env.fileName(bt) != env.fileName(at)) ==> !PlansMatch(env, a, b, repo)
  {
  }

  /** Two spellings of one directory share their key, and two directories do only
      if their canonical forms hash alike. */
  lemma OneDirectoryOneKey(env: Env, a: Path, b: Path)
    ensures env.canonicalize(a) == env.canonicalize(b) ==> RepoHash(env, a) == RepoHash(env, b)
    ensures env.hash(env.canonicalize(a)) != env.hash(env.canonicalize(b)) ==> RepoHash(env, a) != RepoHash(env, b)
  {
  }
}
