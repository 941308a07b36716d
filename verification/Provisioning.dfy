// Crash-resumable provisioning: the state file, the app's directory and its repository, the cluster's
// roles, the environment Coolify holds and the one the containers run with, and every state a run of
// the steps passes through.
module Provisioning {
  import opened Wrappers

  datatype StepName = Template | Install | Repo | Backup | Sentry | Langfuse | Dns | Database | Coolify | Deploy

  const STEPS: seq<StepName> := [Template, Install, Repo, Backup, Sentry, Langfuse, Dns, Database, Coolify, Deploy]

  // Passwords, tokens, the auth secret and commits are values no two draws of which are equal.
  type Secret = nat

  /** What `secretsHash` covers. SHA-256 is taken to keep its inputs apart, so a hash is its input. */
  datatype Secrets = Secrets(migrator: Option<Secret>, application: Option<Secret>, readonly: Option<Secret>,
                             auth: Option<Secret>, readToken: Option<Secret>, writeToken: Option<Secret>)

  /**
   * `fetched` and `began`: the file says that a template was fetched into the scratch directory, and
   * that it was to be renamed to the app's. `repo` and `uuid`: it names the repository, and Coolify's
   * application.
   */
  datatype File = File(done: set<StepName>, secrets: Secrets, hash: Option<Secrets>,
                       fetched: bool, began: bool, repo: bool, uuid: bool)

  /** The app's directory: `ours` is a substituted template under the app's name, `head` its commit. */
  datatype Dir = Absent | Present(ours: bool, head: Option<Secret>)

  /** The repository's `main`. */
  datatype Main = NoRepository | NoCommit | At(commit: Secret)

  /** The passwords the cluster accepts; `None` for a role that does not exist. */
  datatype Cluster = Cluster(migrator: Option<Secret>, application: Option<Secret>, readonly: Option<Secret>)

  /** The secrets an environment carries. */
  datatype Env = Env(migrator: Option<Secret>, application: Option<Secret>, auth: Option<Secret>)

  /**
   * `scratch`: the scratch directory is there. `barred`: steps refused for a record somebody else
   * holds, as `dns` and `sentry` can be. `app`: Coolify has the application.
   */
  datatype World = World(file: File, dir: Dir, scratch: bool, main: Main, barred: set<StepName>, cluster: Cluster,
                         app: bool, patched: Option<Env>, deployed: Option<Env>, next: Secret)

  const NO_SECRETS := Secrets(None, None, None, None, None, None)

  function Empty(): File { File({}, NO_SECRETS, None, false, false, false, false) }

  function EnvOf(s: Secrets): Env { Env(s.migrator, s.application, s.auth) }

  /** `envsAreCurrent`. */
  predicate Current(f: File) { f.hash == Some(f.secrets) }

  function Marked(w: World, step: StepName): World { w.(file := w.file.(done := w.file.done + {step})) }

  function Cleared(w: World, step: StepName): World { w.(file := w.file.(done := w.file.done - {step})) }

  function Last(w: World, trace: seq<World>): World { if trace == [] then w else trace[|trace| - 1] }

  // ----- the steps, effect by effect -----

  /**
   * The `template` step adopts a directory only if the file vouches for it. It clears a scratch
   * directory only if the file vouches for that, and says what it is about to do before it does it.
   */
  function TemplateTrace(w: World): (seq<World>, bool) {
    if w.dir.Present? then ([], w.file.began && w.dir.ours)
    else if w.scratch && !w.file.fetched then ([], false)
    else
      var w1 := w.(scratch := false);
      var w2 := w1.(file := w.file.(fetched := true));
      var w3 := w2.(scratch := true);
      var w4 := w3.(file := w2.file.(began := true));
      ([w1, w2, w3, w4, w4.(dir := Present(true, None), scratch := false)], true)
  }

  /** The `install` step makes the first commit, or adopts the one that is there. */
  function InstallTrace(w: World): (seq<World>, bool) {
    match w.dir
    case Absent => ([], false)
    case Present(_, Some(_)) => ([], true)
    case Present(ours, None) => ([w.(dir := Present(ours, Some(w.next)), next := w.next + 1)], true)
  }

  /** The `repo` step pushes into a repository it finds empty or makes, and adopts one at this commit. */
  function RepoTrace(w: World): (seq<World>, bool) {
    if w.dir.Absent? || w.dir.head.None? then ([], false)
    else
      var pushed := w.(main := At(w.dir.head.value));
      var named := pushed.(file := w.file.(repo := true));
      match w.main
      case NoRepository => ([w.(main := NoCommit), pushed, named], true)
      case NoCommit => ([pushed, named], true)
      case At(commit) => if commit == w.dir.head.value then ([named], true) else ([], false)
  }

  function Or(x: Option<Secret>, fallback: Secret): Secret { if x.Some? then x.value else fallback }

  /** `provisionDatabase`: the three roles first, then the file, then the record. */
  function DatabaseTrace(w: World): seq<World> {
    var s := w.file.secrets;
    if Database in w.file.done && s.migrator.Some? && s.application.Some? then []
    else
      var m, a, r := Or(s.migrator, w.next), Or(s.application, w.next + 1), Or(s.readonly, w.next + 2);
      var w1 := w.(cluster := w.cluster.(migrator := Some(m)), next := w.next + 3);
      var w2 := w1.(cluster := w1.cluster.(application := Some(a)));
      var w3 := w2.(cluster := w2.cluster.(readonly := Some(r)));
      var w4 := w3.(file := w.file.(secrets := s.(migrator := Some(m), application := Some(a), readonly := Some(r))));
      [w1, w2, w3, w4, Marked(w4, Database)]
  }

  /** The roles, one after the other, and what is stored of them. */
  function RolesTrace(w: World, m: Secret, a: Secret, r: Secret): seq<World> {
    var w1 := w.(cluster := w.cluster.(migrator := Some(m)));
    var w2 := w1.(cluster := w1.cluster.(application := Some(a)));
    [w1, w2, w2.(cluster := w2.cluster.(readonly := Some(r)))]
  }

  function StoredTrace(w: World, m: Secret, a: Secret, r: Secret): seq<World> {
    var s := w.file.secrets.(migrator := Some(m), application := Some(a), readonly := Some(r));
    var w1 := w.(file := w.file.(secrets := s));
    [w1, Marked(w1, Database)]
  }

  lemma DatabaseTraceSplits(w: World)
    requires DatabaseTrace(w) != []
    ensures var s, w' := w.file.secrets, w.(next := w.next + 3);
            var m, a, r := Or(s.migrator, w.next), Or(s.application, w.next + 1), Or(s.readonly, w.next + 2);
            DatabaseTrace(w) == RolesTrace(w', m, a, r) + StoredTrace(Last(w', RolesTrace(w', m, a, r)), m, a, r)
  {
  }

  /** A run without a password to reuse, against roles that are there already. */
  predicate Rotates(w: World) {
    (w.file.secrets.migrator.None? || w.file.secrets.application.None?) &&
    (w.cluster.migrator.Some? || w.cluster.application.Some?)
  }

  predicate HasPasswords(f: File) { f.secrets.migrator.Some? && f.secrets.application.Some? }

  /** The application is found by its name, or created from the repository the file names. */
  predicate Nameable(w: World) { w.app || w.file.repo }

  function WithAuth(w: World): World {
    if w.file.secrets.auth.Some? then w
    else w.(file := w.file.(secrets := w.file.secrets.(auth := Some(w.next))), next := w.next + 1)
  }

  function WithTokens(w: World): World {
    if w.file.secrets.readToken.Some? then w
    else w.(file := w.file.(secrets := w.file.secrets.(readToken := Some(w.next), writeToken := Some(w.next + 1))),
            next := w.next + 2)
  }

  /** The rest of the `coolify` step: the application, its uuid, the PATCH, the tokens, and the hash last. */
  function ApplicationTrace(w: World): seq<World> {
    var w1 := w.(app := true);
    var w2 := w1.(file := w1.file.(uuid := true));
    var w3 := w2.(patched := Some(EnvOf(w2.file.secrets)));
    var w4 := WithTokens(w3);
    var w5 := w4.(file := w4.file.(hash := Some(w4.file.secrets)));
    [w1, w2, w3, w4, w5]
  }

  /** It reads what the app needs out of the app's directory, once the auth secret is made. */
  function CoolifyTrace(w: World): (seq<World>, bool) {
    if !HasPasswords(w.file) then ([], false)
    else
      var w1 := WithAuth(w);
      if w.dir.Present? && Nameable(w1) then ([w1] + ApplicationTrace(w1), true) else ([w1], false)
  }

  /** The `deploy` step publishes the directory's commit. */
  predicate Deployable(w: World) {
    w.file.uuid && w.file.secrets.readToken.Some? && w.dir.Present? && w.dir.head.Some?
  }

  /** What one step does, and whether it gets through. */
  function StepTrace(w: World, step: StepName): (seq<World>, bool) {
    match step
    case Template => TemplateTrace(w)
    case Install => InstallTrace(w)
    case Repo => RepoTrace(w)
    case Database => (DatabaseTrace(w), true)
    case Coolify => CoolifyTrace(w)
    case Deploy => if Deployable(w) then ([w.(deployed := w.patched)], true) else ([], false)
    case _ => ([], step !in w.barred)
  }

  /** `invalidateStaleSecretSteps`. */
  function InvalidateTrace(w: World): seq<World> {
    if Current(w.file) then []
    else
      var first := if Coolify in w.file.done then [Cleared(w, Coolify)] else [];
      var between := Last(w, first);
      first + if Deploy in between.file.done then [Cleared(between, Deploy)] else []
  }

  /** The loop of `runSteps`: recorded steps are skipped, a step is recorded once it got through. */
  function LoopTrace(w: World, steps: seq<StepName>): (seq<World>, bool)
    decreases |steps|
  {
    if steps == [] then ([], true)
    else if steps[0] in w.file.done then LoopTrace(w, steps[1..])
    else
      var (trace, through) := StepTrace(w, steps[0]);
      if !through then (trace, false)
      else
        var marked := Marked(Last(w, trace), steps[0]);
        var (rest, all) := LoopTrace(marked, steps[1..]);
        (trace + [marked] + rest, all)
  }

  datatype Outcome = Returned | StepFailed | Violated

  predicate InOrder(steps: seq<StepName>) {
    forall i, j | 0 <= i < j < |steps| :: Position(steps[i]) < Position(steps[j])
  }

  function Position(step: StepName): nat {
    match step
    case Template => 0 case Install => 1 case Repo => 2 case Backup => 3 case Sentry => 4
    case Langfuse => 5 case Dns => 6 case Database => 7 case Coolify => 8 case Deploy => 9
  }

  function RunTrace(w: World, steps: seq<StepName>): seq<World> {
    if !InOrder(steps) then []
    else
      var cleared := InvalidateTrace(w);
      cleared + LoopTrace(Last(w, cleared), steps).0
  }

  /** The database step of the loop gave an existing role a new password. */
  predicate LoopRotates(w: World, steps: seq<StepName>)
    decreases |steps|
  {
    steps != [] &&
    if steps[0] in w.file.done then LoopRotates(w, steps[1..])
    else
      (steps[0] == Database && Rotates(w)) ||
      (StepTrace(w, steps[0]).1 && LoopRotates(Marked(Last(w, StepTrace(w, steps[0]).0), steps[0]), steps[1..]))
  }

  function RunOutcome(w: World, steps: seq<StepName>): Outcome {
    var start, end := Last(w, InvalidateTrace(w)), Last(w, RunTrace(w, steps));
    var current := Coolify in end.file.done && Current(end.file);
    if !InOrder(steps) then Violated
    else if !LoopTrace(start, steps).1 then StepFailed
    else if Coolify in end.file.done && !Current(end.file) then Violated
    else if LoopRotates(start, steps) && !current then Violated
    else Returned
  }

  // ----- histories: runs that crash anywhere, and files that lose anything -----

  /** The file lost some of what it held, or all of it. */
  predicate Loses(f: File, g: File) {
    g.done <= f.done && (g.hash == f.hash || g.hash.None?) &&
    (g.fetched ==> f.fetched) && (g.began ==> f.began) && (g.repo ==> f.repo) && (g.uuid ==> f.uuid) &&
    Kept(f.secrets.migrator, g.secrets.migrator) && Kept(f.secrets.application, g.secrets.application) &&
    Kept(f.secrets.readonly, g.secrets.readonly) && Kept(f.secrets.auth, g.secrets.auth) &&
    Kept(f.secrets.readToken, g.secrets.readToken) && Kept(f.secrets.writeToken, g.secrets.writeToken)
  }

  predicate Kept(x: Option<Secret>, y: Option<Secret>) { y == x || y.None? }

  datatype Happening =
    | Ran(steps: seq<StepName>, crash: Option<nat>)  // crashed after so many effects, or ran to its end
    | Lost(left: File)
    | Touched(dir: Dir, scratch: bool, main: Main, barred: set<StepName>, drawn: nat)  // by the operator, or by others

  function After(w: World, h: Happening): World {
    match h
    case Ran(steps, crash) =>
      var trace := RunTrace(w, steps);
      if crash.Some? && crash.value < |trace| then Last(w, trace[..crash.value]) else Last(w, trace)
    case Lost(left) => if Loses(w.file, left) then w.(file := left) else w
    case Touched(dir, scratch, main, barred, drawn) =>
      var w' := w.(dir := dir, scratch := scratch, main := main, barred := barred, next := w.next + drawn);
      if CommitsDrawn(w') then w' else w
  }

  /** Every commit there is has been made. */
  predicate CommitsDrawn(w: World) {
    (w.dir.Present? ==> Drawn(w.dir.head, w.next)) && (w.main.At? ==> w.main.commit < w.next)
  }

  function History(happenings: seq<Happening>): World
    decreases |happenings|
  {
    if happenings == [] then World(Empty(), Absent, false, NoRepository, {}, Cluster(None, None, None), false, None, None, 0)
    else After(History(happenings[..|happenings| - 1]), happenings[|happenings| - 1])
  }

  // ----- what every state keeps -----

  predicate Accepts(cluster: Option<Secret>, stored: Option<Secret>) { stored.Some? ==> cluster == stored }

  /** Throughout, a password in the file is one the cluster accepts. */
  predicate FileIsAccepted(w: World) {
    Accepts(w.cluster.migrator, w.file.secrets.migrator) &&
    Accepts(w.cluster.application, w.file.secrets.application) &&
    Accepts(w.cluster.readonly, w.file.secrets.readonly)
  }

  predicate Drawn(x: Option<Secret>, next: Secret) { x.Some? ==> x.value < next }

  predicate AllDrawn(s: Secrets, next: Secret) {
    Drawn(s.migrator, next) && Drawn(s.application, next) && Drawn(s.readonly, next) &&
    Drawn(s.auth, next) && Drawn(s.readToken, next) && Drawn(s.writeToken, next)
  }

  /** A recorded hash tells what Coolify holds, or the file has moved on from it for good. */
  predicate HashOk(w: World) {
    w.file.hash.Some? ==>
      var h := w.file.hash.value;
      h.migrator.Some? && h.application.Some? && h.auth.Some? && h.readToken.Some? && AllDrawn(h, w.next) &&
      (w.patched == Some(EnvOf(h)) || EnvOf(w.file.secrets) != EnvOf(h))
  }

  /** A recorded deploy published what Coolify still holds. */
  predicate DeployOk(w: World) {
    Deploy in w.file.done ==> w.patched.Some? && w.deployed == w.patched
  }

  /** Whatever the `coolify` step leaves in the file, the application is there and was PATCHed first. */
  predicate AppOk(w: World) {
    (w.file.secrets.readToken.Some? || w.file.hash.Some? || Coolify in w.file.done ==> w.patched.Some?) &&
    (w.file.uuid || w.patched.Some? ==> w.app)
  }

  predicate Sound(w: World) {
    FileIsAccepted(w) && AllDrawn(w.file.secrets, w.next) && HashOk(w) && DeployOk(w) && AppOk(w) &&
    CommitsDrawn(w)
  }

  ghost predicate AllSound(trace: seq<World>) { forall i {:trigger trace[i]} | 0 <= i < |trace| :: Sound(trace[i]) }

  /** Past the invalidation, a deploy still recorded is of the secrets the file holds. */
  predicate Settled(w: World) {
    Deploy in w.file.done ==> w.file.hash.Some? && EnvOf(w.file.hash.value) == EnvOf(w.file.secrets)
  }

  lemma DatabaseKeepsSound(w: World)
    requires Sound(w)
    ensures AllSound(DatabaseTrace(w))
    ensures var w' := Last(w, DatabaseTrace(w)); HasPasswords(w'.file) && (Settled(w) ==> Settled(w'))
  {
    var t := DatabaseTrace(w);
    if t != [] {
      assert Sound(t[0]) && Sound(t[1]) && Sound(t[2]);
      assert Sound(t[3]);
      assert Sound(t[4]);
    }
  }

  lemma ApplicationKeepsSound(w: World)
    requires Sound(w) && Settled(w) && HasPasswords(w.file) && w.file.secrets.auth.Some?
    ensures AllSound(ApplicationTrace(w))
    ensures var w' := Last(w, ApplicationTrace(w)); Settled(w') && Current(w'.file) && w'.patched.Some?
  {
  }

  lemma CoolifyKeepsSound(w: World)
    requires Sound(w) && Settled(w)
    ensures AllSound(CoolifyTrace(w).0)
    ensures CoolifyTrace(w).1 ==> var w' := Last(w, CoolifyTrace(w).0); Settled(w') && Current(w'.file) && w'.patched.Some?
  {
    if HasPasswords(w.file) {
      var w1 := WithAuth(w);
      assert Sound(w1) && Settled(w1);
      if Nameable(w1) {
        ApplicationKeepsSound(w1);
        var rest := ApplicationTrace(w1);
        forall i | 0 <= i < |[w1] + rest| ensures Sound(([w1] + rest)[i]) { assert i > 0 ==> ([w1] + rest)[i] == rest[i - 1]; }
      }
    }
  }

  /** What the record, the secrets and those who hold them say is as it was. */
  predicate SameSecretSide(w: World, w': World) {
    w'.file.done == w.file.done && w'.file.secrets == w.file.secrets && w'.file.hash == w.file.hash &&
    w'.file.uuid == w.file.uuid && w'.cluster == w.cluster && w'.app == w.app && w'.patched == w.patched &&
    w'.deployed == w.deployed
  }

  /** The steps before `database` move no secret. */
  lemma LocalStepsMoveNoSecret(w: World, step: StepName)
    requires step !in {Database, Coolify, Deploy}
    ensures forall i {:trigger StepTrace(w, step).0[i]} | 0 <= i < |StepTrace(w, step).0| ::
              SameSecretSide(w, StepTrace(w, step).0[i]) && w.next <= StepTrace(w, step).0[i].next
    ensures CommitsDrawn(w) ==> forall i {:trigger StepTrace(w, step).0[i]} | 0 <= i < |StepTrace(w, step).0| ::
              CommitsDrawn(StepTrace(w, step).0[i])
  {
  }

  lemma LocalStepsKeepSound(w: World, step: StepName)
    requires Sound(w) && step !in {Database, Coolify, Deploy}
    ensures AllSound(StepTrace(w, step).0) && (Settled(w) ==> Settled(Last(w, StepTrace(w, step).0)))
  {
    var trace := StepTrace(w, step).0;
    LocalStepsMoveNoSecret(w, step);
    forall i | 0 <= i < |trace| ensures Sound(trace[i]) { SameSecretsSound(w, trace[i]); }
  }

  /** What the invariants do not speak of may move, and more may have been drawn. */
  lemma SameSecretsSound(w: World, w': World)
    requires Sound(w) && w.next <= w'.next && CommitsDrawn(w')
    requires SameSecretSide(w, w')
    ensures Sound(w')
  {
  }

  lemma InvalidationKeepsSound(w: World)
    requires Sound(w)
    ensures AllSound(InvalidateTrace(w))
    ensures Sound(Last(w, InvalidateTrace(w))) && Settled(Last(w, InvalidateTrace(w)))
  {
    ClearedIsSound(w, Coolify);
    ClearedIsSound(w, Deploy);
    ClearedIsSound(Cleared(w, Coolify), Deploy);
  }

  lemma ClearedIsSound(w: World, step: StepName)
    requires Sound(w)
    ensures Sound(Cleared(w, step))
  {
  }

  /** A step that gets through, and its record. */
  lemma StepKeepsSound(w: World, step: StepName)
    requires Sound(w) && step !in w.file.done && (step == Coolify ==> Settled(w))
    ensures AllSound(StepTrace(w, step).0)
    ensures var marked := Marked(Last(w, StepTrace(w, step).0), step);
            StepTrace(w, step).1 ==> Sound(marked) && (Settled(w) && step != Deploy ==> Settled(marked))
  {
    var trace := StepTrace(w, step).0;
    if step !in {Database, Coolify, Deploy} { LocalStepsKeepSound(w, step); }
    else if step == Database { DatabaseKeepsSound(w); }
    else if step == Coolify { CoolifyKeepsSound(w); }
    LastIsSound(w, trace);
    if StepTrace(w, step).1 { MarkedIsSound(Last(w, trace), step); }
  }

  lemma MarkedIsSound(w: World, step: StepName)
    requires Sound(w) && (step == Coolify ==> w.patched.Some?)
    requires step == Deploy ==> w.patched.Some? && w.deployed == w.patched
    ensures Sound(Marked(w, step)) && (Settled(w) && step != Deploy ==> Settled(Marked(w, step)))
  {
  }

  lemma LastIsSound(w: World, trace: seq<World>)
    requires Sound(w) && AllSound(trace)
    ensures Sound(Last(w, trace))
  {
    if trace != [] { assert Sound(trace[|trace| - 1]); }
  }

  lemma {:induction false} LoopKeepsSound(w: World, steps: seq<StepName>)
    requires Sound(w) && InOrder(steps) && (Coolify in steps ==> Settled(w))
    ensures AllSound(LoopTrace(w, steps).0)
    decreases |steps|
  {
    if steps != [] {
      assert forall s | s in steps[1..] :: s in steps;
      if steps[0] in w.file.done {
        LoopKeepsSound(w, steps[1..]);
      } else {
        StepKeepsSound(w, steps[0]);
        var (trace, through) := StepTrace(w, steps[0]);
        if through {
          assert Coolify in steps[1..] ==> steps[0] != Deploy;
          LoopKeepsSound(Marked(Last(w, trace), steps[0]), steps[1..]);
        }
      }
    }
  }

  lemma RunKeepsSound(w: World, steps: seq<StepName>)
    requires Sound(w)
    ensures AllSound(RunTrace(w, steps))
  {
    if InOrder(steps) {
      InvalidationKeepsSound(w);
      LoopKeepsSound(Last(w, InvalidateTrace(w)), steps);
    }
  }

  lemma CrashKeepsSound(w: World, steps: seq<StepName>, crash: Option<nat>)
    requires Sound(w)
    ensures Sound(After(w, Ran(steps, crash)))
  {
    RunKeepsSound(w, steps);
    var trace := RunTrace(w, steps);
    if crash.Some? && 0 < crash.value < |trace| { assert Sound(trace[crash.value - 1]); }
    if trace != [] { assert Sound(trace[|trace| - 1]); }
  }

  lemma LossKeepsSound(w: World, h: Happening)
    requires Sound(w) && !h.Ran?
    ensures Sound(After(w, h))
  {
  }

  /** Wherever a run crashes and whatever its file loses, the invariants hold. */
  lemma {:induction false} HistoriesAreSound(happenings: seq<Happening>)
    ensures Sound(History(happenings))
    decreases |happenings|
  {
    if happenings != [] {
      var before := History(happenings[..|happenings| - 1]);
      HistoriesAreSound(happenings[..|happenings| - 1]);
      match happenings[|happenings| - 1] {
        case Ran(steps, crash) => CrashKeepsSound(before, steps, crash);
        case h => LossKeepsSound(before, h);
      }
    }
  }

  // ----- what a run that gets through leaves -----

  /** Where the loop ends, and whether it got through. */
  function Final(w: World, steps: seq<StepName>): (World, bool) {
    var (trace, all) := LoopTrace(w, steps);
    (Last(w, trace), all)
  }

  /** The world after one step of the loop. */
  function OneStep(w: World, step: StepName): World {
    if step in w.file.done then w else Marked(Last(w, StepTrace(w, step).0), step)
  }

  predicate Through(w: World, step: StepName) { step in w.file.done || StepTrace(w, step).1 }

  lemma FinalUnfolds(w: World, steps: seq<StepName>)
    requires steps != []
    ensures Final(w, steps).1 <==> Through(w, steps[0]) && Final(OneStep(w, steps[0]), steps[1..]).1
    ensures Through(w, steps[0]) ==> Final(w, steps) == Final(OneStep(w, steps[0]), steps[1..])
  {
  }

  lemma FinalAt(w: World, k: nat)
    requires k < |STEPS|
    ensures Final(w, STEPS[k..]).1 <==> Through(w, STEPS[k]) && Final(OneStep(w, STEPS[k]), STEPS[k + 1..]).1
    ensures Through(w, STEPS[k]) ==> Final(w, STEPS[k..]) == Final(OneStep(w, STEPS[k]), STEPS[k + 1..])
  {
    FinalUnfolds(w, STEPS[k..]);
    assert STEPS[k..][0] == STEPS[k] && STEPS[k..][1..] == STEPS[k + 1..];
  }

  /** The world once the directory is there, has its commit, and the repository has it too. */
  function Fetched(w: World): World { OneStep(w, Template) }

  function Installed(w: World): World { OneStep(Fetched(w), Install) }

  function Pushed(w: World): World { OneStep(Installed(w), Repo) }

  predicate LocalThrough(w: World) { Through(w, Template) && Through(Fetched(w), Install) && Through(Installed(w), Repo) }

  lemma LocalSteps(w: World)
    ensures Final(w, STEPS).1 <==> LocalThrough(w) && Final(Pushed(w), STEPS[3..]).1
    ensures LocalThrough(w) ==> Final(w, STEPS) == Final(Pushed(w), STEPS[3..])
  {
    FinalAt(w, 0);
    FinalAt(Fetched(w), 1);
    FinalAt(Installed(w), 2);
    assert STEPS[0..] == STEPS;
  }

  predicate BarredAt(w: World, step: StepName) { step in w.barred && step !in w.file.done }

  /** A step still to come is refused for a record somebody else holds. */
  predicate Barred(w: World) { BarredAt(w, Backup) || BarredAt(w, Sentry) || BarredAt(w, Langfuse) || BarredAt(w, Dns) }

  function Recorded(w: World, steps: set<StepName>): World { w.(file := w.file.(done := w.file.done + steps)) }

  lemma OutsideStep(w: World, step: StepName)
    requires step == Backup || step == Sentry || step == Langfuse || step == Dns
    ensures Through(w, step) <==> !BarredAt(w, step)
    ensures OneStep(w, step) == Recorded(w, {step})
  {
    if step in w.file.done { assert w.file.done + {step} == w.file.done; }
  }

  const OUTSIDE: set<StepName> := {Backup, Sentry, Langfuse, Dns}

  /** One of them, and the list from it on. */
  lemma OutsideAt(w: World, k: nat)
    requires 3 <= k < 7
    ensures Final(w, STEPS[k..]).1 <==> !BarredAt(w, STEPS[k]) && Final(Recorded(w, {STEPS[k]}), STEPS[k + 1..]).1
    ensures !BarredAt(w, STEPS[k]) ==> Final(w, STEPS[k..]) == Final(Recorded(w, {STEPS[k]}), STEPS[k + 1..])
  {
    FinalAt(w, k);
    OutsideStep(w, STEPS[k]);
  }

  lemma AllRecorded(w: World)
    ensures Recorded(Recorded(Recorded(Recorded(w, {Backup}), {Sentry}), {Langfuse}), {Dns}) == Recorded(w, OUTSIDE)
  {
    assert w.file.done + {Backup} + {Sentry} + {Langfuse} + {Dns} == w.file.done + OUTSIDE;
  }

  lemma OutsideSteps(w: World)
    ensures Final(w, STEPS[3..]).1 <==> !Barred(w) && Final(Recorded(w, OUTSIDE), STEPS[7..]).1
    ensures !Barred(w) ==> Final(w, STEPS[3..]) == Final(Recorded(w, OUTSIDE), STEPS[7..])
  {
    var b := Recorded(w, {Backup});
    var s := Recorded(b, {Sentry});
    var l := Recorded(s, {Langfuse});
    OutsideAt(w, 3);
    OutsideAt(b, 4);
    OutsideAt(s, 5);
    OutsideAt(l, 6);
    AllRecorded(w);
  }

  function Ready(w: World): World { Recorded(Pushed(w), OUTSIDE) }

  function Provisioned(w: World): World { OneStep(Ready(w), Database) }

  function Configured(w: World): World { OneStep(Provisioned(w), Coolify) }

  function Published(w: World): World { OneStep(Configured(w), Deploy) }

  predicate AllThrough(w: World) {
    LocalThrough(w) && !Barred(Pushed(w)) && Through(Provisioned(w), Coolify) && Through(Configured(w), Deploy)
  }

  lemma LoopOfAllSteps(w: World)
    ensures Final(w, STEPS).1 <==> AllThrough(w)
    ensures Final(w, STEPS).1 ==> Final(w, STEPS).0 == Published(w)
  {
    LocalSteps(w);
    OutsideSteps(Pushed(w));
    SecretSteps(Ready(w));
    assert STEPS[7..] == [Database, Coolify, Deploy];
  }

  lemma SecretSteps(w: World)
    ensures var d := OneStep(w, Database); var c := OneStep(d, Coolify); var all := Final(w, [Database, Coolify, Deploy]);
            (all.1 <==> Through(d, Coolify) && Through(c, Deploy)) && (all.1 ==> all.0 == OneStep(c, Deploy))
  {
    var d := OneStep(w, Database);
    FinalUnfolds(w, [Database, Coolify, Deploy]);
    FinalUnfolds(d, [Coolify, Deploy]);
    FinalUnfolds(OneStep(d, Coolify), [Deploy]);
    assert [Database, Coolify, Deploy][1..] == [Coolify, Deploy] && [Coolify, Deploy][1..] == [Deploy] && [Deploy][1..] == [];
  }

  lemma LastOfSum(w: World, s: seq<World>, t: seq<World>)
    ensures Last(w, s + t) == Last(Last(w, s), t)
  {
  }

  /** A run is its invalidation and its loop. */
  lemma RunSplits(w: World, steps: seq<StepName>)
    requires InOrder(steps)
    ensures var start := Last(w, InvalidateTrace(w));
            Last(w, RunTrace(w, steps)) == Final(start, steps).0 && LoopTrace(start, steps).1 == Final(start, steps).1
  {
    var cleared := InvalidateTrace(w);
    LastOfSum(w, cleared, LoopTrace(Last(w, cleared), steps).0);
  }

  lemma StepsAreInOrder()
    ensures InOrder(STEPS)
  {
  }

  lemma RunOfAllSteps(w: World)
    ensures var start := Last(w, InvalidateTrace(w));
            LoopTrace(start, STEPS).1 == AllThrough(start) &&
            (AllThrough(start) ==> Last(w, RunTrace(w, STEPS)) == Published(start))
  {
    StepsAreInOrder();
    RunSplits(w, STEPS);
    LoopOfAllSteps(Last(w, InvalidateTrace(w)));
  }

  /**
   * A full run that returns has recorded every step, and leaves cluster, file, Coolify and containers
   * agreeing role by role, after whatever happened before it.
   */
  lemma FullRunSynchronises(happenings: seq<Happening>)
    requires RunOutcome(History(happenings), STEPS) == Returned
    ensures var w := Last(History(happenings), RunTrace(History(happenings), STEPS));
            w.deployed.Some? && w.patched == w.deployed && w.file.hash == Some(w.file.secrets) &&
            w.file.secrets.migrator.Some? && w.file.secrets.application.Some? && w.file.secrets.auth.Some? &&
            w.deployed.value.migrator == w.cluster.migrator == w.file.secrets.migrator &&
            w.deployed.value.application == w.cluster.application == w.file.secrets.application &&
            w.deployed.value.auth == w.file.secrets.auth && {Database, Coolify, Deploy} <= w.file.done
  {
    var w := History(happenings);
    HistoriesAreSound(happenings);
    RunKeepsSound(w, STEPS);
    StepsAreInOrder();
    InvalidationClears(w);
    RunOfAllSteps(w);
    EndOfAllSteps(Last(w, InvalidateTrace(w)));
    LastIsSound(w, RunTrace(w, STEPS));
  }

  /** A step forgets no record. */
  lemma StepForgetsNothing(w: World, step: StepName)
    ensures w.file.done <= Last(w, StepTrace(w, step).0).file.done
  {
    if step != Database {
      RecordsComeLast(w, step);
      var trace := StepTrace(w, step).0;
      if trace != [] { assert SameRecords(w, trace[|trace| - 1]); }
    }
  }

  /** A loop that gets through has recorded every step of its list. */
  lemma {:induction false} LoopRecords(w: World, steps: seq<StepName>)
    ensures w.file.done <= Final(w, steps).0.file.done
    ensures Final(w, steps).1 ==> forall i | 0 <= i < |steps| :: steps[i] in Final(w, steps).0.file.done
    decreases |steps|
  {
    if steps != [] {
      FinalUnfolds(w, steps);
      StepForgetsNothing(w, steps[0]);
      if Through(w, steps[0]) { LoopRecords(OneStep(w, steps[0]), steps[1..]); }
    }
  }

  // ----- no run that returns locks the app out -----

  /** A step leaves a role the password it has, unless it rotates. */
  lemma StepRotates(w: World, step: StepName)
    requires Sound(w) && step !in w.file.done && !(step == Database && Rotates(w))
    ensures var w' := Last(w, StepTrace(w, step).0);
            (w.cluster.migrator.Some? ==> w'.cluster.migrator == w.cluster.migrator) &&
            (w.cluster.application.Some? ==> w'.cluster.application == w.cluster.application)
  {
  }

  lemma {:induction false} LoopThatKeeps(w: World, steps: seq<StepName>)
    requires Sound(w) && InOrder(steps) && (Coolify in steps ==> Settled(w)) && !LoopRotates(w, steps)
    ensures var w' := Final(w, steps).0;
            (w.cluster.migrator.Some? ==> w'.cluster.migrator == w.cluster.migrator) &&
            (w.cluster.application.Some? ==> w'.cluster.application == w.cluster.application)
    decreases |steps|
  {
    if steps != [] {
      assert forall s | s in steps[1..] :: s in steps;
      FinalUnfolds(w, steps);
      if steps[0] in w.file.done {
        LoopThatKeeps(w, steps[1..]);
      } else {
        StepRotates(w, steps[0]);
        StepKeepsSound(w, steps[0]);
        if StepTrace(w, steps[0]).1 {
          assert Coolify in steps[1..] ==> steps[0] != Deploy;
          LoopThatKeeps(OneStep(w, steps[0]), steps[1..]);
        }
      }
    }
  }

  /**
   * Whatever steps a run is asked for, if it returns, a recorded `coolify` holds what the cluster accepts;
   * and it is recorded if the run changed the password of a role that was there.
   */
  lemma NoReturnLocksOut(happenings: seq<Happening>, steps: seq<StepName>)
    requires RunOutcome(History(happenings), steps) == Returned
    ensures var w, w' := History(happenings), Last(History(happenings), RunTrace(History(happenings), steps));
            (Coolify in w'.file.done ==>
               w'.patched.Some? && w'.patched.value.migrator == w'.cluster.migrator == w'.file.secrets.migrator &&
               w'.patched.value.application == w'.cluster.application == w'.file.secrets.application) &&
            (w.cluster.migrator.Some? && w'.cluster.migrator != w.cluster.migrator ==> Coolify in w'.file.done) &&
            (w.cluster.application.Some? && w'.cluster.application != w.cluster.application ==> Coolify in w'.file.done)
  {
    var w := History(happenings);
    HistoriesAreSound(happenings);
    RunKeepsSound(w, steps);
    LastIsSound(w, RunTrace(w, steps));
    RunSplits(w, steps);
    InvalidationKeepsSound(w);
    var start := Last(w, InvalidateTrace(w));
    assert start.cluster == w.cluster;
    if !LoopRotates(start, steps) { LoopThatKeeps(start, steps); }
  }

  // ----- which full runs return -----

  /** The environment is recorded as current, and the database step has a read-only password to make. */
  predicate Surprised(w: World) {
    Coolify in w.file.done && Current(w.file) && Database !in w.file.done && w.file.secrets.readonly.None?
  }

  /** A step is to be run, by this run or because of what this run will do by the next. */
  predicate Due(w: World, step: StepName) {
    step !in w.file.done || (step in {Coolify, Deploy} && (!Current(w.file) || Surprised(w)))
  }

  /** The app's directory once `template` and `install` have done what they have to do. */
  function DirAfter(w: World): Dir {
    var dir := if Template !in w.file.done && w.dir.Absent? then Present(true, None) else w.dir;
    if Install !in w.file.done && dir.Present? && dir.head.None? then dir.(head := Some(w.next)) else dir
  }

  /** The directory is there, or the scratch one is, and the file does not vouch for it. */
  predicate Unadopted(w: World) {
    Template !in w.file.done && if w.dir.Present? then !w.file.began || !w.dir.ours else w.scratch && !w.file.fetched
  }

  /** The record says the directory was made; it is gone, and a step needs it. */
  predicate Missing(w: World) {
    Template in w.file.done && w.dir.Absent? && (Due(w, Install) || Due(w, Repo) || Due(w, Coolify) || Due(w, Deploy))
  }

  /** The record says the first commit was made; there is none, and a step needs one. */
  predicate Headless(w: World) {
    DirAfter(w).Present? && DirAfter(w).head.None? && (Due(w, Repo) || Due(w, Deploy))
  }

  /** The repository is still to be recorded, and its `main` is at another commit. */
  predicate Foreign(w: World) {
    Repo !in w.file.done && w.main.At? && DirAfter(w).Present? && DirAfter(w).head.Some? &&
    DirAfter(w).head.value != w.main.commit
  }

  /** The record says the roles are provisioned, and the file no longer has their passwords. */
  predicate Stuck(w: World) { Database in w.file.done && !HasPasswords(w.file) }

  /** The record says the repository is there, the file no longer names it, and Coolify has no application yet. */
  predicate Homeless(w: World) { Repo in w.file.done && !w.file.repo && !w.app }

  /** The environment is recorded as current, so nothing looks up the uuid the deploy still to come needs. */
  predicate Nameless(w: World) { Coolify in w.file.done && Current(w.file) && Deploy !in w.file.done && !w.file.uuid }

  /** What no run gets past. */
  predicate Hopeless(w: World) {
    Unadopted(w) || Missing(w) || Headless(w) || Foreign(w) || Barred(w) || Stuck(w) || Homeless(w) ||
    (Nameless(w) && !Surprised(w))
  }

  /** A full run that does not crash returns exactly when nothing is hopeless and nothing surprises it. */
  lemma ReturnsExactly(happenings: seq<Happening>)
    ensures var w := History(happenings); RunOutcome(w, STEPS) == Returned <==> !Hopeless(w) && !Surprised(w)
  {
    HistoriesAreSound(happenings);
    SoundRunReturnsExactly(History(happenings));
  }

  /** What no longer matches the hash is not recorded past the invalidation. */
  predicate Invalidated(w: World) { Coolify in w.file.done || Deploy in w.file.done ==> Current(w.file) }

  lemma InvalidationClears(w: World)
    requires Sound(w)
    ensures var start := Last(w, InvalidateTrace(w));
            Sound(start) && Invalidated(start) && Hopeless(start) == Hopeless(w) && Surprised(start) == Surprised(w)
  {
    InvalidationKeepsSound(w);
    if !Current(w.file) {
      InvalidationForgets(w);
      ForgettingKeepsShapes(w);
    }
  }

  function Forgetting(w: World): World { w.(file := w.file.(done := w.file.done - {Coolify, Deploy})) }

  lemma InvalidationForgets(w: World)
    requires !Current(w.file)
    ensures Last(w, InvalidateTrace(w)) == Forgetting(w)
  {
    assert Last(w, InvalidateTrace(w)).file.done == w.file.done - {Coolify, Deploy};
  }

  lemma ForgettingKeepsShapes(w: World)
    requires !Current(w.file)
    ensures var w' := Forgetting(w); Hopeless(w') == Hopeless(w) && Surprised(w') == Surprised(w) && Invalidated(w')
  {
    var w' := Forgetting(w);
    assert forall step | step !in {Coolify, Deploy} :: step in w'.file.done <==> step in w.file.done;
    assert DirAfter(w') == DirAfter(w);
  }

  /** Nothing local stands in the way. */
  predicate LocalOk(w: World) { !Unadopted(w) && !Missing(w) && !Headless(w) && !Foreign(w) }

  /** What the first three steps leave, if they get through. */
  predicate LocallyDone(w: World, p: World) {
    p.file == w.file.(done := w.file.done + {Template, Install, Repo}, fetched := p.file.fetched, began := p.file.began,
                      repo := w.file.repo || Repo !in w.file.done) &&
    p.dir == DirAfter(w) && w.next <= p.next && p.barred == w.barred && p.cluster == w.cluster && p.app == w.app &&
    p.patched == w.patched && p.deployed == w.deployed
  }

  lemma TemplateEnds(w: World)
    ensures Through(w, Template) <==> !Unadopted(w)
    ensures Through(w, Template) ==>
              var t := Fetched(w);
              DirAfter(t) == DirAfter(w) && t.main == w.main && t.next == w.next &&
              (t.dir.Absent? <==> Template in w.file.done && w.dir.Absent?) &&
              t == w.(file := w.file.(done := w.file.done + {Template}, fetched := t.file.fetched, began := t.file.began),
                      dir := t.dir, scratch := t.scratch)
  {
  }

  lemma InstallEnds(t: World)
    requires Template in t.file.done
    ensures Through(t, Install) <==> Install in t.file.done || t.dir.Present?
    ensures Through(t, Install) ==>
              var i := Installed(t);
              i == t.(file := t.file.(done := t.file.done + {Install}), dir := DirAfter(t), next := i.next) && t.next <= i.next
  {
    assert Fetched(t) == t;
  }

  lemma RepoEnds(i: World)
    requires Template in i.file.done && Install in i.file.done
    ensures Through(i, Repo) <==>
            Repo in i.file.done || (i.dir.Present? && i.dir.head.Some? && (i.main.At? ==> i.main.commit == i.dir.head.value))
    ensures Through(i, Repo) ==>
              var p := OneStep(i, Repo);
              p == i.(file := i.file.(done := i.file.done + {Repo}, repo := i.file.repo || Repo !in i.file.done), main := p.main)
  {
  }

  /** The first three steps get through but for what is wrong locally. */
  lemma LocalStepsEnd(w: World)
    ensures LocalOk(w) ==> LocalThrough(w)
    ensures LocalThrough(w) ==> !Unadopted(w) && !Foreign(w) && LocallyDone(w, Pushed(w))
    ensures LocalThrough(w) && Install !in w.file.done ==> DirAfter(w).Present?
    ensures LocalThrough(w) && Repo !in w.file.done ==> DirAfter(w).Present? && DirAfter(w).head.Some?
  {
    TemplateEnds(w);
    if Through(w, Template) {
      var t := Fetched(w);
      InstallEnds(t);
      if Through(t, Install) {
        RepoEnds(Installed(w));
        LocalVerdict(w, t, Installed(w), Pushed(w));
      }
    }
  }

  /** The same, read off the worlds the steps leave. */
  lemma LocalVerdict(w: World, t: World, i: World, p: World)
    requires DirAfter(t) == DirAfter(w) && t.main == w.main && (t.dir.Absent? <==> Template in w.file.done && w.dir.Absent?)
    requires t == w.(file := w.file.(done := w.file.done + {Template}, fetched := t.file.fetched, began := t.file.began),
                     dir := t.dir, scratch := t.scratch)
    requires Install in t.file.done || t.dir.Present?
    requires i == t.(file := t.file.(done := t.file.done + {Install}), dir := DirAfter(t), next := i.next) && t.next <= i.next
    requires !Unadopted(w)
    ensures var through := Repo in i.file.done ||
              (i.dir.Present? && i.dir.head.Some? && (i.main.At? ==> i.main.commit == i.dir.head.value));
            (LocalOk(w) ==> through) && (through ==> !Foreign(w)) &&
            (through && Repo !in w.file.done ==> DirAfter(w).Present? && DirAfter(w).head.Some?)
    ensures Install !in w.file.done ==> DirAfter(w).Present?
    ensures p == i.(file := i.file.(done := i.file.done + {Repo}, repo := i.file.repo || Repo !in i.file.done), main := p.main) ==>
              LocallyDone(w, p)
  {
    assert i.file.done + {Repo} == w.file.done + {Template, Install, Repo};
  }

  lemma ReadyIsSound(w: World)
    requires Sound(w) && Invalidated(w) && LocalThrough(w)
    ensures Sound(Ready(w)) && Invalidated(Ready(w)) && Surprised(Ready(w)) == Surprised(w) && Stuck(Ready(w)) == Stuck(w)
  {
    LocalStepsEnd(w);
    ThroughKeepsSound(w, Template);
    ThroughKeepsSound(Fetched(w), Install);
    ThroughKeepsSound(Installed(w), Repo);
    RecordingKeepsShapes(w, Pushed(w));
  }

  lemma RecordingKeepsShapes(w: World, p: World)
    requires Invalidated(w) && LocallyDone(w, p) && Sound(p)
    ensures var r := Recorded(p, OUTSIDE);
            Sound(r) && Invalidated(r) && Surprised(r) == Surprised(w) && Stuck(r) == Stuck(w)
  {
  }

  lemma ThroughKeepsSound(w: World, step: StepName)
    requires Sound(w) && Through(w, step) && step in {Template, Install, Repo}
    ensures Sound(OneStep(w, step))
  {
    if step !in w.file.done { StepKeepsSound(w, step); }
  }

  /** All steps get through and end current but for what the file or the directory lost. */
  lemma EndOfAllSteps(w: World)
    requires Sound(w) && Invalidated(w)
    ensures AllThrough(w) && Current(Published(w).file) <==> !Hopeless(w) && !Surprised(w)
    ensures AllThrough(w) ==> {Database, Coolify, Deploy} <= Published(w).file.done && HasPasswords(Published(w).file)
  {
    LocalStepsEnd(w);
    if LocalThrough(w) {
      ReadyIsSound(w);
      ReadyProvisions(w, Pushed(w), Ready(w));
      CoolifyStepEnds(Provisioned(w));
      DeployEnds(Configured(w));
      Verdict(w, Provisioned(w), Configured(w));
    }
  }

  lemma ReadyProvisions(w: World, pushed: World, ready: World)
    requires LocallyDone(w, pushed) && ready == Recorded(pushed, OUTSIDE)
    requires Sound(ready) && Invalidated(ready) && Surprised(ready) == Surprised(w) && Stuck(ready) == Stuck(w)
    ensures var p := OneStep(ready, Database);
            Provisions(w, p) && (Barred(pushed) <==> Barred(w)) && Database in p.file.done &&
            (Coolify in p.file.done ==> p.file.secrets.readToken.Some?)
  {
    DatabaseStepEnds(ready);
  }

  lemma DeployEnds(c: World)
    ensures Through(c, Deploy) <==> DeployPasses(c)
    ensures var d := OneStep(c, Deploy); d.file == c.file.(done := c.file.done + {Deploy})
  {
    if Deploy in c.file.done { assert c.file.done + {Deploy} == c.file.done; }
  }

  lemma DatabaseStepEnds(w: World)
    requires Sound(w) && Invalidated(w)
    ensures var p := OneStep(w, Database);
            HasPasswords(p.file) == !Stuck(w) && Database in p.file.done && p.app == w.app && p.file.repo == w.file.repo &&
            p.dir == w.dir && p.file.uuid == w.file.uuid && (Deploy in p.file.done <==> Deploy in w.file.done) &&
            (Coolify in p.file.done <==> Coolify in w.file.done) &&
            (Coolify in p.file.done ==>
               p.file.hash == w.file.hash && p.file.secrets.readToken.Some? && p.app && !Stuck(w) &&
               (Current(p.file) <==> !Surprised(w)))
  {
  }

  lemma CoolifyStepEnds(w: World)
    requires Coolify in w.file.done ==> HasPasswords(w.file) && w.file.secrets.readToken.Some?
    ensures Through(w, Coolify) <==> CoolifyPasses(w)
    ensures Through(w, Coolify) ==> var c := OneStep(w, Coolify); Configures(w, c) && HasPasswords(c.file)
  {
    if Coolify in w.file.done { assert w.file.done + {Coolify} == w.file.done; }
    else { ApplicationEnds(WithAuth(w)); }
  }

  /** Where the rest of the `coolify` step ends. */
  lemma ApplicationEnds(w: World)
    ensures var c := Last(w, ApplicationTrace(w));
            c.dir == w.dir && c.file.done == w.file.done && c.file.uuid && c.file.secrets.readToken.Some? &&
            Current(c.file) && HasPasswords(c.file) == HasPasswords(w.file)
  {
  }

  /** What the worlds after `database` and after `coolify` say of the one before all. */
  predicate Provisions(w: World, p: World) {
    HasPasswords(p.file) == !Stuck(w) && Nameable(p) == !Homeless(w) && p.dir == DirAfter(w) && p.file.uuid == w.file.uuid &&
    (Deploy in p.file.done <==> Deploy in w.file.done) && (Coolify in p.file.done <==> Coolify in w.file.done) &&
    (Coolify in p.file.done ==> !Stuck(w) && p.app && (Current(p.file) <==> !Surprised(w)))
  }

  predicate Configures(p: World, c: World) {
    c.file.done == p.file.done + {Coolify} && c.dir == p.dir && c.file.secrets.readToken.Some? &&
    if Coolify in p.file.done then c == p else c.file.uuid && Current(c.file)
  }

  predicate CoolifyPasses(p: World) {
    Coolify in p.file.done || (HasPasswords(p.file) && Nameable(p) && p.dir.Present?)
  }

  predicate DeployPasses(c: World) { Deploy in c.file.done || Deployable(c) }

  /** The last two steps pass and end current exactly when none of the shapes is met. */
  lemma Verdict(w: World, p: World, c: World)
    requires Invalidated(w) && !Unadopted(w) && !Foreign(w) && Provisions(w, p)
    requires Install !in w.file.done ==> DirAfter(w).Present?
    requires Repo !in w.file.done ==> DirAfter(w).Present? && DirAfter(w).head.Some?
    requires CoolifyPasses(p) ==> Configures(p, c)
    ensures !Barred(w) && CoolifyPasses(p) && DeployPasses(c) && Current(c.file) <==> !Hopeless(w) && !Surprised(w)
  {
    assert DirAfter(w).Absent? <==> Template in w.file.done && w.dir.Absent?;
    if CoolifyPasses(p) {
      assert Deploy in c.file.done <==> Deploy in w.file.done;
    }
  }

  lemma SoundRunReturnsExactly(w: World)
    requires Sound(w)
    ensures RunOutcome(w, STEPS) == Returned <==> !Hopeless(w) && !Surprised(w)
  {
    StepsAreInOrder();
    InvalidationClears(w);
    RunOfAllSteps(w);
    EndOfAllSteps(Last(w, InvalidateTrace(w)));
  }

  /** Where a surprised run ends, through its deploy or not: nothing the next needs is lost, and the hash is stale. */
  predicate Over(w: World) {
    {Template, Install, Repo, Database} <= w.file.done && w.dir.Present? && w.dir.head.Some? && !Barred(w) &&
    HasPasswords(w.file) && w.app && !Current(w.file)
  }

  lemma OverIsFine(w: World)
    requires Over(w)
    ensures !Hopeless(w) && !Surprised(w)
  {
    assert Template in w.file.done && Install in w.file.done && Repo in w.file.done && Database in w.file.done;
  }

  lemma SurprisedSteps(w: World)
    requires Sound(w) && Surprised(w) && {Template, Install, Repo} <= w.file.done && !Barred(w)
    requires w.dir.Present? && w.dir.head.Some?
    ensures Over(Final(w, [Database, Coolify, Deploy]).0)
  {
    var d := OneStep(w, Database);
    FinalUnfolds(w, [Database, Coolify, Deploy]);
    assert [Database, Coolify, Deploy][1..] == [Coolify, Deploy];
    assert Over(d) && Coolify in d.file.done;
    OverStays(d);
  }

  lemma OverStays(d: World)
    requires Over(d) && Coolify in d.file.done
    ensures Over(Final(d, [Coolify, Deploy]).0)
  {
    FinalUnfolds(d, [Coolify, Deploy]);
    FinalUnfolds(d, [Deploy]);
    assert [Coolify, Deploy][1..] == [Deploy] && [Deploy][1..] == [];
  }

  lemma SurpriseReaches(w: World)
    requires Sound(w) && Surprised(w) && !Hopeless(w)
    ensures Final(w, STEPS) == Final(Ready(w), [Database, Coolify, Deploy])
    ensures Sound(Ready(w)) && Surprised(Ready(w)) && {Template, Install, Repo} <= Ready(w).file.done && !Barred(Ready(w))
    ensures Ready(w).dir.Present? && Ready(w).dir.head.Some?
  {
    LocalStepsEnd(w);
    LocalSteps(w);
    OutsideSteps(Pushed(w));
    ReadyIsSound(w);
    assert STEPS[7..] == [Database, Coolify, Deploy];
    assert Due(w, Deploy);
  }

  lemma SurpriseEnds(w: World)
    requires Sound(w) && Surprised(w) && !Hopeless(w)
    ensures Over(Last(w, RunTrace(w, STEPS)))
  {
    StepsAreInOrder();
    RunSplits(w, STEPS);
    assert InvalidateTrace(w) == [];
    SurpriseReaches(w);
    SurprisedSteps(Ready(w));
  }

  /** A surprise is over in one more run, where nothing is hopeless: what the first left invalidates itself. */
  lemma SurpriseIsOver(happenings: seq<Happening>)
    requires Surprised(History(happenings)) && !Hopeless(History(happenings))
    ensures RunOutcome(History(happenings), STEPS) != Returned
    ensures RunOutcome(History(happenings + [Ran(STEPS, None)]), STEPS) == Returned
  {
    var again := happenings + [Ran(STEPS, None)];
    assert again[..|happenings|] == happenings;
    HistoriesAreSound(happenings);
    SoundRunReturnsExactly(History(happenings));
    SurpriseEnds(History(happenings));
    OverIsFine(History(again));
    HistoriesAreSound(again);
    SoundRunReturnsExactly(History(again));
  }

  // ----- what no run gets past -----

  /** In the midst of a run: the deploy is to come, or a record this run will not look at again is stale. */
  predicate StillDue(w: World) {
    Deploy !in w.file.done || (Coolify in w.file.done && (!Current(w.file) || Surprised(w)))
  }

  predicate StillMissing(w: World) {
    Template in w.file.done && w.dir.Absent? &&
    (Install !in w.file.done || Repo !in w.file.done || Coolify !in w.file.done || StillDue(w))
  }

  predicate StillHeadless(w: World) {
    DirAfter(w).Present? && DirAfter(w).head.None? && (Repo !in w.file.done || StillDue(w))
  }

  predicate StillHomeless(w: World) { Homeless(w) && Coolify !in w.file.done }

  predicate StillNameless(w: World) { Nameless(w) && !Surprised(w) && HasPasswords(w.file) }

  /** The shapes as a run carries them from step to step. */
  predicate Lasting(w: World) {
    Unadopted(w) || StillMissing(w) || StillHeadless(w) || Foreign(w) || Barred(w) || Stuck(w) || StillHomeless(w) ||
    StillNameless(w)
  }

  ghost predicate AllLasting(trace: seq<World>) { forall i {:trigger trace[i]} | 0 <= i < |trace| :: Lasting(trace[i]) }

  /** What a step that is run does to a shape: nothing. */
  ghost predicate LastsThrough(w: World, step: StepName) {
    AllLasting(StepTrace(w, step).0) &&
    (StepTrace(w, step).1 ==> Lasting(Marked(Last(w, StepTrace(w, step).0), step)))
  }

  /** What the last three steps leave alone: the directories, the repository, and what is recorded of them. */
  predicate SamePlace(w: World, w': World) {
    w'.dir == w.dir && w'.scratch == w.scratch && w'.main == w.main && w'.barred == w.barred && w.next <= w'.next &&
    w'.file.fetched == w.file.fetched && w'.file.began == w.file.began &&
    w.file.done <= w'.file.done <= w.file.done + {Database, Coolify, Deploy}
  }

  ghost predicate AllInPlace(w: World, trace: seq<World>) {
    forall i {:trigger trace[i]} | 0 <= i < |trace| :: SamePlace(w, trace[i])
  }

  lemma SecretStepsKeepPlace(w: World, step: StepName)
    requires step in {Database, Coolify, Deploy}
    ensures AllInPlace(w, StepTrace(w, step).0) && SamePlace(w, Marked(Last(w, StepTrace(w, step).0), step))
  {
    if step == Coolify { ApplicationKeepsPlace(WithAuth(w)); }
  }

  lemma ApplicationKeepsPlace(w: World)
    ensures AllInPlace(w, ApplicationTrace(w))
  {
  }

  predicate SameRecords(w: World, w': World) { w'.file.done == w.file.done && w'.barred == w.barred }

  ghost predicate AllSameRecords(w: World, trace: seq<World>) {
    forall i {:trigger trace[i]} | 0 <= i < |trace| :: SameRecords(w, trace[i])
  }

  /** A step's record is written once it got through, and not by the step. */
  lemma RecordsComeLast(w: World, step: StepName)
    requires step != Database
    ensures AllSameRecords(w, StepTrace(w, step).0)
  {
    if step == Coolify { ApplicationRecords(WithAuth(w)); }
  }

  lemma ApplicationRecords(w: World)
    ensures AllSameRecords(w, ApplicationTrace(w))
  {
  }

  lemma PlaceKeepsShapes(w: World, w': World)
    requires SamePlace(w, w')
    ensures Unadopted(w) ==> Unadopted(w')
    ensures Barred(w) ==> Barred(w')
    ensures CommitsDrawn(w) && Foreign(w) ==> Foreign(w')
  {
    assert Template in w'.file.done <==> Template in w.file.done;
    assert Install in w'.file.done <==> Install in w.file.done;
    assert Repo in w'.file.done <==> Repo in w.file.done;
  }

  lemma PlacedLasts(w: World, step: StepName)
    requires Unadopted(w) || Barred(w) || (CommitsDrawn(w) && Foreign(w))
    requires step in {Database, Coolify, Deploy}
    ensures LastsThrough(w, step)
  {
    var trace := StepTrace(w, step).0;
    SecretStepsKeepPlace(w, step);
    PlaceKeepsShapes(w, Marked(Last(w, trace), step));
    forall i | 0 <= i < |trace| ensures Lasting(trace[i]) { PlaceKeepsShapes(w, trace[i]); }
  }

  lemma UnadoptedLasts(w: World, step: StepName)
    requires Unadopted(w) && step !in w.file.done
    ensures LastsThrough(w, step)
  {
    if step in {Database, Coolify, Deploy} { PlacedLasts(w, step); }
  }

  lemma MissingLasts(w: World, step: StepName)
    requires Sound(w) && StillMissing(w) && step !in w.file.done
    ensures LastsThrough(w, step)
  {
  }

  /** The database step never makes a recorded environment current again. */
  lemma StaleAfterDatabase(w: World)
    requires AllDrawn(w.file.secrets, w.next) && HashOk(w) && StillDue(w)
    ensures forall i {:trigger DatabaseTrace(w)[i]} | 0 <= i < |DatabaseTrace(w)| :: StillDue(DatabaseTrace(w)[i])
  {
  }

  lemma HeadlessDatabase(w: World)
    requires Sound(w) && StillHeadless(w) && Database !in w.file.done
    ensures LastsThrough(w, Database)
  {
    var trace := DatabaseTrace(w);
    SecretStepsKeepPlace(w, Database);
    if Repo in w.file.done { StaleAfterDatabase(w); }
    forall i | 0 <= i < |trace| ensures StillHeadless(trace[i]) { assert SamePlace(w, trace[i]); }
  }

  lemma HeadlessCoolify(w: World)
    requires StillHeadless(w) && Coolify !in w.file.done
    ensures LastsThrough(w, Coolify)
  {
    var trace := CoolifyTrace(w).0;
    SecretStepsKeepPlace(w, Coolify);
    RecordsComeLast(w, Coolify);
    forall i | 0 <= i < |trace| ensures StillHeadless(trace[i]) {
      assert SamePlace(w, trace[i]) && SameRecords(w, trace[i]);
    }
  }

  lemma HeadlessTemplate(w: World)
    requires StillHeadless(w) && Template !in w.file.done
    ensures LastsThrough(w, Template)
  {
    var trace := TemplateTrace(w).0;
    RecordsComeLast(w, Template);
    forall i | 0 <= i < |trace| ensures StillHeadless(trace[i]) { assert SameRecords(w, trace[i]); }
  }

  lemma HeadlessLasts(w: World, step: StepName)
    requires Sound(w) && StillHeadless(w) && step !in w.file.done
    ensures LastsThrough(w, step)
  {
    if step == Template { HeadlessTemplate(w); }
    else if step == Database { HeadlessDatabase(w); }
    else if step == Coolify { HeadlessCoolify(w); }
  }

  lemma ForeignLasts(w: World, step: StepName)
    requires Sound(w) && Foreign(w) && step !in w.file.done
    ensures LastsThrough(w, step)
  {
    if step in {Database, Coolify, Deploy} { PlacedLasts(w, step); }
    else if step == Template { ForeignTemplate(w); }
  }

  lemma ForeignTemplate(w: World)
    requires CommitsDrawn(w) && Foreign(w) && Template !in w.file.done
    ensures LastsThrough(w, Template)
  {
    var trace := TemplateTrace(w).0;
    forall i | 0 <= i < |trace| ensures Foreign(trace[i]) { assert DirAfter(trace[i]) == DirAfter(w); }
  }

  lemma BarredLasts(w: World, step: StepName)
    requires Barred(w) && step !in w.file.done
    ensures LastsThrough(w, step)
  {
    if step in {Database, Coolify, Deploy} {
      PlacedLasts(w, step);
    } else {
      RecordsComeLast(w, step);
      var trace := StepTrace(w, step).0;
      forall i | 0 <= i < |trace| ensures Barred(trace[i]) { assert SameRecords(w, trace[i]); }
    }
  }

  lemma StuckLasts(w: World, step: StepName)
    requires Stuck(w) && step !in w.file.done
    ensures LastsThrough(w, step)
  {
  }

  lemma HomelessLasts(w: World, step: StepName)
    requires StillHomeless(w) && step !in w.file.done
    ensures LastsThrough(w, step)
  {
  }

  lemma NamelessLasts(w: World, step: StepName)
    requires StillNameless(w) && step !in w.file.done
    ensures LastsThrough(w, step)
  {
    if step == Database {
      NamelessDatabase(w);
    } else if step != Deploy {
      var trace := StepTrace(w, step).0;
      LocalStepsMoveNoSecret(w, step);
      forall i | 0 <= i < |trace| ensures StillNameless(trace[i]) { assert SameSecretSide(w, trace[i]); }
    }
  }

  /** With the read-only password there, none is made, and the file is written as it was. */
  lemma NamelessDatabase(w: World)
    requires StillNameless(w) && Database !in w.file.done
    ensures LastsThrough(w, Database)
  {
    var trace := DatabaseTrace(w);
    assert trace[3].file.secrets == w.file.secrets;
    forall i | 0 <= i < 4 ensures StillNameless(trace[i]) { assert trace[i].file == w.file; }
    assert StillNameless(trace[4]);
  }

  lemma StepKeepsLasting(w: World, step: StepName)
    requires Sound(w) && Lasting(w) && step !in w.file.done
    ensures LastsThrough(w, step)
  {
    if Unadopted(w) { UnadoptedLasts(w, step); }
    else if StillMissing(w) { MissingLasts(w, step); }
    else if StillHeadless(w) { HeadlessLasts(w, step); }
    else if Foreign(w) { ForeignLasts(w, step); }
    else if Barred(w) { BarredLasts(w, step); }
    else if Stuck(w) { StuckLasts(w, step); }
    else if StillHomeless(w) { HomelessLasts(w, step); }
    else { NamelessLasts(w, step); }
  }

  lemma {:induction false} LoopKeepsLasting(w: World, steps: seq<StepName>)
    requires Sound(w) && Lasting(w) && InOrder(steps) && (Coolify in steps ==> Settled(w))
    ensures AllLasting(LoopTrace(w, steps).0)
    decreases |steps|
  {
    if steps != [] {
      assert forall s | s in steps[1..] :: s in steps;
      if steps[0] in w.file.done {
        LoopKeepsLasting(w, steps[1..]);
      } else {
        StepKeepsLasting(w, steps[0]);
        StepKeepsSound(w, steps[0]);
        var (trace, through) := StepTrace(w, steps[0]);
        if through {
          assert Coolify in steps[1..] ==> steps[0] != Deploy;
          LoopKeepsLasting(Marked(Last(w, trace), steps[0]), steps[1..]);
        }
      }
    }
  }

  lemma LastingIsHopeless(w: World)
    requires Lasting(w)
    ensures Hopeless(w)
  {
  }

  lemma HopelessIsLasting(w: World)
    requires Sound(w) && Invalidated(w) && Hopeless(w)
    ensures Lasting(w)
  {
  }

  lemma ForgettingOneKeepsShapes(w: World)
    requires !Current(w.file)
    ensures Hopeless(Cleared(w, Coolify)) == Hopeless(w) == Hopeless(Cleared(w, Deploy))
  {
    assert DirAfter(Cleared(w, Coolify)) == DirAfter(w) == DirAfter(Cleared(w, Deploy));
  }

  lemma RunKeepsHopeless(w: World, steps: seq<StepName>)
    requires Sound(w) && Hopeless(w)
    ensures forall i {:trigger RunTrace(w, steps)[i]} | 0 <= i < |RunTrace(w, steps)| :: Hopeless(RunTrace(w, steps)[i])
  {
    if InOrder(steps) {
      var cleared := InvalidateTrace(w);
      var start := Last(w, cleared);
      if !Current(w.file) {
        ForgettingOneKeepsShapes(w);
        ForgettingOneKeepsShapes(Cleared(w, Coolify));
      }
      InvalidationClears(w);
      InvalidationKeepsSound(w);
      HopelessIsLasting(start);
      LoopKeepsLasting(start, steps);
      forall i | 0 <= i < |RunTrace(w, steps)| ensures Hopeless(RunTrace(w, steps)[i]) {
        if i >= |cleared| {
          assert RunTrace(w, steps)[i] == LoopTrace(start, steps).0[i - |cleared|];
          LastingIsHopeless(RunTrace(w, steps)[i]);
        }
      }
    }
  }

  /** And it is for good: no run, of whatever steps, crashed or not, ends it. */
  lemma HopelessStays(happenings: seq<Happening>, steps: seq<StepName>, crash: Option<nat>)
    requires Hopeless(History(happenings))
    ensures Hopeless(After(History(happenings), Ran(steps, crash)))
  {
    var w := History(happenings);
    HistoriesAreSound(happenings);
    RunKeepsHopeless(w, steps);
    var trace := RunTrace(w, steps);
    if crash.Some? && 0 < crash.value < |trace| { assert Hopeless(trace[crash.value - 1]); }
    if trace != [] { assert Hopeless(trace[|trace| - 1]); }
  }

  /** So two full runs settle it: unless one of them returns, none ever will. */
  lemma TwoRunsTell(happenings: seq<Happening>)
    ensures var w, w' := History(happenings), History(happenings + [Ran(STEPS, None)]);
            Hopeless(w) <==> RunOutcome(w, STEPS) != Returned && RunOutcome(w', STEPS) != Returned
  {
    var again := happenings + [Ran(STEPS, None)];
    assert again[..|happenings|] == happenings;
    ReturnsExactly(happenings);
    ReturnsExactly(again);
    if Hopeless(History(happenings)) {
      HopelessStays(happenings, STEPS, None);
    } else if Surprised(History(happenings)) {
      SurpriseIsOver(happenings);
    }
  }

  // ----- the runner -----

  /** The state store and the world its steps act on, with every state they pass through. */
  class Provisioner {
    var done: set<StepName>
    var secrets: Secrets
    var hash: Option<Secrets>
    var fetched: bool
    var began: bool
    var repo: bool
    var uuid: bool
    var dir: Dir
    var scratch: bool
    var main: Main
    var barred: set<StepName>
    var cluster: Cluster
    var app: bool
    var patched: Option<Env>
    var deployed: Option<Env>
    var next: Secret
    ghost var passed: seq<World>

    ghost function View(): World
      reads this
    {
      World(File(done, secrets, hash, fetched, began, repo, uuid), dir, scratch, main, barred, cluster, app,
            patched, deployed, next)
    }

    /** What a method did: the states it passed through, of which it leaves the last. */
    twostate predicate Did(trace: seq<World>)
      reads this
    {
      passed == old(passed) + trace && View() == Last(old(View()), trace)
    }

    constructor ()
      ensures View() == History([]) && passed == []
    {
      done, secrets, hash := {}, NO_SECRETS, None;
      fetched, began, repo, uuid, app := false, false, false, false, false;
      dir, scratch, main, barred := Absent, false, NoRepository, {};
      cluster, patched, deployed, next := Cluster(None, None, None), None, None, 0;
      passed := [];
    }

    method MarkDone(step: StepName)
      modifies this
      ensures Did([Marked(old(View()), step)])
    {
      done := done + {step};
      passed := passed + [View()];
    }

    /** Writes nothing for a step that is not recorded. */
    method ClearDone(step: StepName)
      modifies this
      ensures Did(if step in old(done) then [Cleared(old(View()), step)] else [])
    {
      if step !in done { return; }
      done := done - {step};
      passed := passed + [View()];
    }

    /** What is recorded past it was done with the secrets the file holds. */
    method InvalidateStaleSecretSteps()
      modifies this
      ensures Did(InvalidateTrace(old(View())))
      ensures Coolify in done || Deploy in done ==> hash == Some(secrets)
      ensures done == if old(hash) == Some(old(secrets)) then old(done) else old(done) - {Coolify, Deploy}
    {
      if hash == Some(secrets) { return; }
      ClearDone(Coolify);
      ClearDone(Deploy);
    }

    /** The scratch directory, once the file says it is ours. */
    method FetchIntoScratch()
      modifies this
      ensures var w1 := old(View()).(scratch := false);
              var w2 := w1.(file := w1.file.(fetched := true));
              Did([w1, w2, w2.(scratch := true)])
    {
      scratch := false;
      passed := passed + [View()];
      fetched := true;
      passed := passed + [View()];
      scratch := true;
      passed := passed + [View()];
    }

    /** The file says so first, and then the scratch directory becomes the app's. */
    method RenameScratch()
      modifies this
      ensures var w1 := old(View()).(file := old(View()).file.(began := true));
              Did([w1, w1.(dir := Present(true, None), scratch := false)])
    {
      began := true;
      passed := passed + [View()];
      dir, scratch := Present(true, None), false;
      passed := passed + [View()];
    }

    /** The `template` step: it is refused without touching anything, or ends with a directory of ours. */
    method FetchTemplate() returns (through: bool)
      modifies this
      ensures through == TemplateTrace(old(View())).1 && Did(TemplateTrace(old(View())).0)
      ensures through <==> if old(dir).Present? then old(began) && old(dir).ours else !old(scratch) || old(fetched)
      ensures through ==> dir.Present? && dir.ours && began && !(old(dir).Absent? && scratch)
      ensures through ==> dir == if old(dir).Present? then old(dir) else Present(true, None)
      ensures !through ==> View() == old(View())
    {
      if dir.Present? { return began && dir.ours; }
      if scratch && !fetched { return false; }
      FetchIntoScratch();
      RenameScratch();
      return true;
    }

    /** The `install` step: the directory has a commit, the one it had if it had one. */
    method InstallApp() returns (through: bool)
      modifies this
      ensures through == InstallTrace(old(View())).1 && Did(InstallTrace(old(View())).0)
      ensures through <==> old(dir).Present?
      ensures through ==> dir.Present? && dir.head.Some? && dir.ours == old(dir).ours
      ensures through && old(dir).head.Some? ==> View() == old(View())
      ensures through && old(dir).head.None? ==> dir.head == Some(old(next)) && next == old(next) + 1
    {
      if dir.Absent? { return false; }
      if dir.head.Some? { return true; }
      dir, next := Present(dir.ours, Some(next)), next + 1;
      passed := passed + [View()];
      return true;
    }

    /** The `repo` step: `main` is at the directory's commit, and a commit that was there is never pushed over. */
    method PushRepository() returns (through: bool)
      modifies this
      ensures through == RepoTrace(old(View())).1 && Did(RepoTrace(old(View())).0)
      ensures through <==> dir.Present? && dir.head.Some? && (old(main).At? ==> old(main).commit == dir.head.value)
      ensures through ==> repo && dir.Present? && dir.head.Some? && main == At(dir.head.value)
      ensures old(main).At? ==> main == old(main)
      ensures !through ==> View() == old(View())
    {
      if dir.Absent? || dir.head.None? { return false; }
      if main.At? && main.commit != dir.head.value { return false; }
      if main == NoRepository {
        main := NoCommit;
        passed := passed + [View()];
      }
      if main == NoCommit {
        main := At(dir.head.value);
        passed := passed + [View()];
      }
      repo := true;
      passed := passed + [View()];
      return true;
    }

    /** `provisionRoles`: one role after the other. */
    method ProvisionRoles(m: Secret, a: Secret, r: Secret)
      modifies this
      ensures Did(RolesTrace(old(View()), m, a, r))
    {
      cluster := cluster.(migrator := Some(m));
      passed := passed + [View()];
      cluster := cluster.(application := Some(a));
      passed := passed + [View()];
      cluster := cluster.(readonly := Some(r));
      passed := passed + [View()];
    }

    /** The passwords go into the file once the cluster has them, and then the record. */
    method StorePasswords(m: Secret, a: Secret, r: Secret)
      modifies this
      ensures Did(StoredTrace(old(View()), m, a, r))
    {
      secrets := secrets.(migrator := Some(m), application := Some(a), readonly := Some(r));
      passed := passed + [View()];
      MarkDone(Database);
    }

    method ProvisionDatabase() returns (rotated: bool)
      modifies this
      ensures Did(DatabaseTrace(old(View())))
      ensures rotated <==> (old(secrets).migrator.None? || old(secrets).application.None?) &&
                           (old(cluster).migrator.Some? || old(cluster).application.Some?)
      ensures Database in done && secrets.migrator.Some? && secrets.application.Some?
      ensures (old(secrets).migrator.Some? ==> secrets.migrator == old(secrets).migrator) &&
              (old(secrets).application.Some? ==> secrets.application == old(secrets).application)
      ensures if Database in old(done) && old(secrets).migrator.Some? && old(secrets).application.Some?
              then View() == old(View()) else cluster == Cluster(secrets.migrator, secrets.application, secrets.readonly)
    {
      if Database in done && secrets.migrator.Some? && secrets.application.Some? { return false; }
      DatabaseTraceSplits(View());
      var regenerating := secrets.migrator.None? || secrets.application.None?;
      rotated := regenerating && (cluster.migrator.Some? || cluster.application.Some?);
      var m, a, r := Or(secrets.migrator, next), Or(secrets.application, next + 1), Or(secrets.readonly, next + 2);
      next := next + 3;
      ProvisionRoles(m, a, r);
      StorePasswords(m, a, r);
    }

    /** `buildAppEnvs`: it throws without the passwords, and makes the auth secret on first sight. */
    method BuildAppEnvs() returns (built: bool)
      modifies this
      ensures built == HasPasswords(old(View()).file)
      ensures Did(if built then [WithAuth(old(View()))] else [])
      ensures secrets == old(secrets).(auth := secrets.auth) && (built ==> secrets.auth.Some?)
    {
      if secrets.migrator.None? || secrets.application.None? { return false; }
      if secrets.auth.None? {
        secrets, next := secrets.(auth := Some(next)), next + 1;
      }
      passed := passed + [View()];
      return true;
    }

    /** `findOrCreateApplication`: it is there, and then the file names it. */
    method FindOrCreateApplication()
      modifies this
      ensures var w1 := old(View()).(app := true); Did([w1, w1.(file := w1.file.(uuid := true))])
    {
      app := true;
      passed := passed + [View()];
      uuid := true;
      passed := passed + [View()];
    }

    /** `runThroughTunnel`: the tokens, where the file has none. */
    method MintTokens()
      modifies this
      ensures Did([WithTokens(old(View()))])
    {
      if secrets.readToken.None? {
        secrets, next := secrets.(readToken := Some(next), writeToken := Some(next + 1)), next + 2;
      }
      passed := passed + [View()];
    }

    method SetUpApplication()
      modifies this
      ensures Did(ApplicationTrace(old(View())))
      ensures app && uuid && hash == Some(secrets) && secrets.readToken.Some?
      ensures patched.Some? && patched.value.migrator == secrets.migrator == old(secrets).migrator &&
              patched.value.application == secrets.application == old(secrets).application &&
              patched.value.auth == secrets.auth == old(secrets).auth
    {
      FindOrCreateApplication();
      patched := Some(EnvOf(secrets));
      passed := passed + [View()];
      MintTokens();
      hash := Some(secrets);
      passed := passed + [View()];
    }

    /** A step that gets through leaves Coolify with the file's secrets, and the file saying so. */
    method ConfigureCoolify() returns (through: bool)
      modifies this
      ensures through == CoolifyTrace(old(View())).1 && Did(CoolifyTrace(old(View())).0)
      ensures through <==> old(secrets).migrator.Some? && old(secrets).application.Some? && (old(app) || old(repo)) && dir.Present?
      ensures through ==> app && uuid && hash == Some(secrets) && secrets.readToken.Some?
      ensures through ==> patched.Some? && patched.value.migrator == secrets.migrator == old(secrets).migrator &&
                          patched.value.application == secrets.application == old(secrets).application &&
                          patched.value.auth == secrets.auth && secrets.auth.Some?
      ensures !through ==> patched == old(patched) && hash == old(hash) && app == old(app) && uuid == old(uuid)
    {
      ghost var before := View();
      var built := BuildAppEnvs();
      if !built || dir.Absent? || !(app || repo) { return false; }
      SetUpApplication();
      LastOfSum(before, [WithAuth(before)], ApplicationTrace(WithAuth(before)));
      return true;
    }

    method RunStep(step: StepName) returns (through: bool, rotated: bool)
      modifies this
      ensures through == StepTrace(old(View()), step).1 && Did(StepTrace(old(View()), step).0)
      ensures step !in old(done) ==> (rotated <==> step == Database && Rotates(old(View())))
    {
      through, rotated := true, false;
      match step {
        case Template => through := FetchTemplate();
        case Install => through := InstallApp();
        case Repo => through := PushRepository();
        case Database => rotated := ProvisionDatabase();
        case Coolify => through := ConfigureCoolify();
        case Deploy =>
          if !uuid || dir.Absent? || dir.head.None? || secrets.readToken.None? { return false, false; }
          deployed := patched;
          passed := passed + [View()];
        case _ => through := step !in barred;
      }
    }

    /** A step of the loop, recorded only once it got through. */
    method DoStep(step: StepName) returns (through: bool, rotated: bool)
      requires step !in done
      modifies this
      ensures through == StepTrace(old(View()), step).1
      ensures var trace := StepTrace(old(View()), step).0;
              Did(if through then trace + [Marked(Last(old(View()), trace), step)] else trace)
      ensures rotated <==> step == Database && Rotates(old(View()))
    {
      ghost var before := View();
      through, rotated := RunStep(step);
      if !through { return; }
      LastOfSum(before, StepTrace(before, step).0, [Marked(View(), step)]);
      MarkDone(step);
    }

    /** One turn of the loop: a step that is recorded is skipped. */
    method TakeTurn(steps: seq<StepName>) returns (through: bool, rotated: bool)
      requires steps != []
      modifies this
      ensures through ==>
                passed + LoopTrace(View(), steps[1..]).0 == old(passed) + LoopTrace(old(View()), steps).0 &&
                Last(View(), LoopTrace(View(), steps[1..]).0) == Last(old(View()), LoopTrace(old(View()), steps).0) &&
                LoopTrace(View(), steps[1..]).1 == LoopTrace(old(View()), steps).1
      ensures !through ==> !LoopTrace(old(View()), steps).1 && Did(LoopTrace(old(View()), steps).0)
      ensures rotated || (through && LoopRotates(View(), steps[1..])) <==> LoopRotates(old(View()), steps)
    {
      if steps[0] in done { return true, false; }
      LoopUnfolds(View(), steps);
      through, rotated := DoStep(steps[0]);
    }

    /** The loop. */
    method RunLoop(steps: seq<StepName>) returns (through: bool, rotated: bool)
      modifies this
      ensures through == LoopTrace(old(View()), steps).1 && Did(LoopTrace(old(View()), steps).0)
      ensures rotated == LoopRotates(old(View()), steps)
    {
      rotated := false;
      for i := 0 to |steps|
        invariant passed + LoopTrace(View(), steps[i..]).0 == old(passed) + LoopTrace(old(View()), steps).0
        invariant Last(View(), LoopTrace(View(), steps[i..]).0) == Last(old(View()), LoopTrace(old(View()), steps).0)
        invariant LoopTrace(View(), steps[i..]).1 == LoopTrace(old(View()), steps).1
        invariant rotated || LoopRotates(View(), steps[i..]) <==> LoopRotates(old(View()), steps)
      {
        assert steps[i..][1..] == steps[i + 1..];
        var rotates: bool;
        through, rotates := TakeTurn(steps[i..]);
        rotated := rotated || rotates;
        if !through { return false, rotated; }
      }
      return true, rotated;
    }

    /** The invalidation and the loop. */
    method Advance(steps: seq<StepName>) returns (through: bool, rotated: bool)
      requires InOrder(steps)
      modifies this
      ensures Did(RunTrace(old(View()), steps))
      ensures var start := Last(old(View()), InvalidateTrace(old(View())));
              through == LoopTrace(start, steps).1 && rotated == LoopRotates(start, steps)
    {
      ghost var before := View();
      InvalidateStaleSecretSteps();
      ghost var start := View();
      through, rotated := RunLoop(steps);
      LastOfSum(before, InvalidateTrace(before), LoopTrace(start, steps).0);
    }

    /** `runSteps`. */
    method RunSteps(steps: seq<StepName>) returns (outcome: Outcome)
      modifies this
      ensures outcome == RunOutcome(old(View()), steps) && Did(RunTrace(old(View()), steps))
      ensures Sound(old(View())) ==> Sound(View())
      ensures outcome == Returned ==> (forall i | 0 <= i < |steps| :: steps[i] in done) && (Coolify in done ==> hash == Some(secrets))
    {
      ghost var before := View();
      if Sound(before) { RunKeepsSound(before, steps); LastIsSound(before, RunTrace(before, steps)); }
      var ordered := IsInOrder(steps);
      if !ordered { return Violated; }
      RunSplits(before, steps);
      LoopRecords(Last(before, InvalidateTrace(before)), steps);
      var through, rotated := Advance(steps);
      if !through { return StepFailed; }
      if Coolify in done && hash != Some(secrets) { return Violated; }
      if rotated && !(Coolify in done && hash == Some(secrets)) { return Violated; }
      return Returned;
    }

    /** `assertStepOrder` compares neighbours. */
    method IsInOrder(steps: seq<StepName>) returns (ok: bool)
      ensures ok == InOrder(steps)
    {
      var i := 1;
      while i < |steps|
        invariant 1 <= i && (i == 1 || i <= |steps|) && (i <= |steps| ==> InOrder(steps[..i]))
      {
        if Position(steps[i]) <= Position(steps[i - 1]) {
          assert !InOrder(steps);
          return false;
        }
        assert steps[..i][i - 1] == steps[i - 1];
        assert steps[..i + 1] == steps[..i] + [steps[i]];
        i := i + 1;
      }
      assert |steps| > 0 ==> i == |steps| && steps[..|steps|] == steps;
      return true;
    }
  }

  lemma LoopUnfolds(w: World, steps: seq<StepName>)
    requires steps != [] && steps[0] !in w.file.done
    ensures var (trace, through) := StepTrace(w, steps[0]);
            if through then
              LoopTrace(w, steps) ==
                (trace + [Marked(Last(w, trace), steps[0])] + LoopTrace(Marked(Last(w, trace), steps[0]), steps[1..]).0,
                 LoopTrace(Marked(Last(w, trace), steps[0]), steps[1..]).1)
            else LoopTrace(w, steps) == (trace, false)
  {
  }
}
