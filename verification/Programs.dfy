/**
 * The commands and status writes of one backup or restore run, as a decision tree.
 * Every node that talks to the cluster branches on an outcome the cluster chooses, so a statement
 * about all paths of a tree is a statement about every pattern of command and write failures.
 */
module Programs {
  import opened Text

  datatype Condition =
    | BackupInitialized | QuietDownStarted | BackupCompleted | QuietDownCancelled
    | RestoreInitialized | RestoreCompleted | RestartStarted | SafeRestartStarted

  // SetCondition keeps one entry per type, so a list of conditions is a map from type to "is True".
  type Conditions = map<Condition, bool>

  datatype Command = Script(path: string) | Mkdir(dir: string) | Copy(from: string, to: string)

  datatype Program =
    | Halt
    | InitClient(inited: Program, refused: Program)
    | Exec(cmd: Command, ok: Program, failed: Program)
    | Set(condition: Condition, status: bool, next: Program)
    | Update(next: Program) // a status write; an error ends the run

  datatype Event =
    | Inited(ok: bool)
    | Ran(cmd: Command, ok: bool)
    | Updated(conditions: Conditions, ok: bool)

  datatype Progress = Progress(rest: Program, conditions: Conditions)

  /** Conditions are set in memory; nothing outside the run sees it. */
  function Settle(p: Progress): (r: Progress)
    ensures !r.rest.Set?
    ensures p.conditions.Keys <= r.conditions.Keys
    decreases p.rest
  {
    if p.rest.Set? then Settle(Progress(p.rest.next, p.conditions[p.rest.condition := p.rest.status])) else p
  }

  /** What the run does next after one event, if that event is one it can produce here. */
  function After(p: Progress, e: Event): (r: Option<Progress>)
    requires !p.rest.Set?
    ensures r.Some? ==> !r.value.rest.Set?
  {
    match (p.rest, e)
    case (InitClient(inited, refused), Inited(ok)) =>
      Some(Settle(Progress(if ok then inited else refused, p.conditions)))
    case (Exec(cmd, done, failed), Ran(c, ok)) =>
      if c == cmd then Some(Settle(Progress(if ok then done else failed, p.conditions))) else None
    case (Update(next), Updated(conditions, ok)) =>
      if conditions == p.conditions then Some(Settle(Progress(if ok then next else Halt, p.conditions))) else None
    case _ => None
  }

  /** Where a run stands once it has produced events; None if it cannot have produced them. */
  function Follow(p: Progress, events: seq<Event>): (r: Option<Progress>)
    ensures r.Some? ==> !r.value.rest.Set?
    decreases |events|
  {
    if events == [] then Some(Settle(p))
    else
      var next := After(Settle(p), events[0]);
      if next.None? then None else Follow(next.value, events[1..])
  }

  function Commands(events: seq<Event>): (r: seq<Command>) {
    if events == [] then []
    else (if events[0].Ran? then [events[0].cmd] else []) + Commands(events[1..])
  }

  predicate WritesSucceed(events: seq<Event>) {
    forall i | 0 <= i < |events| :: events[i].Updated? ==> events[i].ok
  }

  /** No mkdir and no cp has failed; a script may have. */
  predicate FilesSucceed(events: seq<Event>) {
    forall i | 0 <= i < |events| :: events[i].Ran? && !events[i].cmd.Script? ==> events[i].ok
  }

  predicate HasRun(events: seq<Event>) {
    exists i | 0 <= i < |events| :: events[i].Ran?
  }

  predicate HasWritten(events: seq<Event>) {
    exists i | 0 <= i < |events| :: events[i].Updated? && events[i].ok
  }

  /** How the run's first mkdir came out, once it has run. */
  function Made(events: seq<Event>): Option<bool> {
    if events == [] then None
    else if events[0].Ran? && events[0].cmd.Mkdir? then Some(events[0].ok)
    else Made(events[1..])
  }

  // ---- the two programs -------------------------------------------------------------------

  datatype Options = Options(config: bool, jobs: bool, plugins: bool)
  datatype Strategy = Strategy(quietDown: bool, options: Options, restart: bool, safe: bool)

  /** A Backup or Restore object as one run reads it, with the strategy it names. */
  datatype Job = BackupJob(volume: string, name: string, strategy: Strategy)
               | RestoreJob(volume: string, name: string, strategy: Strategy)

  const JENKINS_HOME := "/var/lib/jenkins"
  const BACKUPS := "/jenkins-backups"
  const QUIET_DOWN := Script("sh /jenkins-operator-scripts/quietdown.sh")
  const CANCEL_QUIET_DOWN := Script("sh /jenkins-operator-scripts/cancelquietdown.sh")
  const RESTART := Script("sh /jenkins-operator-scripts/restart.sh")
  const SAFE_RESTART := Script("sh /jenkins-operator-scripts/saferestart.sh")
  const XML := "*.xml"

  function Locations(options: Options): seq<string> {
    (if options.config then [XML] else []) + (if options.jobs then ["jobs"] else []) +
    (if options.plugins then ["plugins"] else [])
  }

  function BackupDir(volume: string, name: string): string {
    BACKUPS + "/" + volume + "/" + name
  }

  function BackupCopy(volume: string, name: string, location: string): Command {
    Copy(JENKINS_HOME + "/" + location, BackupDir(volume, name) + "/")
  }

  function RestoreCopy(volume: string, name: string, location: string): Command {
    if location == XML then Copy(BackupDir(volume, name) + "/" + location, JENKINS_HOME + "/" + "")
    else Copy(BackupDir(volume, name) + "/" + (location + "/*"), JENKINS_HOME + "/" + location)
  }

  function QuietDownThen(k: Program): Program {
    Exec(QUIET_DOWN, Set(QuietDownStarted, true, Update(k)), Set(QuietDownStarted, false, Update(k)))
  }

  function CancelQuietDownThen(k: Program): Program {
    Exec(CANCEL_QUIET_DOWN, Set(QuietDownCancelled, true, Update(k)), Set(QuietDownCancelled, false, Update(k)))
  }

  /** The copy loop: a failed copy is recorded and the loop goes on. */
  function BackupCopiesThen(volume: string, name: string, locations: seq<string>, k: Program): Program
    decreases |locations|
  {
    if locations == [] then Update(k)
    else
      var rest := BackupCopiesThen(volume, name, locations[1..], k);
      Exec(BackupCopy(volume, name, locations[0]), rest, Set(BackupCompleted, false, Update(rest)))
  }

  function BackupThen(volume: string, name: string, options: Options, k: Program): Program {
    var locations := Locations(options);
    Exec(Mkdir(BackupDir(volume, name) + "/"),
         if locations == [] then k else BackupCopiesThen(volume, name, locations, k),
         Set(BackupCompleted, false, Update(k)))
  }

  function BackupProgram(volume: string, name: string, strategy: Strategy): Program {
    var finish := Set(BackupCompleted, true, Update(Halt));
    var cancel := if strategy.quietDown then CancelQuietDownThen(finish) else finish;
    var backup := BackupThen(volume, name, strategy.options, cancel);
    var main := if strategy.quietDown then QuietDownThen(backup) else backup;
    InitClient(Set(BackupInitialized, true, Update(main)), Set(BackupInitialized, false, Update(Halt)))
  }

  /** The copy loop: a failed copy is recorded and ends the loop. */
  function RestoreCopiesThen(volume: string, name: string, locations: seq<string>, k: Program): Program
    decreases |locations|
  {
    if locations == [] then Set(RestoreCompleted, true, Update(k))
    else
      Exec(RestoreCopy(volume, name, locations[0]), RestoreCopiesThen(volume, name, locations[1..], k),
           Set(RestoreCompleted, false, Update(k)))
  }

  function RestoreThen(volume: string, name: string, options: Options, k: Program): Program {
    var locations := Locations(options);
    if locations == [] then k else RestoreCopiesThen(volume, name, locations, k)
  }

  function RestartThen(strategy: Strategy, k: Program): Program {
    if strategy.restart && strategy.safe then
      Exec(SAFE_RESTART, Set(SafeRestartStarted, true, k), Set(SafeRestartStarted, false, Update(k)))
    else if strategy.restart then
      Exec(RESTART, Set(RestartStarted, true, k), Set(RestartStarted, false, Update(k)))
    else k
  }

  function RestoreProgram(volume: string, name: string, strategy: Strategy): Program {
    var main := RestoreThen(volume, name, strategy.options, RestartThen(strategy, Update(Halt)));
    InitClient(Set(RestoreInitialized, true, Update(main)), Set(RestoreInitialized, false, Update(Halt)))
  }

  function ProgramOf(job: Job): Program {
    match job
    case BackupJob(volume, name, strategy) => BackupProgram(volume, name, strategy)
    case RestoreJob(volume, name, strategy) => RestoreProgram(volume, name, strategy)
  }

  /** The job's run has produced events and stands at r. */
  predicate Reaches(job: Job, events: seq<Event>, r: Progress) {
    Follow(Progress(ProgramOf(job), map[]), events) == Some(r)
  }

  lemma {:induction false} FollowStep(p: Progress, events: seq<Event>, e: Event)
    requires Follow(p, events).Some?
    ensures Follow(p, events + [e]) == After(Follow(p, events).value, e)
    decreases |events|
  {
    if events == [] {
      assert (events + [e])[1..] == [];
      var next := After(Settle(p), e);
      assert next.Some? ==> Settle(next.value) == next.value;
    } else {
      assert (events + [e])[1..] == events[1..] + [e];
      FollowStep(After(Settle(p), events[0]).value, events[1..], e);
    }
  }

  lemma {:induction false} CommandsStep(events: seq<Event>, e: Event)
    ensures Commands(events + [e]) == Commands(events) + if e.Ran? then [e.cmd] else []
  {
    if events != [] {
      assert (events + [e])[1..] == events[1..] + [e];
      CommandsStep(events[1..], e);
    }
  }
}
