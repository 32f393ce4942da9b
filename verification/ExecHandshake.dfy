/**
 * The exec client's handshake: a request starts a worker that streams the remote command, sends its
 * error on one channel and then a completion on another; the caller receives them the other way
 * round. Worker and caller are scheduled in any order, over any sequence of requests.
 */
module ExecHandshake {

  /** An error as the caller sees it; the empty text stands for nil. */
  type Error = string

  /** How request n fares: refused before any worker starts, or a stream that returns an error. */
  datatype Fate = Refused(error: Error) | Streams(error: Error)

  datatype Caller = Idle | AwaitsCompletion | AwaitsError
  datatype Worker = Streaming | SendingError(error: Error) | SendingCompletion | Exited

  datatype State = State(
    capacity: nat,            // of both channels
    caller: Caller,
    workers: seq<Worker>,     // every worker ever started
    execErr: seq<Error>,
    execComplete: seq<bool>,
    results: seq<Error>)      // what each finished request returned

  datatype Step = Request | Return | SendError | SendCompletion | ReceiveCompletion | ReceiveError

  type Fates = nat -> Fate

  predicate Init(s: State) {
    s == State(s.capacity, Idle, [], [], [], [])
  }

  /** A send goes through if the channel has room, or (unbuffered) if the receiver is waiting on it. */
  predicate Enabled(fates: Fates, s: State, step: Step, w: nat) {
    match step
    case Request => s.caller == Idle
    case Return => w < |s.workers| && s.workers[w].Streaming?
    case SendError =>
      && w < |s.workers| && s.workers[w].SendingError?
      && (|s.execErr| < s.capacity || (s.capacity == 0 && s.caller == AwaitsError))
    case SendCompletion =>
      && w < |s.workers| && s.workers[w].SendingCompletion?
      && (|s.execComplete| < s.capacity || (s.capacity == 0 && s.caller == AwaitsCompletion))
    case ReceiveCompletion => s.caller == AwaitsCompletion && s.execComplete != []
    case ReceiveError => s.caller == AwaitsError && s.execErr != []
  }

  function Apply(fates: Fates, s: State, step: Step, w: nat): State
    requires Enabled(fates, s, step, w)
  {
    match step
    case Request =>
      var fate := fates(|s.results|);
      if fate.Refused? then s.(results := s.results + [fate.error])
      else s.(caller := AwaitsCompletion, workers := s.workers + [Streaming])
    case Return => s.(workers := s.workers[w := SendingError(fates(|s.results|).error)])
    case SendError =>
      var error := s.workers[w].error;
      var sent := s.(workers := s.workers[w := SendingCompletion]);
      if s.capacity == 0 then sent.(caller := Idle, results := s.results + [error])
      else sent.(execErr := s.execErr + [error])
    case SendCompletion =>
      var sent := s.(workers := s.workers[w := Exited]);
      if s.capacity == 0 then sent.(caller := AwaitsError) else sent.(execComplete := s.execComplete + [true])
    case ReceiveCompletion => s.(caller := AwaitsError, execComplete := s.execComplete[1..])
    case ReceiveError =>
      s.(caller := Idle, execErr := s.execErr[1..], results := s.results + [s.execErr[0]])
  }

  datatype Move = Move(step: Step, worker: nat)

  ghost predicate Moves(fates: Fates, states: seq<State>, moves: seq<Move>, k: nat)
    requires k < |moves| && k + 1 < |states|
  {
    && Enabled(fates, states[k], moves[k].step, moves[k].worker)
    && states[k + 1] == Apply(fates, states[k], moves[k].step, moves[k].worker)
  }

  ghost predicate Behavior(fates: Fates, states: seq<State>, moves: seq<Move>) {
    && |states| == |moves| + 1
    && Init(states[0])
    && forall k: nat | k < |moves| :: Moves(fates, states, moves, k)
  }

  predicate AllExited(workers: seq<Worker>) {
    forall w | 0 <= w < |workers| :: workers[w] == Exited
  }

  function Last(s: State): Worker
    requires s.workers != []
  {
    s.workers[|s.workers| - 1]
  }

  predicate Returned(fates: Fates, results: seq<Error>) {
    forall n | 0 <= n < |results| :: results[n] == fates(n).error
  }

  /** With room in the channels. */
  predicate Sound(fates: Fates, s: State) {
    var error := fates(|s.results|).error;
    && Returned(fates, s.results)
    && match s.caller
       case Idle => AllExited(s.workers) && s.execErr == [] && s.execComplete == []
       case AwaitsCompletion =>
         && s.workers != [] && AllExited(s.workers[..|s.workers| - 1])
         && (match Last(s)
             case Streaming => s.execErr == [] && s.execComplete == []
             case SendingError(e) => e == error && s.execErr == [] && s.execComplete == []
             case SendingCompletion => s.execErr == [error] && s.execComplete == []
             case Exited => s.execErr == [error] && s.execComplete == [true])
       case AwaitsError => AllExited(s.workers) && s.execErr == [error] && s.execComplete == []
  }

  /** Without room: every stream that starts is stuck with its error, or not done yet. */
  predicate Stuck(fates: Fates, s: State) {
    && Returned(fates, s.results)
    && (forall n | 0 <= n < |s.results| :: fates(n).Refused?)
    && s.execErr == [] && s.execComplete == []
    && match s.caller
       case Idle => s.workers == []
       case AwaitsCompletion => |s.workers| == 1 && (s.workers[0].Streaming? || s.workers[0].SendingError?)
       case AwaitsError => false
  }

  lemma SoundStep(fates: Fates, s: State, step: Step, w: nat)
    requires s.capacity >= 1 && Sound(fates, s) && Enabled(fates, s, step, w)
    ensures Sound(fates, Apply(fates, s, step, w)) && Apply(fates, s, step, w).capacity >= 1
  {
    var s' := Apply(fates, s, step, w);
    if step in {Return, SendError, SendCompletion} {
      assert w == |s.workers| - 1;
      assert s'.workers[..w] == s.workers[..w];
    } else if step == ReceiveCompletion {
      assert forall i | 0 <= i < |s.workers| - 1 :: s.workers[i] == s.workers[..|s.workers| - 1][i];
    } else if step == Request && s' != s && s'.caller == AwaitsCompletion {
      assert s'.workers[..|s'.workers| - 1] == s.workers;
    }
  }

  lemma {:induction false} Reachable(fates: Fates, states: seq<State>, moves: seq<Move>, k: nat)
    requires Behavior(fates, states, moves) && k < |states|
    ensures states[k].capacity == states[0].capacity
    ensures states[0].capacity >= 1 ==> Sound(fates, states[k])
    ensures states[0].capacity == 0 ==> Stuck(fates, states[k])
  {
    if k > 0 {
      Reachable(fates, states, moves, k - 1);
      assert Moves(fates, states, moves, k - 1);
      if states[0].capacity >= 1 {
        SoundStep(fates, states[k - 1], moves[k - 1].step, moves[k - 1].worker);
      }
    }
  }

  // ---- the theorems -----------------------------------------------------------------------

  /** Each request returns the error of its own stream, never another's. */
  lemma EachRequestGetsItsOwnError(fates: Fates, states: seq<State>, moves: seq<Move>, k: nat, n: nat)
    requires Behavior(fates, states, moves) && k < |states| && n < |states[k].results|
    ensures states[k].results[n] == fates(n).error
  {
    Reachable(fates, states, moves, k);
  }

  /** Between requests the channels are empty and no worker is left behind. */
  lemma NothingLeftBetweenRequests(fates: Fates, states: seq<State>, moves: seq<Move>, k: nat)
    requires Behavior(fates, states, moves) && k < |states| && states[k].capacity >= 1 && states[k].caller == Idle
    ensures states[k].execErr == [] && states[k].execComplete == [] && AllExited(states[k].workers)
  {
    Reachable(fates, states, moves, k);
  }

  ghost predicate CanMove(fates: Fates, s: State) {
    exists step, w :: Enabled(fates, s, step, w)
  }

  /** How far a request still has to go. */
  function Distance(s: State): nat {
    match s.caller
    case Idle => 0
    case AwaitsError => 1
    case AwaitsCompletion =>
      if s.workers == [] then 0
      else match Last(s) case Exited => 2 case SendingCompletion => 3 case SendingError(_) => 4 case Streaming => 5
  }

  /** With channels of capacity one or more, some step is always possible and every send goes through at once. */
  lemma NeverDeadlocks(fates: Fates, states: seq<State>, moves: seq<Move>, k: nat)
    requires Behavior(fates, states, moves) && k < |states| && states[k].capacity >= 1
    ensures CanMove(fates, states[k])
    ensures forall w | 0 <= w < |states[k].workers| ::
              && (states[k].workers[w].SendingError? ==> Enabled(fates, states[k], SendError, w))
              && (states[k].workers[w].SendingCompletion? ==> Enabled(fates, states[k], SendCompletion, w))
  {
    Reachable(fates, states, moves, k);
    var s := states[k];
    if s.workers != [] {
      var w := |s.workers| - 1;
      assert forall i | 0 <= i < w :: s.workers[i] == s.workers[..w][i];
      assert CanMove(fates, s) by {
        if s.caller == Idle { assert Enabled(fates, s, Request, w); }
        else if s.caller == AwaitsError { assert Enabled(fates, s, ReceiveError, w); }
        else if s.workers[w].Streaming? { assert Enabled(fates, s, Return, w); }
        else if s.workers[w].SendingError? { assert Enabled(fates, s, SendError, w); }
        else if s.workers[w].SendingCompletion? { assert Enabled(fates, s, SendCompletion, w); }
        else { assert Enabled(fates, s, ReceiveCompletion, w); }
      }
    } else {
      assert Enabled(fates, s, if s.caller == Idle then Request else ReceiveError, 0);
    }
  }

  /** Every step of a request brings it nearer its end, so it ends if its stream returns. */
  lemma EachStepIsProgress(fates: Fates, states: seq<State>, moves: seq<Move>, k: nat)
    requires Behavior(fates, states, moves) && k < |moves| && states[k].capacity >= 1 && moves[k].step != Request
    ensures Distance(states[k + 1]) < Distance(states[k])
    ensures Distance(states[k + 1]) == 0 ==> |states[k + 1].results| == |states[k].results| + 1
  {
    Reachable(fates, states, moves, k);
    Reachable(fates, states, moves, k + 1);
    assert Moves(fates, states, moves, k);
    var s := states[k];
    if s.workers != [] {
      assert forall i | 0 <= i < |s.workers| - 1 :: s.workers[i] == s.workers[..|s.workers| - 1][i];
    }
  }

  /**
   * The capacity matters: with unbuffered channels no request that starts a stream ever returns, and
   * once the stream has returned nothing can move.
   */
  lemma UnbufferedDeadlocks(fates: Fates, states: seq<State>, moves: seq<Move>, k: nat)
    requires Behavior(fates, states, moves) && k < |states| && states[k].capacity == 0
    ensures forall n | 0 <= n < |states[k].results| :: fates(n).Refused?
    ensures (exists w | 0 <= w < |states[k].workers| :: states[k].workers[w].SendingError?) ==> !CanMove(fates, states[k])
  {
    Reachable(fates, states, moves, k);
  }
}
