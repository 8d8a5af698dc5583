/**
 Who may use a pane's audio route: the registry and idle expiry of
 crates/muxd/src/audio.rs and the acquisition of crates/muxd/src/audio/provider.rs.
 Each region under the registry lock is one step, and so is each atomic load and
 store outside it, so every race between expiry, joining and cancellation is a
 schedule. A step whose guard does not hold changes nothing.
 */
module AudioRoute {
  import opened Wrappers

  const IDLE_MS: nat := 300

  type Name = string
  type RouteId = nat
  type PermitId = nat
  type LeaseId = nat
  type TaskId = nat

  datatype Reason = Disconnected | Lapsed | IdleExpired

  // The expiry check between its loads.
  datatype Check =
    | Resting
    | SawConnected
    | SawInvalid
    | PermitHolds
    | SawClaimed
    | SawIdle
    | Verdict(reason: Reason)

  datatype Route = Route(
    attachment: nat, accepting: bool, ready: bool, closed: bool, users: int,
    permit: Option<PermitId>, check: Check, idle: Option<nat>)

  datatype Permit = Permit(connected: bool, valid: bool, claimed: bool)

  // An acquisition between its awaits and stores.
  datatype Stage =
    | First
    | Gated
    | WantPermit
    | Pending(permit: PermitId)
    | Ready(permit: PermitId)
    | Joined(permit: PermitId)
    | Claimed(permit: PermitId)
    | Granted
    | Failed

  datatype Task = Task(name: Name, attachment: nat, stage: Stage)

  // `enabled` is whether this host offers audio devices at all.
  datatype State = State(
    enabled: bool,
    now: nat,
    routes: map<Name, RouteId>,
    route: map<RouteId, Route>,
    permits: map<PermitId, Permit>,
    leases: map<LeaseId, RouteId>,
    tasks: map<TaskId, Task>)

  datatype Action =
    | Tick(ms: nat)
    | SetEnabled(on: bool)
    | OpenRoute(name: Name, id: RouteId, attachment: nat, under: Option<PermitId>)
    | CloseRoute(id: RouteId)
    | Begin(task: TaskId, name: Name, attachment: nat)
    | TryJoin(task: TaskId, lease: LeaseId)
    | Request(task: TaskId, permit: PermitId)
    | Respond(task: TaskId, ok: bool)
    | Activate(task: TaskId, lease: LeaseId)
    | Claim(task: TaskId)
    | DropPending(task: TaskId)
    | Cancel(task: TaskId)
    | DropLease(lease: LeaseId)
    | Disconnect(permit: PermitId)
    | CheckNext(id: RouteId)

  // ------------------------------------------------------------------ steps

  function OpenRouteStep(s: State, name: Name, id: RouteId, attachment: nat, permit: Option<PermitId>): State {
    if !s.enabled || id in s.route || (permit.Some? && permit.value !in s.permits) then s
    else if name in s.routes && s.routes[name] in s.route && !s.route[s.routes[name]].closed then s
    else s.(routes := s.routes[name := id],
            route := s.route[id := Route(attachment, true, permit.None?, false, 0, permit, Resting, None)])
  }

  predicate Joinable(s: State, name: Name, attachment: nat, activate: bool) {
    && name in s.routes && s.routes[name] in s.route
    && var r := s.route[s.routes[name]];
       && r.attachment == attachment && r.accepting && !r.closed
       && (activate || r.ready)
  }

  // One more user, under the registry lock.
  function JoinStep(s: State, name: Name, lease: LeaseId, activate: bool): State
    requires name in s.routes && s.routes[name] in s.route
  {
    var id := s.routes[name];
    var r := s.route[id];
    s.(route := s.route[id := r.(users := r.users + 1, ready := r.ready || activate)],
       leases := s.leases[lease := id])
  }

  function SetStage(s: State, task: TaskId, stage: Stage): State
    requires task in s.tasks
  {
    s.(tasks := s.tasks[task := s.tasks[task].(stage := stage)])
  }

  function Invalidate(s: State, permit: PermitId): State {
    if permit in s.permits then s.(permits := s.permits[permit := s.permits[permit].(valid := false)]) else s
  }

  function TryJoinStep(s: State, task: TaskId, lease: LeaseId): State {
    if task !in s.tasks || lease in s.leases then s else
      var t := s.tasks[task];
      if !t.stage.First? && !t.stage.Gated? then s
      else if Joinable(s, t.name, t.attachment, false) then SetStage(JoinStep(s, t.name, lease, false), task, Granted)
      else SetStage(s, task, if t.stage.First? then Gated else WantPermit)
  }

  function RequestStep(s: State, task: TaskId, permit: PermitId): State {
    if task in s.tasks && s.tasks[task].stage.WantPermit? && permit !in s.permits then
      SetStage(s, task, Pending(permit)).(permits := s.permits[permit := Permit(true, true, false)])
    else s
  }

  function RespondStep(s: State, task: TaskId, ok: bool): State {
    if task in s.tasks && s.tasks[task].stage.Pending? then
      var p := s.tasks[task].stage.permit;
      if ok then SetStage(s, task, Ready(p)) else SetStage(Invalidate(s, p), task, Failed)
    else s
  }

  function ActivateStep(s: State, task: TaskId, lease: LeaseId): State {
    if task in s.tasks && s.tasks[task].stage.Ready? && lease !in s.leases then
      var t := s.tasks[task];
      if Joinable(s, t.name, t.attachment, true)
      then SetStage(JoinStep(s, t.name, lease, true), task, Joined(t.stage.permit))
      else SetStage(Invalidate(s, t.stage.permit), task, Failed)
    else s
  }

  function ClaimStep(s: State, task: TaskId): State {
    if task in s.tasks && s.tasks[task].stage.Joined? && s.tasks[task].stage.permit in s.permits then
      var p := s.tasks[task].stage.permit;
      SetStage(s, task, Claimed(p)).(permits := s.permits[p := s.permits[p].(claimed := true)])
    else s
  }

  // Leaving the acquisition's scope withdraws the permit.
  function DropPendingStep(s: State, task: TaskId): State {
    if task in s.tasks && s.tasks[task].stage.Claimed?
    then SetStage(Invalidate(s, s.tasks[task].stage.permit), task, Granted) else s
  }

  // Cancellation can only land at an await, so never between join and claim.
  function CancelStep(s: State, task: TaskId): State {
    if task !in s.tasks then s else
      match s.tasks[task].stage
      case Pending(p) => SetStage(Invalidate(s, p), task, Failed)
      case First => SetStage(s, task, Failed)
      case Gated => SetStage(s, task, Failed)
      case WantPermit => SetStage(s, task, Failed)
      case _ => s
  }

  function DropLeaseStep(s: State, lease: LeaseId): State {
    if lease in s.leases && s.leases[lease] in s.route then
      var id := s.leases[lease];
      s.(leases := s.leases - {lease}, route := s.route[id := s.route[id].(users := s.route[id].users - 1)])
    else s
  }

  // One load, or the final locked region, of the expiry check.
  function CheckRoute(r: Route, p: Permit, now: nat): Route {
    match r.check
    case Resting => r.(check := if p.connected then SawConnected else Verdict(Disconnected))
    case SawConnected => r.(check := if p.valid then PermitHolds else SawInvalid)
    case SawInvalid => r.(check := if p.claimed then PermitHolds else Verdict(Lapsed))
    case PermitHolds => if p.claimed then r.(check := SawClaimed) else r.(check := Resting, idle := None)
    case SawClaimed =>
      if r.users != 0 then r.(check := Resting, idle := None) else
        var since := if r.idle.Some? then r.idle.value else now;
        r.(idle := Some(since), check := if now < since + IDLE_MS then Resting else SawIdle)
    case SawIdle => if r.users != 0 then r.(check := Resting) else r.(accepting := false, check := Verdict(IdleExpired))
    case Verdict(_) => r
  }

  function CheckNextStep(s: State, id: RouteId): State {
    if id in s.route && !s.route[id].closed && s.route[id].permit.Some? && s.route[id].permit.value in s.permits
    then s.(route := s.route[id := CheckRoute(s.route[id], s.permits[s.route[id].permit.value], s.now)]) else s
  }

  function Step(s: State, a: Action): State {
    match a
    case Tick(ms) => s.(now := s.now + ms)
    case SetEnabled(on) => s.(enabled := on)
    case OpenRoute(name, id, attachment, permit) => OpenRouteStep(s, name, id, attachment, permit)
    case CloseRoute(id) => if id in s.route then s.(route := s.route[id := s.route[id].(closed := true)]) else s
    case Begin(task, name, attachment) =>
      if task in s.tasks then s else s.(tasks := s.tasks[task := Task(name, attachment, First)])
    case TryJoin(task, lease) => TryJoinStep(s, task, lease)
    case Request(task, permit) => RequestStep(s, task, permit)
    case Respond(task, ok) => RespondStep(s, task, ok)
    case Activate(task, lease) => ActivateStep(s, task, lease)
    case Claim(task) => ClaimStep(s, task)
    case DropPending(task) => DropPendingStep(s, task)
    case Cancel(task) => CancelStep(s, task)
    case DropLease(lease) => DropLeaseStep(s, lease)
    case Disconnect(permit) =>
      if permit in s.permits then s.(permits := s.permits[permit := s.permits[permit].(connected := false)]) else s
    case CheckNext(id) => CheckNextStep(s, id)
  }

  function Run(s: State, schedule: seq<Action>): State
    decreases |schedule|
  {
    if schedule == [] then s else Run(Step(s, schedule[0]), schedule[1..])
  }

  function Start(): State { State(false, 0, map[], map[], map[], map[], map[]) }

  // ------------------------------------------------------------- invariant

  function LeasesOn(leases: map<LeaseId, RouteId>, id: RouteId): set<LeaseId> {
    set l | l in leases && leases[l] == id
  }

  // Users are exactly the live leases, and a route that stopped accepting has
  // none.
  predicate RouteOk(leases: map<LeaseId, RouteId>, id: RouteId, r: Route) {
    && r.users == |LeasesOn(leases, id)|
    && (!r.accepting ==> r.users == 0)
    && (r.check == Verdict(IdleExpired) ==> !r.accepting)
  }

  predicate LeaseInv(s: State) {
    && (forall l :: l in s.leases ==> s.leases[l] in s.route)
    && (forall id :: id in s.route ==> RouteOk(s.leases, id, s.route[id]))
  }

  predicate CheckOk(permits: map<PermitId, Permit>, r: Route) {
    && (r.permit.Some? ==> r.permit.value in permits)
    && (r.check == SawInvalid ==> r.permit.Some? && !permits[r.permit.value].valid)
    && (r.check == Verdict(Lapsed) ==>
          r.permit.Some? && !permits[r.permit.value].valid && !permits[r.permit.value].claimed)
  }

  predicate CheckInv(s: State) {
    forall id :: id in s.route ==> CheckOk(s.permits, s.route[id])
  }

  // The permit a task still has in hand.
  predicate HasPermit(t: Task) {
    t.stage.Pending? || t.stage.Ready? || t.stage.Joined? || t.stage.Claimed?
  }

  // A permit in hand is valid, and claimed exactly once its task has said so.
  predicate TaskOk(permits: map<PermitId, Permit>, t: Task) {
    HasPermit(t) ==>
      && t.stage.permit in permits && permits[t.stage.permit].valid
      && (permits[t.stage.permit].claimed <==> t.stage.Claimed?)
  }

  predicate TaskInv(s: State) {
    && (forall k :: k in s.tasks ==> TaskOk(s.permits, s.tasks[k]))
    && (forall j, k :: j in s.tasks && k in s.tasks && HasPermit(s.tasks[j]) && HasPermit(s.tasks[k]) ==>
          (s.tasks[j].stage.permit == s.tasks[k].stage.permit ==> j == k))
  }

  predicate Inv(s: State) { LeaseInv(s) && CheckInv(s) && TaskInv(s) }

  // A withdrawn permit never comes back, and its claim is settled.
  predicate Aged(before: map<PermitId, Permit>, after: map<PermitId, Permit>) {
    forall p :: p in before ==>
      p in after && (!before[p].valid ==> !after[p].valid && after[p].claimed == before[p].claimed)
  }

  lemma AgedChecks(s: State, s': State)
    requires CheckInv(s) && s'.route == s.route && Aged(s.permits, s'.permits)
    ensures CheckInv(s')
  {
    forall id | id in s'.route ensures CheckOk(s'.permits, s'.route[id]) { assert CheckOk(s.permits, s.route[id]); }
  }

  // Leases change one at a time, with their route's count.
  lemma LeaseCount(leases: map<LeaseId, RouteId>, lease: LeaseId, id: RouteId, x: RouteId)
    requires lease !in leases
    ensures |LeasesOn(leases[lease := id], x)| == |LeasesOn(leases, x)| + (if x == id then 1 else 0)
  {
    if x == id {
      assert LeasesOn(leases[lease := id], x) == LeasesOn(leases, x) + {lease};
    } else {
      assert LeasesOn(leases[lease := id], x) == LeasesOn(leases, x);
    }
  }

  lemma JoinKeeps(s: State, name: Name, attachment: nat, lease: LeaseId, activate: bool)
    requires LeaseInv(s) && CheckInv(s) && Joinable(s, name, attachment, activate) && lease !in s.leases
    ensures LeaseInv(JoinStep(s, name, lease, activate)) && CheckInv(JoinStep(s, name, lease, activate))
  {
    var s' := JoinStep(s, name, lease, activate);
    forall x | x in s'.route ensures RouteOk(s'.leases, x, s'.route[x]) && CheckOk(s'.permits, s'.route[x]) {
      assert RouteOk(s.leases, x, s.route[x]) && CheckOk(s.permits, s.route[x]);
      LeaseCount(s.leases, lease, s.routes[name], x);
    }
  }

  lemma DropLeaseKeeps(s: State, lease: LeaseId)
    requires Inv(s)
    ensures Inv(DropLeaseStep(s, lease))
  {
    var s' := DropLeaseStep(s, lease);
    if s' != s {
      var id := s.leases[lease];
      var rest := s.leases - {lease};
      assert s.leases == rest[lease := id];
      forall x | x in s'.route ensures RouteOk(s'.leases, x, s'.route[x]) && CheckOk(s'.permits, s'.route[x]) {
        assert RouteOk(s.leases, x, s.route[x]) && CheckOk(s.permits, s.route[x]);
        LeaseCount(rest, lease, id, x);
      }
    }
  }

  lemma StageKeeps(s: State, task: TaskId, stage: Stage)
    requires TaskInv(s) && task in s.tasks
    requires HasPermit(Task("", 0, stage)) ==>
      && TaskOk(s.permits, Task("", 0, stage))
      && HasPermit(s.tasks[task]) && s.tasks[task].stage.permit == stage.permit
    ensures TaskInv(SetStage(s, task, stage))
  {
    var s' := SetStage(s, task, stage);
    forall k | k in s'.tasks ensures TaskOk(s'.permits, s'.tasks[k]) {
      if k != task { assert TaskOk(s.permits, s.tasks[k]); }
    }
  }

  // A task gives its permit up: withdrawn, and nobody else's.
  lemma WithdrawKeeps(s: State, task: TaskId, stage: Stage)
    requires Inv(s) && task in s.tasks && HasPermit(s.tasks[task]) && !HasPermit(Task("", 0, stage))
    ensures Inv(SetStage(Invalidate(s, s.tasks[task].stage.permit), task, stage))
  {
    var s' := SetStage(Invalidate(s, s.tasks[task].stage.permit), task, stage);
    AgedChecks(s, s');
    forall k | k in s'.tasks ensures TaskOk(s'.permits, s'.tasks[k]) {
      assert TaskOk(s.permits, s.tasks[k]);
    }
    assert LeaseInv(s');
  }

  lemma TryJoinKeeps(s: State, task: TaskId, lease: LeaseId)
    requires Inv(s)
    ensures Inv(TryJoinStep(s, task, lease))
  {
    var s' := TryJoinStep(s, task, lease);
    if s' != s {
      var t := s.tasks[task];
      if Joinable(s, t.name, t.attachment, false) {
        JoinKeeps(s, t.name, t.attachment, lease, false);
        StageKeeps(JoinStep(s, t.name, lease, false), task, Granted);
      } else {
        StageKeeps(s, task, if t.stage.First? then Gated else WantPermit);
      }
    }
  }

  lemma RequestKeeps(s: State, task: TaskId, permit: PermitId)
    requires Inv(s)
    ensures Inv(RequestStep(s, task, permit))
  {
    var s' := RequestStep(s, task, permit);
    if s' != s {
      AgedChecks(s, s');
      assert LeaseInv(s');
      forall k | k in s'.tasks ensures TaskOk(s'.permits, s'.tasks[k]) {
        if k != task { assert TaskOk(s.permits, s.tasks[k]); }
      }
      forall k | k in s'.tasks && k != task && HasPermit(s'.tasks[k]) ensures s'.tasks[k].stage.permit != permit {
        assert TaskOk(s.permits, s.tasks[k]);
      }
    }
  }

  lemma ActivateKeeps(s: State, task: TaskId, lease: LeaseId)
    requires Inv(s)
    ensures Inv(ActivateStep(s, task, lease))
  {
    var s' := ActivateStep(s, task, lease);
    if s' != s {
      var t := s.tasks[task];
      assert TaskOk(s.permits, t);
      if Joinable(s, t.name, t.attachment, true) {
        JoinKeeps(s, t.name, t.attachment, lease, true);
        StageKeeps(JoinStep(s, t.name, lease, true), task, Joined(t.stage.permit));
      } else {
        WithdrawKeeps(s, task, Failed);
      }
    }
  }

  lemma RespondKeeps(s: State, task: TaskId, ok: bool)
    requires Inv(s)
    ensures Inv(RespondStep(s, task, ok))
  {
    if task in s.tasks && s.tasks[task].stage.Pending? {
      assert TaskOk(s.permits, s.tasks[task]);
      if ok { StageKeeps(s, task, Ready(s.tasks[task].stage.permit)); } else { WithdrawKeeps(s, task, Failed); }
    }
  }

  lemma ClaimKeeps(s: State, task: TaskId)
    requires Inv(s)
    ensures Inv(ClaimStep(s, task))
  {
    var s' := ClaimStep(s, task);
    if s' != s {
      assert TaskOk(s.permits, s.tasks[task]);
      AgedChecks(s, s');
      assert LeaseInv(s');
      forall k | k in s'.tasks ensures TaskOk(s'.permits, s'.tasks[k]) { assert TaskOk(s.permits, s.tasks[k]); }
    }
  }

  lemma CancelKeeps(s: State, task: TaskId)
    requires Inv(s)
    ensures Inv(CancelStep(s, task))
  {
    if task in s.tasks {
      match s.tasks[task].stage
      case Pending(_) => WithdrawKeeps(s, task, Failed);
      case First => StageKeeps(s, task, Failed);
      case Gated => StageKeeps(s, task, Failed);
      case WantPermit => StageKeeps(s, task, Failed);
      case _ =>
    }
  }

  // A check touches only its route's own marks, and stops acceptance only when it
  // has just seen no users.
  lemma CheckRouteOk(leases: map<LeaseId, RouteId>, permits: map<PermitId, Permit>, id: RouteId, r: Route, now: nat)
    requires RouteOk(leases, id, r) && CheckOk(permits, r) && r.permit.Some?
    ensures var r' := CheckRoute(r, permits[r.permit.value], now);
      RouteOk(leases, id, r') && CheckOk(permits, r')
  {
  }

  lemma CheckNextKeeps(s: State, id: RouteId)
    requires Inv(s)
    ensures Inv(CheckNextStep(s, id))
  {
    var s' := CheckNextStep(s, id);
    if s' != s {
      CheckRouteOk(s.leases, s.permits, id, s.route[id], s.now);
      RouteReplaced(s, id, s'.route[id]);
    }
  }

  lemma RouteReplaced(s: State, id: RouteId, r: Route)
    requires Inv(s) && id in s.route && RouteOk(s.leases, id, r) && CheckOk(s.permits, r)
    ensures Inv(s.(route := s.route[id := r]))
  {
    var s' := s.(route := s.route[id := r]);
    forall x | x in s'.route ensures RouteOk(s'.leases, x, s'.route[x]) && CheckOk(s'.permits, s'.route[x]) {
      if x != id { assert RouteOk(s.leases, x, s.route[x]) && CheckOk(s.permits, s.route[x]); }
    }
  }

  lemma OpenRouteKeeps(s: State, name: Name, id: RouteId, attachment: nat, permit: Option<PermitId>)
    requires Inv(s)
    ensures Inv(OpenRouteStep(s, name, id, attachment, permit))
  {
    var s' := OpenRouteStep(s, name, id, attachment, permit);
    if s' != s {
      assert LeasesOn(s.leases, id) == {};
      forall x | x in s'.route ensures RouteOk(s'.leases, x, s'.route[x]) && CheckOk(s'.permits, s'.route[x]) {
        if x != id { assert RouteOk(s.leases, x, s.route[x]) && CheckOk(s.permits, s.route[x]); }
      }
    }
  }

  lemma CloseRouteKeeps(s: State, id: RouteId)
    requires Inv(s) && id in s.route
    ensures Inv(s.(route := s.route[id := s.route[id].(closed := true)]))
  {
    var s' := s.(route := s.route[id := s.route[id].(closed := true)]);
    forall x | x in s'.route ensures RouteOk(s'.leases, x, s'.route[x]) && CheckOk(s'.permits, s'.route[x]) {
      assert RouteOk(s.leases, x, s.route[x]) && CheckOk(s.permits, s.route[x]);
    }
  }

  lemma BeginKeeps(s: State, task: TaskId, name: Name, attachment: nat)
    requires Inv(s) && task !in s.tasks
    ensures Inv(s.(tasks := s.tasks[task := Task(name, attachment, First)]))
  {
    var s' := s.(tasks := s.tasks[task := Task(name, attachment, First)]);
    forall k | k in s'.tasks ensures TaskOk(s'.permits, s'.tasks[k]) {
      if k != task { assert TaskOk(s.permits, s.tasks[k]); }
    }
  }

  lemma DisconnectKeeps(s: State, p: PermitId)
    requires Inv(s) && p in s.permits
    ensures Inv(s.(permits := s.permits[p := s.permits[p].(connected := false)]))
  {
    var s' := s.(permits := s.permits[p := s.permits[p].(connected := false)]);
    AgedChecks(s, s');
    forall k | k in s'.tasks ensures TaskOk(s'.permits, s'.tasks[k]) { assert TaskOk(s.permits, s.tasks[k]); }
  }

  lemma StepKeeps(s: State, a: Action)
    requires Inv(s)
    ensures Inv(Step(s, a))
  {
    match a
    case OpenRoute(name, id, attachment, permit) => OpenRouteKeeps(s, name, id, attachment, permit);
    case TryJoin(task, lease) => TryJoinKeeps(s, task, lease);
    case Request(task, permit) => RequestKeeps(s, task, permit);
    case Respond(task, ok) => RespondKeeps(s, task, ok);
    case Activate(task, lease) => ActivateKeeps(s, task, lease);
    case Claim(task) => ClaimKeeps(s, task);
    case DropPending(task) =>
      if task in s.tasks && s.tasks[task].stage.Claimed? { WithdrawKeeps(s, task, Granted); }
    case Cancel(task) => CancelKeeps(s, task);
    case DropLease(lease) => DropLeaseKeeps(s, lease);
    case CheckNext(id) => CheckNextKeeps(s, id);
    case Tick(_) =>
    case SetEnabled(_) =>
    case CloseRoute(id) => if id in s.route { CloseRouteKeeps(s, id); }
    case Begin(task, name, attachment) => if task !in s.tasks { BeginKeeps(s, task, name, attachment); }
    case Disconnect(permit) => if permit in s.permits { DisconnectKeeps(s, permit); }
  }

  lemma {:induction false} RunKeeps(s: State, schedule: seq<Action>)
    requires Inv(s)
    ensures Inv(Run(s, schedule))
    decreases |schedule|
  {
    if schedule != [] {
      StepKeeps(s, schedule[0]);
      RunKeeps(Step(s, schedule[0]), schedule[1..]);
    }
  }

  // -------------------------------------------------------------- theorems

  // In every reachable state a route's users are its live leases.
  lemma UsersAreLeases(schedule: seq<Action>, id: RouteId)
    ensures var s := Run(Start(), schedule);
      id in s.route ==> s.route[id].users == |LeasesOn(s.leases, id)|
  {
    RunKeeps(Start(), schedule);
    var s := Run(Start(), schedule);
    if id in s.route { assert RouteOk(s.leases, id, s.route[id]); }
  }

  lemma ExpiredStep(s: State, a: Action, id: RouteId)
    requires id in s.route && !s.route[id].accepting
    ensures var s' := Step(s, a); id in s'.route && !s'.route[id].accepting
  {
    match a
    case TryJoin(task, lease) => ClosedJoin(s, task, lease, id);
    case Activate(task, lease) => ClosedJoin(s, task, lease, id);
    case CheckNext(_) =>
    case _ =>
  }

  lemma ClosedJoin(s: State, task: TaskId, lease: LeaseId, id: RouteId)
    requires id in s.route && !s.route[id].accepting
    ensures id in TryJoinStep(s, task, lease).route && !TryJoinStep(s, task, lease).route[id].accepting
    ensures id in ActivateStep(s, task, lease).route && !ActivateStep(s, task, lease).route[id].accepting
  {
  }

  // Once a route has idle-expired it has no device lease, and however long the
  // daemon runs on, no join ever grants one.
  lemma {:induction false} ExpiredForever(s: State, schedule: seq<Action>, id: RouteId)
    requires Inv(s) && id in s.route && s.route[id].check == Verdict(IdleExpired)
    ensures var s' := Run(s, schedule);
      id in s'.route && LeasesOn(s'.leases, id) == {} && s'.route[id].users == 0
  {
    assert RouteOk(s.leases, id, s.route[id]);
    ClosedForever(s, schedule, id);
  }

  lemma {:induction false} ClosedForever(s: State, schedule: seq<Action>, id: RouteId)
    requires Inv(s) && id in s.route && !s.route[id].accepting
    ensures var s' := Run(s, schedule);
      id in s'.route && LeasesOn(s'.leases, id) == {} && s'.route[id].users == 0
    decreases |schedule|
  {
    assert RouteOk(s.leases, id, s.route[id]);
    if schedule != [] {
      ExpiredStep(s, schedule[0], id);
      StepKeeps(s, schedule[0]);
      ClosedForever(Step(s, schedule[0]), schedule[1..], id);
    }
  }

  // A route is judged lapsed only if its permit was withdrawn unclaimed, and
  // then that permit is never claimed: a claimed acquisition is never judged
  // expired because its permit lapsed.
  lemma ClaimedNeverLapses(schedule: seq<Action>, id: RouteId)
    ensures var s := Run(Start(), schedule);
      id in s.route && s.route[id].permit.Some? ==>
        && s.route[id].permit.value in s.permits
        && (s.permits[s.route[id].permit.value].claimed ==> s.route[id].check != Verdict(Lapsed))
  {
    RunKeeps(Start(), schedule);
    var s := Run(Start(), schedule);
    if id in s.route { assert CheckOk(s.permits, s.route[id]); }
  }

  lemma WithdrawnStep(s: State, a: Action, p: PermitId)
    requires TaskInv(s) && p in s.permits && !s.permits[p].valid
    ensures var s' := Step(s, a);
      p in s'.permits && !s'.permits[p].valid && s'.permits[p].claimed == s.permits[p].claimed
  {
    if a.Claim? && a.task in s.tasks { assert TaskOk(s.permits, s.tasks[a.task]); }
  }

  lemma {:induction false} WithdrawnForever(s: State, schedule: seq<Action>, p: PermitId)
    requires Inv(s) && p in s.permits && !s.permits[p].valid && !s.permits[p].claimed
    ensures var s' := Run(s, schedule); p in s'.permits && !s'.permits[p].claimed && !s'.permits[p].valid
    decreases |schedule|
  {
    if schedule != [] {
      WithdrawnStep(s, schedule[0], p);
      StepKeeps(s, schedule[0]);
      WithdrawnForever(Step(s, schedule[0]), schedule[1..], p);
    }
  }

  // ----------------------------------------------------------------- object

  // The registry, the flags its routes share and the acquisitions under way,
  // updated in place.
  class Registry {
    var enabled: bool
    var now: nat
    var routes: map<Name, RouteId>
    var route: map<RouteId, Route>
    var permits: map<PermitId, Permit>
    var leases: map<LeaseId, RouteId>
    var tasks: map<TaskId, Task>

    ghost function View(): State
      reads this
    {
      State(enabled, now, routes, route, permits, leases, tasks)
    }

    ghost predicate Valid()
      reads this
    {
      Inv(View())
    }

    constructor ()
      ensures View() == Start() && Valid()
    {
      enabled, now, routes, route, permits, leases, tasks := false, 0, map[], map[], map[], map[], map[];
    }

    // A name is free again once its previous route's event receiver is gone.
    method Open(name: Name, id: RouteId, attachment: nat, under: Option<PermitId>) returns (ok: bool)
      requires Valid() && id !in route && (under.Some? ==> under.value in permits)
      modifies this`routes, this`route
      ensures Valid() && View() == OpenRouteStep(old(View()), name, id, attachment, under)
      ensures ok <==>
        && enabled
        && !(name in old(routes) && old(routes)[name] in old(route) && !old(route)[old(routes)[name]].closed)
    {
      OpenRouteKeeps(View(), name, id, attachment, under);
      if !enabled { return false; }
      if name in routes && routes[name] in route && !route[routes[name]].closed { return false; }
      route := route[id := Route(attachment, true, under.None?, false, 0, under, Resting, None)];
      routes := routes[name := id];
      ok := true;
    }

    // Join an accepting route under the registry lock.
    method Join(name: Name, attachment: nat, activate: bool, lease: LeaseId) returns (granted: bool)
      requires Valid() && lease !in leases
      modifies this`route, this`leases
      ensures Valid() && granted == Joinable(old(View()), name, attachment, activate)
      ensures View() == if granted then JoinStep(old(View()), name, lease, activate) else old(View())
    {
      if name !in routes || routes[name] !in route { return false; }
      var id := routes[name];
      var r := route[id];
      if r.attachment != attachment || !r.accepting || r.closed { return false; }
      if !activate && !r.ready { return false; }
      JoinKeeps(View(), name, attachment, lease, activate);
      ghost var after := JoinStep(View(), name, lease, activate);
      if activate { r := r.(ready := true); }
      route := route[id := r.(users := r.users + 1)];
      leases := leases[lease := id];
      assert View() == after;
      granted := true;
    }

    method Release(lease: LeaseId)
      requires Valid() && lease in leases
      modifies this`route, this`leases
      ensures Valid() && View() == DropLeaseStep(old(View()), lease)
    {
      DropLeaseKeeps(View(), lease);
      var id := leases[lease];
      leases := leases - {lease};
      route := route[id := route[id].(users := route[id].users - 1)];
    }

    // The expiry check, one load at a time; its verdict is final.
    method CheckNext(id: RouteId)
      requires Valid() && id in route && !route[id].closed
      requires route[id].permit.Some? && route[id].permit.value in permits
      modifies this`route
      ensures Valid() && View() == CheckNextStep(old(View()), id)
    {
      CheckNextKeeps(View(), id);
      if route[id].check == SawIdle {
        var _ := ExpireLocked(id);
      } else {
        route := route[id := CheckRoute(route[id], permits[route[id].permit.value], now)];
      }
    }

    // The last part of the expiry check: users are looked at again with the
    // registry locked, so a join has either been counted or will be refused.
    method ExpireLocked(id: RouteId) returns (expired: bool)
      requires Valid() && id in route && route[id].check == SawIdle && !route[id].closed
      requires route[id].permit.Some? && route[id].permit.value in permits
      modifies this`route
      ensures Valid() && View() == CheckNextStep(old(View()), id)
      ensures expired <==> LeasesOn(leases, id) == {}
    {
      CheckNextKeeps(View(), id);
      assert RouteOk(leases, id, route[id]);
      if route[id].users != 0 {
        route := route[id := route[id].(check := Resting)];
        return false;
      }
      route := route[id := route[id].(accepting := false, check := Verdict(IdleExpired))];
      expired := true;
    }

    method SetTask(task: TaskId, stage: Stage)
      requires task in tasks
      modifies this`tasks
      ensures View() == SetStage(old(View()), task, stage)
    {
      tasks := tasks[task := tasks[task].(stage := stage)];
    }

    method Withdraw(permit: PermitId)
      modifies this`permits
      ensures View() == Invalidate(old(View()), permit)
    {
      if permit in permits { permits := permits[permit := permits[permit].(valid := false)]; }
    }

    // An acquisition tries an existing route, before and after its turn comes.
    method TryJoin(task: TaskId, lease: LeaseId)
      requires Valid() && task in tasks && lease !in leases && (tasks[task].stage.First? || tasks[task].stage.Gated?)
      modifies this`route, this`leases, this`tasks
      ensures View() == TryJoinStep(old(View()), task, lease)
    {
      var t := tasks[task];
      var granted := Join(t.name, t.attachment, false, lease);
      if granted {
        SetTask(task, Granted);
      } else {
        SetTask(task, if t.stage.First? then Gated else WantPermit);
      }
    }

    method Request(task: TaskId, permit: PermitId)
      requires task in tasks && tasks[task].stage.WantPermit? && permit !in permits
      modifies this`permits, this`tasks
      ensures View() == RequestStep(old(View()), task, permit)
    {
      permits := permits[permit := Permit(true, true, false)];
      SetTask(task, Pending(permit));
    }

    method Respond(task: TaskId, ok: bool)
      requires task in tasks && tasks[task].stage.Pending?
      modifies this`permits, this`tasks
      ensures View() == RespondStep(old(View()), task, ok)
    {
      var p := tasks[task].stage.permit;
      if ok {
        SetTask(task, Ready(p));
      } else {
        Withdraw(p);
        SetTask(task, Failed);
      }
    }

    // The provider is ready: join and activate its route, or give the permit up.
    method Activate(task: TaskId, lease: LeaseId)
      requires Valid() && task in tasks && tasks[task].stage.Ready? && lease !in leases
      modifies this`route, this`leases, this`permits, this`tasks
      ensures View() == ActivateStep(old(View()), task, lease)
    {
      var t := tasks[task];
      var granted := Join(t.name, t.attachment, true, lease);
      if granted {
        SetTask(task, Joined(t.stage.permit));
      } else {
        Withdraw(t.stage.permit);
        SetTask(task, Failed);
      }
    }

    method Claim(task: TaskId)
      requires task in tasks && tasks[task].stage.Joined? && tasks[task].stage.permit in permits
      modifies this`permits, this`tasks
      ensures View() == ClaimStep(old(View()), task)
    {
      var p := tasks[task].stage.permit;
      permits := permits[p := permits[p].(claimed := true)];
      SetTask(task, Claimed(p));
    }

    method Cancel(task: TaskId)
      requires task in tasks
      modifies this`permits, this`tasks
      ensures View() == CancelStep(old(View()), task)
    {
      match tasks[task].stage
      case Pending(p) =>
        Withdraw(p);
        SetTask(task, Failed);
      case First => SetTask(task, Failed);
      case Gated => SetTask(task, Failed);
      case WantPermit => SetTask(task, Failed);
      case _ =>
    }

    // An acquisition's own steps.
    method Acquire(a: Action)
      requires Valid() && (a.Begin? || a.TryJoin? || a.Request? || a.Respond? || a.Activate? || a.Claim? || a.DropPending? || a.Cancel?)
      modifies this
      ensures View() == Step(old(View()), a)
    {
      match a
      case Begin(task, name, attachment) =>
        if task !in tasks { tasks := tasks[task := Task(name, attachment, First)]; }
      case TryJoin(task, lease) =>
        if task in tasks && lease !in leases && (tasks[task].stage.First? || tasks[task].stage.Gated?) {
          TryJoin(task, lease);
        }
      case Request(task, permit) =>
        if task in tasks && tasks[task].stage.WantPermit? && permit !in permits { Request(task, permit); }
      case Respond(task, ok) => if task in tasks && tasks[task].stage.Pending? { Respond(task, ok); }
      case Activate(task, lease) =>
        if task in tasks && tasks[task].stage.Ready? && lease !in leases { Activate(task, lease); }
      case Claim(task) =>
        if task in tasks && tasks[task].stage.Joined? && tasks[task].stage.permit in permits { Claim(task); }
      case DropPending(task) =>
        if task in tasks && tasks[task].stage.Claimed? {
          Withdraw(tasks[task].stage.permit);
          SetTask(task, Granted);
        }
      case Cancel(task) => if task in tasks { Cancel(task); }
    }

    method Perform(a: Action)
      requires Valid()
      modifies this
      ensures Valid() && View() == Step(old(View()), a)
    {
      StepKeeps(View(), a);
      match a
      case Tick(ms) => now := now + ms;
      case SetEnabled(on) => enabled := on;
      case OpenRoute(name, id, attachment, under) =>
        if id !in route && (under.Some? ==> under.value in permits) { var _ := Open(name, id, attachment, under); }
      case CloseRoute(id) => if id in route { route := route[id := route[id].(closed := true)]; }
      case DropLease(lease) => if lease in leases { Release(lease); }
      case Disconnect(permit) =>
        if permit in permits { permits := permits[permit := permits[permit].(connected := false)]; }
      case CheckNext(id) =>
        if id in route && !route[id].closed && route[id].permit.Some? && route[id].permit.value in permits {
          CheckNext(id);
        }
      case _ => Acquire(a);
    }

    // Any interleaving of opens, acquisitions, drops and expiry checks is a run of
    // the state machine, so its theorems hold of this object.
    method Drive(schedule: seq<Action>)
      requires Valid()
      modifies this
      ensures Valid() && View() == Run(old(View()), schedule)
    {
      for i := 0 to |schedule|
        invariant Valid() && Run(View(), schedule[i..]) == Run(old(View()), schedule)
      {
        assert schedule[i..][0] == schedule[i] && schedule[i..][1..] == schedule[i + 1..];
        Perform(schedule[i]);
      }
    }
  }
}
