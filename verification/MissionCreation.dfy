/**
 * Creating missions on request: a bounded memory of running and finished requests in front of the store,
 * whose entry events remember every request for good. Services restart, forget and retry.
 */
module MissionCreation {
  import opened Prelude
  import opened MissionWorkflow
  import opened MissionWriters

  type CallId = nat

  const REMEMBERED_REQUESTS: nat := 256

  function CreationKey(request: string): string { "mission-create-" + request }

  datatype Pc =
    | LookingUp
    | LoadingFound(id: Id)
    | Checking
    | Inserting(process: Process)
    | Sharing(call: CallId)
    | Settled(outcome: Option<Id>)
    | Returned(outcome: Option<Id>)

  datatype Call = Call(key: string, pc: Pc)

  datatype Result = Result(key: string, id: Id)

  /** `order` holds the remembered keys, oldest first. */
  datatype Memory = Memory(order: seq<string>, attempts: map<string, CallId>)

  /** `durable` tells whether the store can find a mission by the key of its entry event. */
  datatype Service = Service(
    world: World, repository: Repository, durable: bool, memory: Memory, calls: map<CallId, Call>, results: seq<Result>)

  datatype Action =
    | Elsewhere(move: MissionWriters.Move)
    | Request(call: CallId, key: string)
    | Served(call: CallId)
    | Accepted(call: CallId, process: Process, id: Id, assignee: Option<Agent>, evidence: Evidence, at: string)
    | Refused(call: CallId)
    | Continue(call: CallId)
    | Restart

  // ---------------------------------------------------------------- the memory

  function Without(order: seq<string>, key: string): seq<string> {
    if order == [] then []
    else if order[0] == key then Without(order[1..], key)
    else [order[0]] + Without(order[1..], key)
  }

  function Forget(m: Memory, key: string): Memory {
    Memory(Without(m.order, key), m.attempts - {key})
  }

  /** Remember the newest request; past the limit the oldest one is dropped. */
  function Remember(m: Memory, key: string, call: CallId): Memory {
    var grown := Memory(if key in m.attempts then m.order else m.order + [key], m.attempts[key := call]);
    if |grown.order| > REMEMBERED_REQUESTS then Memory(grown.order[1..], grown.attempts - {grown.order[0]}) else grown
  }

  ghost predicate MemoryOk(m: Memory) {
    && |m.order| <= REMEMBERED_REQUESTS
    && (forall i, j :: 0 <= i < j < |m.order| ==> m.order[i] != m.order[j])
    && (forall key :: key in m.order <==> key in m.attempts)
  }

  lemma {:induction false} WithoutKeepsOthers(order: seq<string>, key: string)
    requires forall i, j :: 0 <= i < j < |order| ==> order[i] != order[j]
    ensures var rest := Without(order, key);
      && |rest| <= |order|
      && (forall k :: k in rest <==> k in order && k != key)
      && (forall i, j :: 0 <= i < j < |rest| ==> rest[i] != rest[j])
  {
    if order != [] {
      WithoutKeepsOthers(order[1..], key);
      assert forall k :: k in order <==> k == order[0] || k in order[1..];
      assert order[0] !in order[1..];
    }
  }

  lemma ForgetKeepsOk(m: Memory, key: string)
    requires MemoryOk(m)
    ensures MemoryOk(Forget(m, key))
  {
    WithoutKeepsOthers(m.order, key);
  }

  /** The bound holds, the newest request is always remembered, and only the oldest can be lost. */
  lemma RememberKeepsOk(m: Memory, key: string, call: CallId)
    requires MemoryOk(m) && key !in m.attempts
    ensures var n := Remember(m, key, call);
      && MemoryOk(n)
      && key in n.attempts && n.attempts[key] == call
      && (forall k <- m.attempts :: k !in n.attempts ==> |m.order| == 256 && k == m.order[0])
      && (forall k <- n.attempts :: k != key ==> k in m.attempts && n.attempts[k] == m.attempts[k])
  {
    var grown := m.order + [key];
    assert forall k :: k in grown <==> k in m.order || k == key;
    if |grown| > REMEMBERED_REQUESTS {
      assert grown == [grown[0]] + grown[1..];
      assert forall k :: k in grown[1..] <==> k in grown && k != grown[0];
    }
  }

  /** The memory in the form it is kept: one map whose insertion order decides what is evicted. */
  class RequestMemory {
    var order: seq<string>
    var attempts: map<string, CallId>

    constructor ()
      ensures View() == Memory([], map[]) && MemoryOk(View())
    {
      order, attempts := [], map[];
    }

    function View(): Memory
      reads this
    {
      Memory(order, attempts)
    }

    method RememberRequest(key: string, call: CallId)
      requires MemoryOk(View()) && key !in attempts
      modifies this
      ensures View() == Remember(old(View()), key, call) && MemoryOk(View())
    {
      RememberKeepsOk(View(), key, call);
      order := order + [key];
      attempts := attempts[key := call];
      if |attempts| > REMEMBERED_REQUESTS {
        var oldest := order[0];
        SizesAgree(order, attempts);
        order := order[1..];
        attempts := attempts - {oldest};
      } else {
        SizesAgree(order, attempts);
      }
    }

    method ForgetRequest(key: string)
      requires MemoryOk(View())
      modifies this
      ensures View() == Forget(old(View()), key) && MemoryOk(View())
    {
      ForgetKeepsOk(View(), key);
      order := Without(order, key);
      attempts := attempts - {key};
    }
  }

  lemma {:induction false} SizesAgree<V>(order: seq<string>, m: map<string, V>)
    requires forall i, j :: 0 <= i < j < |order| ==> order[i] != order[j]
    requires forall key :: key in order <==> key in m
    ensures |m| == |order|
  {
    if order == [] {
      assert m == map[];
    } else {
      var last := order[|order| - 1];
      var rest := order[..|order| - 1];
      var n := m - {last};
      assert forall key :: key in rest <==> key in n by {
        assert order == rest + [last];
      }
      SizesAgree(rest, n);
      assert m == n[last := m[last]];
    }
  }

  // ---------------------------------------------------------------- segments

  predicate CreatedAs(events: seq<LaneEvent>, repository: Repository, key: string, id: Id) {
    exists i :: 0 <= i < |events| && events[i].repository == repository && events[i].key == key && events[i].mission == id
  }

  /** The mission whose event carries the key; keys are unique, so the first match is the only one. */
  function FindByKey(events: seq<LaneEvent>, repository: Repository, key: string): (id: Option<Id>)
    ensures id.Some? ==> CreatedAs(events, repository, key, id.value)
    ensures id.None? ==> !Recorded(events, repository, key)
  {
    if events == [] then None
    else
      var last := events[|events| - 1];
      var earlier := FindByKey(events[..|events| - 1], repository, key);
      if earlier.Some? then
        assert forall i :: 0 <= i < |events| - 1 ==> events[i] == events[..|events| - 1][i];
        earlier
      else if last.repository == repository && last.key == key then Some(last.mission)
      else
        assert forall i :: 0 <= i < |events| - 1 ==> events[i] == events[..|events| - 1][i];
        None
  }

  function At(s: Service, c: CallId, pc: Pc): Service
    requires c in s.calls
  {
    s.(calls := s.calls[c := s.calls[c].(pc := pc)])
  }

  /** A remembered attempt is shared; otherwise a new one starts and is remembered. */
  function Receive(s: Service, c: CallId, key: string): Service {
    if key in s.memory.attempts then s.(calls := s.calls[c := Call(key, Sharing(s.memory.attempts[key]))])
    else s.(memory := Remember(s.memory, key, c), calls := s.calls[c := Call(key, LookingUp)])
  }

  function Serve(s: Service, c: CallId): Service
    requires c in s.calls
  {
    var call := s.calls[c];
    match call.pc
    case LookingUp =>
      var found := FindByKey(s.world.store.events, s.repository, CreationKey(call.key));
      At(s, c, if s.durable && found.Some? then LoadingFound(found.value) else Checking)
    case LoadingFound(id) =>
      var rows := s.world.store.rows;
      At(s, c, if id in rows && rows[id].mission.repository == s.repository then Settled(Some(id)) else Checking)
    case Inserting(p) =>
      if p in s.world.processes && s.world.processes[p].Ended? then
        var outcome := s.world.processes[p].outcome;
        At(s, c, Settled(if outcome.Completed? then Some(outcome.plan.mission.id) else None))
      else s
    case _ => s
  }

  function Accept(s: Service, a: Action): Service
    requires a.Accepted? && a.call in s.calls
  {
    var key := CreationKey(s.calls[a.call].key);
    if !s.calls[a.call].pc.Checking? || a.process in s.world.processes then s
    else
      At(s, a.call, Inserting(a.process))
        .(world := Step(s.world, Start(a.process, NewMission(a.id, s.repository, a.assignee, a.evidence, a.at, Some(key)))))
  }

  function Return(s: Service, c: CallId, outcome: Option<Id>): Service
    requires c in s.calls
  {
    At(s, c, Returned(outcome))
      .(results := if outcome.Some? then s.results + [Result(s.calls[c].key, outcome.value)] else s.results)
  }

  /** The caller resumes once its attempt is settled; the owner of a failed attempt forgets the key. */
  function Conclude(s: Service, c: CallId): Service
    requires c in s.calls
  {
    match s.calls[c].pc
    case Settled(outcome) =>
      var t := Return(s, c, outcome);
      if outcome.None? then t.(memory := Forget(t.memory, s.calls[c].key)) else t
    case Sharing(other) =>
      if other in s.calls && s.calls[other].pc.Settled? then Return(s, c, s.calls[other].pc.outcome)
      else if other in s.calls && s.calls[other].pc.Returned? then Return(s, c, s.calls[other].pc.outcome)
      else s
    case _ => s
  }

  predicate Refusable(pc: Pc) { pc.LookingUp? || pc.LoadingFound? || pc.Checking? }

  function Act(s: Service, a: Action): Service {
    match a
    case Elsewhere(move) => s.(world := Step(s.world, move))
    case Request(c, key) => if c in s.calls then s else Receive(s, c, key)
    case Served(c) => if c in s.calls then Serve(s, c) else s
    case Accepted(c, _, _, _, _, _) => if c in s.calls then Accept(s, a) else s
    case Refused(c) => if c in s.calls && Refusable(s.calls[c].pc) then At(s, c, Settled(None)) else s
    case Continue(c) => if c in s.calls then Conclude(s, c) else s
    case Restart => s.(memory := Memory([], map[]), calls := map[])
  }

  function ActAll(s: Service, actions: seq<Action>): Service {
    if actions == [] then s else Act(ActAll(s, actions[..|actions| - 1]), actions[|actions| - 1])
  }

  ghost predicate Initial(s: Service) {
    Inv(s.world) && EventsPlaced(s.world.store) && s.memory == Memory([], map[]) && s.calls == map[] && s.results == []
  }

  // ---------------------------------------------------------------- invariant

  /** Process `p` inserts a mission under this key. */
  ghost predicate Inserts(w: World, p: Process, repository: Repository, key: string) {
    p in w.processes && match w.processes[p]
      case Loading(r) => r.NewMission? && r.repository == repository && r.key == Some(key)
      case Saving(plan) => plan.cause.Intake? && plan.event.Some? && plan.event.value.repository == repository && plan.event.value.key == key
      case Ended(outcome) => outcome.Completed? ==> CreatedAs(w.store.events, repository, key, outcome.plan.mission.id)
      case _ => false
  }

  ghost predicate CallOk(s: Service, call: Call) {
    var key := CreationKey(call.key);
    match call.pc
    case LoadingFound(id) => CreatedAs(s.world.store.events, s.repository, key, id)
    case Inserting(p) => Inserts(s.world, p, s.repository, key)
    case Sharing(other) => other in s.calls && s.calls[other].key == call.key
    case Settled(outcome) => outcome.Some? ==> CreatedAs(s.world.store.events, s.repository, key, outcome.value)
    case Returned(outcome) => outcome.Some? ==> CreatedAs(s.world.store.events, s.repository, key, outcome.value)
    case _ => true
  }

  ghost predicate ServiceInv(s: Service) {
    && Inv(s.world) && EventsPlaced(s.world.store) && MemoryOk(s.memory)
    && (forall key <- s.memory.attempts :: s.memory.attempts[key] in s.calls && s.calls[s.memory.attempts[key]].key == key)
    && (forall c <- s.calls :: CallOk(s, s.calls[c]))
    && (forall i :: 0 <= i < |s.results| ==>
          CreatedAs(s.world.store.events, s.repository, CreationKey(s.results[i].key), s.results[i].id))
  }

  lemma CreatedLater(s: Store, t: Store, repository: Repository, key: string, id: Id)
    requires Grows(s, t) && CreatedAs(s.events, repository, key, id)
    ensures CreatedAs(t.events, repository, key, id)
  {
    var i :| 0 <= i < |s.events| && s.events[i].repository == repository && s.events[i].key == key && s.events[i].mission == id;
    assert t.events[i] == s.events[i];
  }

  lemma ForeignKeepsInserts(w: World, p: Process, repository: Repository, key: string, move: MissionWriters.Move)
    requires Inv(w) && Inserts(w, p, repository, key) && move.process != p
    ensures Inserts(Step(w, move), p, repository, key)
  {
    StepGrows(w, move);
    ForeignKeepsPc(w, p, move);
    if w.processes[p].Ended? && w.processes[p].outcome.Completed? {
      CreatedLater(w.store, Step(w, move).store, repository, key, w.processes[p].outcome.plan.mission.id);
    }
  }

  lemma InsertionRecorded(w: World, p: Process, plan: Plan)
    requires PlanOk(w.store, plan) && plan.cause.Intake? && plan.event.Some?
    ensures Inserts(Write(w, p, plan, plan.event), p, plan.event.value.repository, plan.event.value.key)
  {
    if WriteTo(w.store, plan, plan.event).Saved? {
      var events := WriteTo(w.store, plan, plan.event).store.events;
      assert events[|w.store.events|] == plan.event.value;
    }
  }

  lemma OwnStepKeepsInserts(w: World, p: Process, repository: Repository, key: string, reply: Reply)
    requires Inv(w) && Inserts(w, p, repository, key)
    ensures Inserts(Step(w, Resume(p, reply)), p, repository, key)
  {
    assert PcOk(w.store, w.processes[p]);
    if w.processes[p].Saving? && reply.Served? { InsertionRecorded(w, p, w.processes[p].plan); }
  }

  lemma StepKeepsInserts(w: World, p: Process, repository: Repository, key: string, move: MissionWriters.Move)
    requires Inv(w) && Inserts(w, p, repository, key)
    ensures Inserts(Step(w, move), p, repository, key)
  {
    if move.process != p { ForeignKeepsInserts(w, p, repository, key, move); }
    else if move.Resume? { OwnStepKeepsInserts(w, p, repository, key, move.reply); }
  }

  /** A call keeps what it knows while the world moves on. */
  lemma WorldKeepsCall(s: Service, call: Call, move: MissionWriters.Move)
    requires Inv(s.world) && CallOk(s, call)
    ensures CallOk(s.(world := Step(s.world, move)), call)
  {
    StepGrows(s.world, move);
    var t := Step(s.world, move).store;
    var key := CreationKey(call.key);
    match call.pc
    case LoadingFound(id) => CreatedLater(s.world.store, t, s.repository, key, id);
    case Inserting(p) => StepKeepsInserts(s.world, p, s.repository, key, move);
    case Settled(outcome) => if outcome.Some? { CreatedLater(s.world.store, t, s.repository, key, outcome.value); }
    case Returned(outcome) => if outcome.Some? { CreatedLater(s.world.store, t, s.repository, key, outcome.value); }
    case _ =>
  }

  lemma WorldKeepsInv(s: Service, move: MissionWriters.Move)
    requires ServiceInv(s)
    ensures ServiceInv(s.(world := Step(s.world, move)))
  {
    var t := s.(world := Step(s.world, move));
    StepKeepsInv(s.world, move);
    StepKeepsPlaced(s.world, move);
    forall c <- t.calls ensures CallOk(t, t.calls[c]) { WorldKeepsCall(s, s.calls[c], move); }
    StepGrows(s.world, move);
    forall i | 0 <= i < |t.results|
      ensures CreatedAs(t.world.store.events, t.repository, CreationKey(t.results[i].key), t.results[i].id)
    {
      CreatedLater(s.world.store, t.world.store, s.repository, CreationKey(s.results[i].key), s.results[i].id);
    }
  }

  lemma AtKeepsInv(s: Service, c: CallId, pc: Pc)
    requires ServiceInv(s) && c in s.calls && CallOk(s, Call(s.calls[c].key, pc))
    ensures ServiceInv(At(s, c, pc))
  {
    var t := At(s, c, pc);
    forall d <- t.calls ensures CallOk(t, t.calls[d]) { assert CallOk(s, if d == c then Call(s.calls[c].key, pc) else s.calls[d]); }
  }

  lemma ReceiveKeepsInv(s: Service, c: CallId, key: string)
    requires ServiceInv(s) && c !in s.calls
    ensures ServiceInv(Receive(s, c, key))
  {
    var t := Receive(s, c, key);
    if key !in s.memory.attempts { RememberKeepsOk(s.memory, key, c); }
    forall d <- t.calls ensures CallOk(t, t.calls[d]) {
      if d != c { assert CallOk(s, s.calls[d]); }
    }
  }

  lemma ServeKeepsInv(s: Service, c: CallId)
    requires ServiceInv(s) && c in s.calls
    ensures ServiceInv(Serve(s, c))
  {
    assert CallOk(s, s.calls[c]);
    var t := Serve(s, c);
    if t != s { AtKeepsInv(s, c, t.calls[c].pc); }
  }

  lemma AcceptKeepsInv(s: Service, a: Action)
    requires ServiceInv(s) && a.Accepted? && a.call in s.calls
    ensures ServiceInv(Accept(s, a))
  {
    var key := CreationKey(s.calls[a.call].key);
    if s.calls[a.call].pc.Checking? && a.process !in s.world.processes {
      var move := Start(a.process, NewMission(a.id, s.repository, a.assignee, a.evidence, a.at, Some(key)));
      WorldKeepsInv(s, move);
      AtKeepsInv(s.(world := Step(s.world, move)), a.call, Inserting(a.process));
    }
  }

  lemma ReturnKeepsInv(s: Service, c: CallId, outcome: Option<Id>)
    requires ServiceInv(s) && c in s.calls
    requires outcome.Some? ==> CreatedAs(s.world.store.events, s.repository, CreationKey(s.calls[c].key), outcome.value)
    ensures ServiceInv(Return(s, c, outcome))
  {
    AtKeepsInv(s, c, Returned(outcome));
    var t := At(s, c, Returned(outcome));
    forall d <- t.calls ensures CallOk(Return(s, c, outcome), t.calls[d]) { assert CallOk(t, t.calls[d]); }
  }

  lemma ForgetKeepsInv(s: Service, key: string)
    requires ServiceInv(s)
    ensures ServiceInv(s.(memory := Forget(s.memory, key)))
  {
    var t := s.(memory := Forget(s.memory, key));
    ForgetKeepsOk(s.memory, key);
    forall d <- t.calls ensures CallOk(t, t.calls[d]) { assert CallOk(s, s.calls[d]); }
  }

  lemma ConcludeKeepsInv(s: Service, c: CallId)
    requires ServiceInv(s) && c in s.calls
    ensures ServiceInv(Conclude(s, c))
  {
    assert CallOk(s, s.calls[c]);
    match s.calls[c].pc
    case Settled(outcome) =>
      ReturnKeepsInv(s, c, outcome);
      ForgetKeepsInv(Return(s, c, outcome), s.calls[c].key);
    case Sharing(other) =>
      assert CallOk(s, s.calls[other]);
      if s.calls[other].pc.Settled? || s.calls[other].pc.Returned? { ReturnKeepsInv(s, c, s.calls[other].pc.outcome); }
    case _ =>
  }

  lemma ActKeepsInv(s: Service, a: Action)
    requires ServiceInv(s)
    ensures ServiceInv(Act(s, a)) && Act(s, a).repository == s.repository && Act(s, a).durable == s.durable
  {
    match a
    case Elsewhere(move) => WorldKeepsInv(s, move);
    case Request(c, key) => if c !in s.calls { ReceiveKeepsInv(s, c, key); }
    case Served(c) => if c in s.calls { ServeKeepsInv(s, c); }
    case Accepted(c, _, _, _, _, _) => if c in s.calls { AcceptKeepsInv(s, a); }
    case Refused(c) => if c in s.calls && Refusable(s.calls[c].pc) { AtKeepsInv(s, c, Settled(None)); }
    case Continue(c) => if c in s.calls { ConcludeKeepsInv(s, c); }
    case Restart =>
  }

  lemma {:induction false} RunKeepsServiceInv(s: Service, actions: seq<Action>)
    requires Initial(s)
    ensures ServiceInv(ActAll(s, actions)) && ActAll(s, actions).repository == s.repository && ActAll(s, actions).durable == s.durable
  {
    if actions != [] {
      RunKeepsServiceInv(s, actions[..|actions| - 1]);
      ActKeepsInv(ActAll(s, actions[..|actions| - 1]), actions[|actions| - 1]);
    }
  }

  // ---------------------------------------------------------------- main results

  lemma OneMissionPerKey(events: seq<LaneEvent>, repository: Repository, key: string, a: Id, b: Id)
    requires UniqueKeys(events) && CreatedAs(events, repository, key, a) && CreatedAs(events, repository, key, b)
    ensures a == b
  {
  }

  /**
   * Across concurrent calls, evictions, failed attempts, restarts and any other writer: at most one
   * mission carries a request's key, and every call that returns a mission for it returns that one.
   */
  lemma ExactlyOnceCreation(s0: Service, actions: seq<Action>, i: nat, j: nat)
    requires Initial(s0)
    requires i < |ActAll(s0, actions).results| && j < |ActAll(s0, actions).results|
    requires ActAll(s0, actions).results[i].key == ActAll(s0, actions).results[j].key
    ensures var s := ActAll(s0, actions);
      var key := CreationKey(s.results[i].key);
      && s.results[i].id == s.results[j].id
      && (forall id :: CreatedAs(s.world.store.events, s.repository, key, id) <==> id == s.results[i].id)
      && s.results[i].id in s.world.store.rows
      && s.world.store.rows[s.results[i].id].mission.repository == s.repository
  {
    RunKeepsServiceInv(s0, actions);
    var s := ActAll(s0, actions);
    var key := CreationKey(s.results[i].key);
    var events := s.world.store.events;
    assert CreatedAs(events, s.repository, key, s.results[i].id) && CreatedAs(events, s.repository, key, s.results[j].id);
    forall id | CreatedAs(events, s.repository, key, id) ensures id == s.results[i].id {
      OneMissionPerKey(events, s.repository, key, id, s.results[i].id);
    }
    OneMissionPerKey(events, s.repository, key, s.results[j].id, s.results[i].id);
    var k :| 0 <= k < |events| && events[k].repository == s.repository && events[k].key == key && events[k].mission == s.results[i].id;
  }

  /** No interleaving ever persists two missions under one request key. */
  lemma AtMostOnePersisted(s0: Service, actions: seq<Action>, key: string, a: Id, b: Id)
    requires Initial(s0)
    requires CreatedAs(ActAll(s0, actions).world.store.events, s0.repository, CreationKey(key), a)
    requires CreatedAs(ActAll(s0, actions).world.store.events, s0.repository, CreationKey(key), b)
    ensures a == b
  {
    RunKeepsServiceInv(s0, actions);
    OneMissionPerKey(ActAll(s0, actions).world.store.events, s0.repository, CreationKey(key), a, b);
  }

  /** A later retry of a created request, however much was forgotten, returns that mission and inserts nothing. */
  lemma RetryReturnsCreatedMission(s0: Service, actions: seq<Action>, c: CallId, key: string, id: Id)
    requires Initial(s0) && s0.durable
    requires var s := ActAll(s0, actions);
      && CreatedAs(s.world.store.events, s.repository, CreationKey(key), id)
      && c !in s.calls && key !in s.memory.attempts
    ensures var s := ActAll(s0, actions);
      var t := Act(Act(Act(Act(s, Request(c, key)), Action.Served(c)), Action.Served(c)), Continue(c));
      && t.world == s.world
      && t.results == s.results + [Result(key, id)]
  {
    RunKeepsServiceInv(s0, actions);
    var s := ActAll(s0, actions);
    var events := s.world.store.events;
    var found := FindByKey(events, s.repository, CreationKey(key));
    var k :| 0 <= k < |events| && events[k].repository == s.repository && events[k].key == CreationKey(key) && events[k].mission == id;
    assert found.Some?;
    OneMissionPerKey(events, s.repository, CreationKey(key), found.value, id);
    assert id in s.world.store.rows;
  }

  /** The memory never holds more than its bound, and shares an attempt only among calls of one request. */
  lemma MemoryStaysBounded(s0: Service, actions: seq<Action>, key: string)
    requires Initial(s0)
    ensures var s := ActAll(s0, actions);
      && |s.memory.order| <= 256
      && (key in s.memory.attempts ==> s.memory.attempts[key] in s.calls && s.calls[s.memory.attempts[key]].key == key)
  {
    RunKeepsServiceInv(s0, actions);
  }

  /** Different requests have different keys. */
  lemma KeysDiffer(a: string, b: string)
    requires a != b
    ensures CreationKey(a) != CreationKey(b)
  {
    var prefix := "mission-create-";
    assert (prefix + a)[|prefix|..] == a && (prefix + b)[|prefix|..] == b;
  }

  lemma UnrecordedIsNotFound(events: seq<LaneEvent>, repository: Repository, key: string)
    requires forall e :: e in events ==> e.repository != repository || e.key != key
    ensures FindByKey(events, repository, key).None? && !Recorded(events, repository, key)
  {
    forall i | 0 <= i < |events| ensures events[i].repository != repository || events[i].key != key {
      assert events[i] in events;
    }
  }

  /** A new request is looked up, is not there, and is accepted: its mission is about to be inserted. */
  lemma RequestIsAccepted(s: Service, a: Action, key: string)
    requires a.Accepted? && a.call !in s.calls && key !in s.memory.attempts && a.process !in s.world.processes
    requires forall e :: e in s.world.store.events ==> e.repository != s.repository || e.key != CreationKey(key)
    ensures var t := Act(Act(Act(s, Request(a.call, key)), Action.Served(a.call)), a);
      && t.calls == s.calls[a.call := Call(key, Inserting(a.process))] && t.results == s.results && t.repository == s.repository
      && t.world == To(s.world, a.process, Loading(NewMission(a.id, s.repository, a.assignee, a.evidence, a.at, Some(CreationKey(key)))))
  {
    UnrecordedIsNotFound(s.world.store.events, s.repository, CreationKey(key));
    var s1 := Act(s, Request(a.call, key));
    var s2 := Act(s1, Action.Served(a.call));
    assert s2.calls == s.calls[a.call := Call(key, Checking)];
  }

  /** The store serves the insertion: the mission is there at version 1, with its event. */
  lemma InsertionIsServed(w: World, p: Process, r: MissionWriters.Request)
    requires p in w.processes && w.processes[p] == Loading(r) && r.NewMission? && r.key.Some? && r.id !in w.store.rows
    requires forall e :: e in w.store.events ==> e.repository != r.repository || e.key != r.key.value
    ensures var m := Mission(r.id, r.repository, Backlog, r.assignee, None, false, r.evidence);
      var event := LaneEvent(r.id, r.repository, None, Backlog, ByIntake, r.key.value);
      var u := Step(Step(w, Resume(p, MissionWriters.Served)), Resume(p, MissionWriters.Served));
      && u.store == Store(w.store.rows[r.id := Row(m, 1)], w.store.events + [event])
      && p in u.processes && u.processes[p] == Ended(Completed(Plan(Intake(m), None, None, m, Some(event)), 1))
  {
    UnrecordedIsNotFound(w.store.events, r.repository, r.key.value);
    var m := Mission(r.id, r.repository, Backlog, r.assignee, None, false, r.evidence);
    var event := LaneEvent(r.id, r.repository, None, Backlog, ByIntake, r.key.value);
    var v := Step(w, Resume(p, MissionWriters.Served));
    assert v == To(w, p, Saving(Plan(Intake(m), None, None, m, Some(event))));
  }

  lemma InsertedIsReturned(s: Service, c: CallId, p: Process, key: string)
    requires c in s.calls && s.calls[c] == Call(key, Inserting(p))
    requires p in s.world.processes && s.world.processes[p].Ended? && s.world.processes[p].outcome.Completed?
    ensures var t := Act(Act(s, Action.Served(c)), Continue(c));
      t.results == s.results + [Result(key, s.world.processes[p].outcome.plan.mission.id)] && t.world == s.world
  {
    var t := Act(s, Action.Served(c));
    assert t.calls[c].pc == Settled(Some(s.world.processes[p].outcome.plan.mission.id));
  }

  /** The first request that is served stores its mission in the backlog and returns it. */
  lemma ServedCreationReturnsItsMission(s: Service, a: Action, key: string)
    requires a.Accepted? && a.call !in s.calls && key !in s.memory.attempts && a.process !in s.world.processes
    requires a.id !in s.world.store.rows
    requires forall e :: e in s.world.store.events ==> e.repository != s.repository || e.key != CreationKey(key)
    ensures var go := Elsewhere(Resume(a.process, MissionWriters.Served));
      var t := Act(Act(Act(s, Request(a.call, key)), Action.Served(a.call)), a);
      var u := Act(Act(Act(Act(t, go), go), Action.Served(a.call)), Continue(a.call));
      && u.results == s.results + [Result(key, a.id)]
      && a.id in u.world.store.rows
      && u.world.store.rows[a.id] == Row(Mission(a.id, s.repository, Backlog, a.assignee, None, false, a.evidence), 1)
  {
    var go := Elsewhere(Resume(a.process, MissionWriters.Served));
    RequestIsAccepted(s, a, key);
    var t := Act(Act(Act(s, Request(a.call, key)), Action.Served(a.call)), a);
    InsertionIsServed(t.world, a.process, NewMission(a.id, s.repository, a.assignee, a.evidence, a.at, Some(CreationKey(key))));
    var v := Act(Act(t, go), go);
    InsertedIsReturned(v, a.call, a.process, key);
  }

  // ---------------------------------------------------------------- sharing, forgetting, refusing

  /** A request that comes while one of the same key is remembered writes nothing and shares that one's outcome. */
  lemma RepeatedRequestShares(s: Service, first: CallId, again: CallId, key: string)
    requires MemoryOk(s.memory) && first !in s.calls && again !in s.calls && first != again && key !in s.memory.attempts
    ensures var t := Act(Act(s, Request(first, key)), Request(again, key));
      && key in t.memory.attempts && t.memory.attempts[key] == first
      && t.calls == s.calls[first := Call(key, LookingUp)][again := Call(key, Sharing(first))]
      && t.world == s.world && t.results == s.results
  {
    RememberKeepsOk(s.memory, key, first);
  }

  /** Who shares an attempt returns what that attempt came to, as soon as it has. */
  lemma SharedOutcomeIsReturned(s: Service, first: CallId, again: CallId)
    requires first in s.calls && again in s.calls && s.calls[again].pc == Sharing(first) && first != again
    ensures var t := Act(s, Continue(again));
      match s.calls[first].pc
      case Settled(Some(id)) => t.results == s.results + [Result(s.calls[again].key, id)] && t.calls[again].pc == Returned(Some(id))
      case Returned(Some(id)) => t.results == s.results + [Result(s.calls[again].key, id)] && t.calls[again].pc == Returned(Some(id))
      case Settled(None) => t.results == s.results && t.calls[again].pc == Returned(None)
      case Returned(None) => t.results == s.results && t.calls[again].pc == Returned(None)
      case _ => t == s
  {
  }

  /** Only a persisted mission is worth remembering: a failed attempt frees its key, a completed one keeps it. */
  lemma OnlyFailureForgets(s: Service, c: CallId, key: string)
    requires MemoryOk(s.memory) && c in s.calls && s.calls[c].pc.Settled?
    ensures var t := Act(s, Continue(c));
      && (s.calls[c].pc.outcome.Some? ==> t.memory == s.memory)
      && (s.calls[c].pc.outcome.None? ==>
            (key in t.memory.attempts <==> key in s.memory.attempts && key != s.calls[c].key)
            && (key in t.memory.attempts ==> t.memory.attempts[key] == s.memory.attempts[key]))
  {
  }

  /** A request can be refused exactly until its mission is handed to the store. */
  lemma RefusedExactlyBeforeInsertion(s: Service, c: CallId)
    requires c in s.calls
    ensures var t := Act(s, Refused(c));
      if s.calls[c].pc.LookingUp? || s.calls[c].pc.LoadingFound? || s.calls[c].pc.Checking?
      then t == s.(calls := s.calls[c := Call(s.calls[c].key, Settled(None))]) else t == s
  {
  }

  /** A restart loses what runs and what is remembered, and nothing that was stored or returned. */
  lemma RestartLosesOnlyMemory(s: Service)
    ensures var t := Act(s, Restart);
      t.memory == Memory([], map[]) && t.calls == map[] && t.world == s.world && t.results == s.results
  {
  }
}
