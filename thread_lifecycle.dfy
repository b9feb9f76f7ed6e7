/** The Flask server's connection lifecycle (app.py): each connect starts a
    thread that creates its own event loop and runs the login coroutine in
    it, while routes disconnect, restart and reset. Every stretch of code
    between two hand-offs is one atomic step of one thread or one route;
    `State` is the set of module globals plus the threads, and each step
    also returns the Socket.IO events it emits. */
module ThreadLifecycle {
  import opened Python
  import opened Lifecycle
  import AuthQueue

  /** Where a thread stands. */
  datatype Phase =
      /** `start()` has been called; the thread body has not run */
    | Created
      /** awaiting `client.connect()` for an existing session file */
    | Validating
      /** inside `temp_client.start`, with the phone it was given */
    | Starting(phone: Option<string>)
      /** blocked in a login callback on `auth_queue.get(timeout=300)` */
    | Waiting(prompt: Prompt, phone: Option<string>)
      /** authorized, in `run_until_disconnected` */
    | Online
      /** in `loop.run_forever()` after a truthy coroutine result */
    | Forever
      /** `run_until_complete` is over; the thread is in its `finally` */
    | Closing
      /** the thread has ended */
    | Finished

  /** A thread: its arguments, its phase, and whether a `loop.stop` has been
      posted to its loop. */
  datatype Worker = Worker(session: string, phone: Option<string>, phase: Phase, stopRequested: bool)

  /** The globals `connected`, `telegram_client` (the thread whose client
      it is), `user_info`, `current_session`, `loop` (the thread whose loop
      it is) and `telegram_thread`, all threads ever started, the auth
      queue, and the session files on disk (by session name). */
  datatype State = State(connected: bool, client: Option<nat>, userInfo: UserInfo,
                         currentSession: Option<string>, loop: Option<nat>, thread: Option<nat>,
                         threads: map<nat, Worker>, queue: seq<string>, files: set<string>)

  /** A step's new state and the events it emitted, in order. */
  datatype Step = Step(state: State, emitted: seq<Event>)

  /** Then one step after the other. */
  function Then(a: Step, b: Step): Step {
    Step(b.state, a.emitted + b.emitted)
  }

  /** The thread's loop is running: it is inside `run_until_complete` or
      `run_forever`. */
  predicate Running(s: State, t: nat) {
    t in s.threads &&
    var p := s.threads[t].phase;
    p.Validating? || p.Starting? || p.Waiting? || p.Online? || p.Forever?
  }

  /** `telegram_thread.is_alive()` */
  predicate Alive(s: State, t: nat) {
    t in s.threads && !s.threads[t].phase.Finished?
  }

  function SetPhase(s: State, t: nat, p: Phase): State
    requires t in s.threads
  {
    s.(threads := s.threads[t := s.threads[t].(phase := p)])
  }

  const ConnectionFailed: string := "Falha na conexão ou autenticação inicial."
  const LoopStoppedError: string := "Erro interno na thread: Event loop stopped before Future completed."

  /** The coroutine's `finally`: the four globals it declares are cleared,
      and a reset status update emitted, when its session is the current
      one; `loop` is not among its `global` names, so its `loop = None`
      binds a local. */
  function CoroutineFinallyStep(s: State, t: nat): Step
    requires t in s.threads
  {
    if s.currentSession == Some(s.threads[t].session) then
      Step(s.(connected := false, client := None, currentSession := None, userInfo := NoUser), [Reset])
    else Step(s, [])
  }

  /** The coroutine returns `result` (`False` is `Some(false)`, falling off
      the end is `None`) and its `finally` runs; `run_until_complete` hands
      the result back. A truthy result would keep the loop running
      forever; any other reports the failure. */
  function CoroutineEnds(s: State, t: nat, result: Option<bool>): (r: Step)
    requires t in s.threads
    ensures r.state.threads.Keys == s.threads.Keys
  {
    var f := CoroutineFinallyStep(s, t);
    if result == Some(true) then Step(SetPhase(f.state, t, Forever), f.emitted)
    else Step(SetPhase(f.state, t, Closing), f.emitted + [Failed(ConnectionFailed, s.threads[t].session)])
  }

  /** The thread body up to the coroutine's first `await`: create the loop
      and store it globally, drain the auth queue, check for the file. */
  function BeginStep(s: State, t: nat): Step
    requires t in s.threads && s.threads[t].phase.Created?
  {
    var w := s.threads[t];
    var started := s.(loop := Some(t), queue := []);
    Step(SetPhase(started, t, if w.session in s.files then Validating else Starting(w.phone)), [])
  }

  /** The result of `client.connect()`; a failure removes the file and the
      coroutine returns `False`. */
  function ValidatedStep(s: State, t: nat, o: ConnectOutcome): Step
    requires t in s.threads && s.threads[t].phase.Validating?
  {
    if o.ConnectOk? then Step(SetPhase(s, t, Starting(None)), [])
    else CoroutineEnds(s.(files := s.files - {s.threads[t].session}), t, Some(false))
  }

  /** Telethon calls `ask_telegram_code` or `ask_telegram_password`. */
  function PromptStep(s: State, t: nat, p: Prompt): Step
    requires t in s.threads && s.threads[t].phase.Starting?
  {
    Step(SetPhase(s, t, Waiting(p, s.threads[t].phase.phone)), [Ask(p)])
  }

  /** The blocking `get` returns the front answer. */
  function AnswerStep(s: State, t: nat): Step
    requires t in s.threads && s.threads[t].phase.Waiting? && s.queue != []
  {
    Step(SetPhase(s.(queue := s.queue[1..]), t, Starting(s.threads[t].phase.phone)), [])
  }

  /** The wait on an empty queue runs out: the callback raises
      `TimeoutError`, whose handler returns `False`. */
  function TimeoutStep(s: State, t: nat): Step
    requires t in s.threads && s.threads[t].phase.Waiting? && s.queue == []
  {
    CoroutineEnds(s, t, Some(false))
  }

  /** The login returned or raised. Authorized: the four globals are set
      together and one connected status update is emitted (the coroutine's
      `loop = asyncio.get_running_loop()` binds a local). Otherwise the
      coroutine returns `False`, after removing the file when the login was
      refused. */
  function LoginStep(s: State, t: nat, raised: bool, authorized: bool, me: Me): Step
    requires t in s.threads && s.threads[t].phase.Starting?
  {
    var w := s.threads[t];
    if raised then CoroutineEnds(s, t, Some(false))
    else if authorized then
      var u := UserInfoOf(me);
      var online := s.(client := Some(t), userInfo := u, connected := true, currentSession := Some(w.session));
      Step(SetPhase(online, t, Online), [Connected(u, w.session)])
    else CoroutineEnds(s.(files := s.files - {w.session}), t, Some(false))
  }

  /** `run_until_disconnected()` returns; the coroutine falls off its end. */
  function DisconnectedStep(s: State, t: nat): Step
    requires t in s.threads && s.threads[t].phase.Online?
  {
    CoroutineEnds(s, t, None)
  }

  /** The phases in which a posted `loop.stop` takes effect. */
  predicate Stoppable(p: Phase) {
    p.Validating? || p.Starting? || p.Online? || p.Forever?
  }

  /** A posted `loop.stop` is processed. Inside `run_until_complete` it
      raises `RuntimeError`, which the thread reports; the suspended
      coroutine is abandoned. Inside `run_forever` the loop just returns. */
  function LoopStoppedStep(s: State, t: nat): (r: Step)
    requires t in s.threads && s.threads[t].stopRequested && Stoppable(s.threads[t].phase)
    ensures r.state.threads.Keys == s.threads.Keys
    ensures r.state.threads[t].stopRequested
  {
    var closing := SetPhase(s, t, Closing);
    if s.threads[t].phase.Forever? then Step(closing, [])
    else Step(closing, [Failed(LoopStoppedError, s.threads[t].session)])
  }

  /** The thread's `finally` calls `close()` on the GLOBAL `loop`: with
      `None` it raises `AttributeError`, on a running loop `RuntimeError`,
      and either way the guarded reset below is skipped. Otherwise it
      clears the globals, `loop` included, when its session is the current
      one (the `telegram_thread = None` there binds a local), and emits
      nothing. */
  function ThreadFinallyStep(s: State, t: nat): (r: Step)
    requires t in s.threads && s.threads[t].phase.Closing?
    ensures r.state.threads.Keys == s.threads.Keys
  {
    var done := SetPhase(s, t, Finished);
    var closed := s.loop.Some? && !Running(s, s.loop.value);
    if closed && s.currentSession == Some(s.threads[t].session) then
      Step(done.(connected := false, client := None, currentSession := None, userInfo := NoUser, loop := None), [])
    else Step(done, [])
  }

  /** How a disconnect races the threads: whether `future.result` raised
      (and its text), whether the disconnected client's coroutine resumes
      before the posted stop is processed, whether that coroutine's thread
      then runs its `finally` before the route posts the stop, and whether
      the joined thread ends within the join's time limit. */
  datatype Race = Race(futureError: Option<string>, endsFirst: bool, closesFirst: bool, joins: bool)

  /** `telegram_thread.join(timeout)`: the thread ends in time only if it is
      already closing, or a posted stop ends its `run_until_complete`. */
  function JoinStep(s: State, w: nat, joins: bool): (r: Step)
    ensures r.state.threads.Keys == s.threads.Keys
  {
    if !joins || w !in s.threads then Step(s, [])
    else if s.threads[w].phase.Closing? then ThreadFinallyStep(s, w)
    else if s.threads[w].stopRequested && Stoppable(s.threads[w].phase) then
      var l := LoopStoppedStep(s, w);
      Then(l, ThreadFinallyStep(l.state, w))
    else Step(s, [])
  }

  /** `loop.call_soon_threadsafe(loop.stop)` on a loop that is not closed:
      the stop takes effect only on a running loop. */
  function PostStop(s: State, u: nat): (r: State)
    ensures r.threads.Keys == s.threads.Keys
  {
    if Running(s, u) then s.(threads := s.threads[u := s.threads[u].(stopRequested := true)]) else s
  }

  /** `client.disconnect()` on the held client ends its thread's
      `run_until_disconnected`; on the stopped loop `u` that happens only
      if the coroutine resumes first. */
  function HeldClientEnds(s: State, u: nat, race: Race): (r: Step)
    requires s.client.Some?
    ensures r.state.threads.Keys == s.threads.Keys
  {
    var c := s.client.value;
    if c in s.threads && s.threads[c].phase.Online? && (c != u || race.endsFirst)
    then CoroutineEnds(s, c, None) else Step(s, [])
  }

  /** The stop is posted to loop `u`, then the global thread is joined. */
  function StopAndJoin(s: State, u: nat, joins: bool): (r: Step)
    ensures r.state.threads.Keys == s.threads.Keys
  {
    var posted := PostStop(s, u);
    if posted.thread.Some? then JoinStep(posted, posted.thread.value, joins) else Step(posted, [])
  }

  /** With `closesFirst`, the held client's thread `c`, its coroutine
      over, reaches its `finally` before the stop is posted; that closes
      loop `u` exactly when `u` is the global loop and no longer running. */
  predicate ClosesBeforeStop(s: State, c: nat, u: nat, race: Race) {
    race.closesFirst && c in s.threads && s.threads[c].phase.Closing? && s.loop == Some(u) && !Running(s, u)
  }

  /** `str()` of what `loop.call_soon_threadsafe` raises on a closed loop,
      and on `None`. */
  const LoopClosedError: string := "Event loop is closed"
  const NoLoopError: string := "'NoneType' object has no attribute 'call_soon_threadsafe'"

  /** What the threads do while `disconnect_route` waits: the held client
      is disconnected; then either its thread closes loop `u` first and
      posting the stop raises (the error text is the second part), or the
      stop is posted and the global thread joined. */
  function WhileRouteWaits(s: State, u: nat, race: Race): (r: (Step, Option<string>))
    requires s.client.Some?
    ensures r.0.state.threads.Keys == s.threads.Keys
  {
    var c := s.client.value;
    var ended := HeldClientEnds(s, u, race);
    if ClosesBeforeStop(ended.state, c, u, race) then
      var f := ThreadFinallyStep(ended.state, c);
      (Then(ended, f), Some(if f.state.loop.None? then NoLoopError else LoopClosedError))
    else (Then(ended, StopAndJoin(ended.state, u, race.joins)), None)
  }

  /** The six assignments of the route's reset. */
  function RouteReset(s: State): State {
    s.(connected := false, client := None, currentSession := None, userInfo := NoUser, loop := None, thread := None)
  }

  const NotConnected: string := "Não conectado"
  const Disconnected: string := "Desconectado com sucesso"
  const LoopUnavailable: string := "Loop/Thread indisponível, estado resetado"
  const DisconnectErrorPrefix: string := "Erro ao desconectar: "

  /** `POST /api/disconnect`. Whatever the `try` raises is answered by its
      `except`, after the same reset. */
  function DisconnectRouteStep(s: State, race: Race): (r: (Step, Reply))
    ensures r.0.state.threads.Keys == s.threads.Keys
  {
    if !s.connected || s.client.None? then (Step(s, []), Refused(NotConnected))
    else if s.loop.Some? && Running(s, s.loop.value) then
      if race.futureError.Some? then
        (Step(RouteReset(s), [Reset]), Refused(DisconnectErrorPrefix + race.futureError.value))
      else
        var (w, err) := WhileRouteWaits(s, s.loop.value, race);
        (Step(RouteReset(w.state), w.emitted + [Reset]),
         if err.Some? then Refused(DisconnectErrorPrefix + err.value) else Accepted(Disconnected))
    else (Step(RouteReset(s), [Reset]), Refused(LoopUnavailable))
  }

  /** `start_telegram_thread`: a live previous thread is disconnected
      through the route when the global loop runs, and otherwise joined for
      a second; then `loop` is cleared and the new thread started. The
      result is always `True`. */
  function StartThreadStep(s: State, session: string, phone: Option<string>, id: nat, race: Race): Step
    requires id !in s.threads
  {
    var prev :=
      if s.thread.Some? && Alive(s, s.thread.value) then
        if s.loop.Some? && Running(s, s.loop.value) then DisconnectRouteStep(s, race).0
        else JoinStep(s, s.thread.value, race.joins)
      else Step(s, []);
    var st := prev.state;
    Step(st.(loop := None, thread := Some(id), threads := st.threads[id := Worker(session, phone, Created, false)]), prev.emitted)
  }

  const NameMissing: string := "Nome da sessão não fornecido"
  const PhoneRequired: string := "Número de telefone é obrigatório para conectar uma nova conta."
  const ConnectStarted: string := "Processo de conexão iniciado"

  /** `POST /api/connect`: a session name is required, and a phone for a
      new session; an existing session is started without the phone. */
  function ConnectStep(s: State, sessionName: Option<string>, phone: Option<string>, id: nat, race: Race): (Step, Reply)
    requires id !in s.threads
  {
    if !TruthyStr(sessionName) then (Step(s, []), Refused(NameMissing))
    else
      var name := sessionName.value;
      var isNew := name !in s.files;
      if isNew && !TruthyStr(phone) then (Step(s, []), Refused(PhoneRequired))
      else (StartThreadStep(s, name, if isNew then phone else None, id, race), Accepted(ConnectStarted))
  }

  const NameNotGiven: string := "Nome da sessão não especificado"

  /** `POST /api/remove-session`: any live connection is disconnected
      first; an existing file is removed, and the current session cleared
      when it is the removed one. */
  function RemoveSessionStep(s: State, sessionName: Option<string>, race: Race): (Step, Reply) {
    var d := if s.connected && s.client.Some? then DisconnectRouteStep(s, race).0 else Step(s, []);
    if !TruthyStr(sessionName) then (d, Refused(NameNotGiven))
    else
      var name := sessionName.value;
      var st := d.state;
      if name in st.files then
        var current := if st.currentSession == Some(name) then None else st.currentSession;
        (Step(st.(files := st.files - {name}, currentSession := current), d.emitted),
         Accepted("Sessão " + name + " removida com sucesso"))
      else (d, Refused("Sessão " + name + " não encontrada"))
  }

  /** `handle_code_response` / `handle_password_response` */
  function ResponseStep(s: State, v: Option<string>): Step {
    Step(s.(queue := AuthQueue.Put(s.queue, v)), [])
  }

  /** The globals at import time, given the session files on disk. */
  function InitialState(files: set<string>): State {
    State(false, None, NoUser, None, None, None, map[], [], files)
  }

  /** Everything that can happen next: a step of thread `t`, or a route or
      Socket.IO handler. */
  datatype Action =
    | BeginThread(t: nat)
    | Validate(t: nat, outcome: ConnectOutcome)
    | AskUser(t: nat, prompt: Prompt)
    | TakeAnswer(t: nat)
    | WaitTimesOut(t: nat)
    | LoginEnds(t: nat, raised: bool, authorized: bool, me: Me)
    | ClientDisconnects(t: nat)
    | LoopStops(t: nat)
    | ThreadFinally(t: nat)
    | ConnectRoute(sessionName: Option<string>, phone: Option<string>, id: nat, race: Race)
    | DisconnectRoute(race: Race)
    | RemoveSessionRoute(sessionName: Option<string>, race: Race)
    | Response(value: Option<string>)

  predicate Enabled(s: State, a: Action) {
    match a
    case BeginThread(t) => t in s.threads && s.threads[t].phase.Created?
    case Validate(t, _) => t in s.threads && s.threads[t].phase.Validating?
    case AskUser(t, _) => t in s.threads && s.threads[t].phase.Starting?
    case TakeAnswer(t) => t in s.threads && s.threads[t].phase.Waiting? && s.queue != []
    case WaitTimesOut(t) => t in s.threads && s.threads[t].phase.Waiting? && s.queue == []
    case LoginEnds(t, _, _, _) => t in s.threads && s.threads[t].phase.Starting?
    case ClientDisconnects(t) => t in s.threads && s.threads[t].phase.Online?
    case LoopStops(t) => t in s.threads && s.threads[t].stopRequested && Stoppable(s.threads[t].phase)
    case ThreadFinally(t) => t in s.threads && s.threads[t].phase.Closing?
    case ConnectRoute(_, _, id, _) => id !in s.threads
    case _ => true
  }

  function Apply(s: State, a: Action): Step
    requires Enabled(s, a)
  {
    match a
    case BeginThread(t) => BeginStep(s, t)
    case Validate(t, o) => ValidatedStep(s, t, o)
    case AskUser(t, p) => PromptStep(s, t, p)
    case TakeAnswer(t) => AnswerStep(s, t)
    case WaitTimesOut(t) => TimeoutStep(s, t)
    case LoginEnds(t, raised, authorized, me) => LoginStep(s, t, raised, authorized, me)
    case ClientDisconnects(t) => DisconnectedStep(s, t)
    case LoopStops(t) => LoopStoppedStep(s, t)
    case ThreadFinally(t) => ThreadFinallyStep(s, t)
    case ConnectRoute(name, phone, id, race) => ConnectStep(s, name, phone, id, race).0
    case DisconnectRoute(race) => DisconnectRouteStep(s, race).0
    case RemoveSessionRoute(name, race) => RemoveSessionStep(s, name, race).0
    case Response(v) => ResponseStep(s, v)
  }

  /** Actions applied one after another, up to the first that is not
      enabled. */
  function Execute(s: State, acts: seq<Action>): State
    decreases |acts|
  {
    if acts == [] || !Enabled(s, acts[0]) then s else Execute(Apply(s, acts[0]).state, acts[1..])
  }

  /** No thread is in `run_forever`. */
  predicate NoForever(s: State) {
    forall t :: t in s.threads ==> !s.threads[t].phase.Forever?
  }

  lemma SetPhaseNoForever(s: State, t: nat, p: Phase)
    requires t in s.threads && NoForever(s) && !p.Forever?
    ensures NoForever(SetPhase(s, t, p))
  {
  }

  /** The coroutine never hands back a truthy result: every way it ends
      leaves its thread closing, with the connection failure as the last
      event. */
  lemma CoroutineEndsInFailure(s: State, t: nat, result: Option<bool>)
    requires t in s.threads && result != Some(true)
    ensures var r := CoroutineEnds(s, t, result);
      r.state.threads[t].phase == Closing
      && |r.emitted| >= 1 && r.emitted[|r.emitted| - 1] == Failed(ConnectionFailed, s.threads[t].session)
      && (NoForever(s) ==> NoForever(r.state))
  {
    var f := CoroutineFinallyStep(s, t);
    if NoForever(s) {
      SetPhaseNoForever(f.state, t, Closing);
    }
  }

  lemma ThreadFinallyNoForever(s: State, t: nat)
    requires t in s.threads && s.threads[t].phase.Closing? && NoForever(s)
    ensures NoForever(ThreadFinallyStep(s, t).state)
  {
    SetPhaseNoForever(s, t, Finished);
  }

  lemma LoopStoppedNoForever(s: State, t: nat)
    requires t in s.threads && s.threads[t].stopRequested && Stoppable(s.threads[t].phase) && NoForever(s)
    ensures NoForever(LoopStoppedStep(s, t).state)
  {
    SetPhaseNoForever(s, t, Closing);
  }

  lemma JoinNoForever(s: State, w: nat, joins: bool)
    requires NoForever(s)
    ensures NoForever(JoinStep(s, w, joins).state)
  {
    if joins && w in s.threads {
      if s.threads[w].phase.Closing? {
        ThreadFinallyNoForever(s, w);
      } else if s.threads[w].stopRequested && Stoppable(s.threads[w].phase) {
        LoopStoppedNoForever(s, w);
        var l := LoopStoppedStep(s, w);
        ThreadFinallyNoForever(l.state, w);
      }
    }
  }

  lemma HeldClientEndsNoForever(s: State, u: nat, race: Race)
    requires s.client.Some? && NoForever(s)
    ensures NoForever(HeldClientEnds(s, u, race).state)
  {
    var c := s.client.value;
    if c in s.threads && s.threads[c].phase.Online? && (c != u || race.endsFirst) {
      CoroutineEndsInFailure(s, c, None);
    }
  }

  lemma StopAndJoinNoForever(s: State, u: nat, joins: bool)
    requires NoForever(s)
    ensures NoForever(StopAndJoin(s, u, joins).state)
  {
    var posted := PostStop(s, u);
    assert NoForever(posted);
    if posted.thread.Some? {
      JoinNoForever(posted, posted.thread.value, joins);
    }
  }

  lemma DisconnectRouteNoForever(s: State, race: Race)
    requires NoForever(s)
    ensures NoForever(DisconnectRouteStep(s, race).0.state)
  {
    if s.connected && s.client.Some? && s.loop.Some? && Running(s, s.loop.value) && race.futureError.None? {
      var u := s.loop.value;
      var ended := HeldClientEnds(s, u, race);
      HeldClientEndsNoForever(s, u, race);
      if ClosesBeforeStop(ended.state, s.client.value, u, race) {
        ThreadFinallyNoForever(ended.state, s.client.value);
      } else {
        StopAndJoinNoForever(ended.state, u, race.joins);
      }
    }
  }

  /** The `run_forever` branch is dead: from a state where no thread is in
      it, no step puts one there. */
  lemma NoForeverPreserved(s: State, a: Action)
    requires NoForever(s) && Enabled(s, a)
    ensures NoForever(Apply(s, a).state)
  {
    match a
    case BeginThread(t) =>
      var w := s.threads[t];
      SetPhaseNoForever(s.(loop := Some(t), queue := []), t, if w.session in s.files then Validating else Starting(w.phone));
    case Validate(t, o) =>
      if o.ConnectOk? {
        SetPhaseNoForever(s, t, Starting(None));
      } else {
        CoroutineEndsInFailure(s.(files := s.files - {s.threads[t].session}), t, Some(false));
      }
    case AskUser(t, p) =>
      SetPhaseNoForever(s, t, Waiting(p, s.threads[t].phase.phone));
    case TakeAnswer(t) =>
      SetPhaseNoForever(s.(queue := s.queue[1..]), t, Starting(s.threads[t].phase.phone));
    case WaitTimesOut(t) =>
      CoroutineEndsInFailure(s, t, Some(false));
    case LoginEnds(t, raised, authorized, me) =>
      var w := s.threads[t];
      if raised {
        CoroutineEndsInFailure(s, t, Some(false));
      } else if authorized {
        var online := s.(client := Some(t), userInfo := UserInfoOf(me), connected := true, currentSession := Some(w.session));
        SetPhaseNoForever(online, t, Online);
      } else {
        CoroutineEndsInFailure(s.(files := s.files - {w.session}), t, Some(false));
      }
    case ClientDisconnects(t) =>
      CoroutineEndsInFailure(s, t, None);
    case LoopStops(t) =>
      LoopStoppedNoForever(s, t);
    case ThreadFinally(t) =>
      ThreadFinallyNoForever(s, t);
    case ConnectRoute(name, phone, id, race) =>
      StartThreadNoForever(s, name, phone, id, race);
    case DisconnectRoute(race) =>
      DisconnectRouteNoForever(s, race);
    case RemoveSessionRoute(name, race) =>
      DisconnectRouteNoForever(s, race);
    case Response(v) =>
  }

  lemma StartThreadNoForever(s: State, name: Option<string>, phone: Option<string>, id: nat, race: Race)
    requires NoForever(s) && id !in s.threads
    ensures NoForever(ConnectStep(s, name, phone, id, race).0.state)
  {
    if TruthyStr(name) && !(name.value !in s.files && !TruthyStr(phone)) {
      if s.thread.Some? && Alive(s, s.thread.value) {
        if s.loop.Some? && Running(s, s.loop.value) {
          DisconnectRouteNoForever(s, race);
        } else {
          JoinNoForever(s, s.thread.value, race.joins);
        }
      }
    }
  }

  /** Hence in every reachable state the thread that logged in is never
      kept in `run_forever`: the failure branch runs whenever
      `run_until_complete` returns. */
  lemma {:induction false} ExecuteNoForever(s: State, acts: seq<Action>)
    requires NoForever(s)
    ensures NoForever(Execute(s, acts))
    decreases |acts|
  {
    if acts != [] && Enabled(s, acts[0]) {
      NoForeverPreserved(s, acts[0]);
      ExecuteNoForever(Apply(s, acts[0]).state, acts[1..]);
    }
  }

  lemma InitialNoForever(files: set<string>)
    ensures NoForever(InitialState(files))
  {
  }

  /** The coroutine's `finally`: the four globals are cleared, and one reset
      status update emitted, exactly when the ending session is the current
      one; the global `loop` is never touched. */
  lemma CoroutineFinallyGuard(s: State, t: nat)
    requires t in s.threads
    ensures var f := CoroutineFinallyStep(s, t); var mine := s.currentSession == Some(s.threads[t].session);
      && (mine <==> f.emitted == [Reset])
      && (!mine <==> f.state == s && f.emitted == [])
      && (mine ==> !f.state.connected && f.state.client.None? && f.state.currentSession.None? && f.state.userInfo == NoUser)
      && f.state.loop == s.loop && f.state.thread == s.thread && f.state.threads == s.threads
  {
  }

  /** The thread's `finally` never emits. It changes a global only when
      closing the global loop succeeds and its session is the current one;
      then it clears the four globals and `loop`, but not
      `telegram_thread`. */
  lemma ThreadFinallyGuard(s: State, t: nat)
    requires t in s.threads && s.threads[t].phase.Closing?
    ensures var f := ThreadFinallyStep(s, t);
      var fires := s.loop.Some? && !Running(s, s.loop.value) && s.currentSession == Some(s.threads[t].session);
      && f.emitted == []
      && f.state.threads == s.threads[t := s.threads[t].(phase := Finished)]
      && (!fires ==> f.state == s.(threads := f.state.threads))
      && (fires ==> !f.state.connected && f.state.client.None? && f.state.currentSession.None?
                    && f.state.userInfo == NoUser && f.state.loop.None?)
      && f.state.thread == s.thread
  {
  }

  /** A thread that reaches its `finally` after the route has cleared `loop`
      fails on `None.close()` and skips its reset. */
  lemma ThreadFinallyAfterRouteReset(s: State, t: nat)
    requires t in s.threads && s.threads[t].phase.Closing? && s.loop.None?
    ensures ThreadFinallyStep(s, t) == Step(SetPhase(s, t, Finished), [])
  {
  }

  /** A stop processed inside `run_until_complete` is reported as the
      internal thread error. */
  lemma LoopStopReported(s: State, t: nat)
    requires t in s.threads && s.threads[t].stopRequested && Stoppable(s.threads[t].phase)
    requires !s.threads[t].phase.Forever?
    ensures var l := LoopStoppedStep(s, t);
      l.emitted == [Failed("Erro interno na thread: Event loop stopped before Future completed.", s.threads[t].session)]
      && l.state == SetPhase(s, t, Closing)
  {
  }

  /** Every run starts from an empty auth queue, with its loop stored
      globally. */
  lemma BeginDrains(s: State, t: nat)
    requires t in s.threads && s.threads[t].phase.Created?
    ensures var b := BeginStep(s, t); var w := s.threads[t];
      b.state.queue == [] && b.state.loop == Some(t) && b.emitted == []
      && b.state.threads[t].phase == (if w.session in s.files then Validating else Starting(w.phone))
  {
  }

  /** On authorization the client, `user_info`, `connected` and
      `current_session` are set together, the global `loop` stays as it
      was, and exactly one connected status update is emitted. */
  lemma AuthorizationRecordsAccount(s: State, t: nat, me: Me)
    requires t in s.threads && s.threads[t].phase.Starting?
    ensures var st := LoginStep(s, t, false, true, me); var w := s.threads[t];
      && st.state == s.(connected := true, client := Some(t), userInfo := UserInfoOf(me),
                        currentSession := Some(w.session), threads := s.threads[t := w.(phase := Online)])
      && st.emitted == [Connected(UserInfo(me.firstName, Some(me.id)), w.session)]
  {
  }

  /** Disconnecting the held client `c` ends its coroutine, reported as a
      connection failure, exactly when it is online and its loop is not the
      stopped one or resumes first; no other thread moves. */
  lemma HeldClientEndsOutcomes(s: State, u: nat, race: Race)
    requires s.client.Some?
    ensures var h := HeldClientEnds(s, u, race); var c := s.client.value;
      var ends := c in s.threads && s.threads[c].phase.Online? && (c != u || race.endsFirst);
      && (ends ==> h.state.threads[c].phase == Closing && h.emitted[|h.emitted| - 1] == Failed(ConnectionFailed, s.threads[c].session))
      && (!ends ==> h == Step(s, []))
      && (forall t :: t in s.threads && t != c ==> h.state.threads[t] == s.threads[t])
  {
    var c := s.client.value;
    if c in s.threads && s.threads[c].phase.Online? && (c != u || race.endsFirst) {
      CoroutineEndsInFailure(s, c, None);
    }
  }

  /** Posting the stop marks loop `u` as asked to stop when it runs, and
      otherwise changes nothing; no phase and no global changes. */
  lemma PostStopOutcomes(s: State, u: nat)
    ensures var p := PostStop(s, u);
      && (Running(s, u) ==> p.threads[u] == s.threads[u].(stopRequested := true))
      && (!Running(s, u) ==> p == s)
      && p.(threads := s.threads) == s
      && (forall t :: t in s.threads && t != u ==> p.threads[t] == s.threads[t])
  {
  }

  /** A join lets thread `w` finish exactly when it is already closing or a
      posted stop ends its loop; otherwise nothing happens. No other thread
      moves. */
  lemma JoinOutcomes(s: State, w: nat, joins: bool)
    ensures var j := JoinStep(s, w, joins);
      var ends := joins && w in s.threads && (s.threads[w].phase.Closing? || (s.threads[w].stopRequested && Stoppable(s.threads[w].phase)));
      && (ends ==> j.state.threads[w].phase == Finished)
      && (!ends ==> j == Step(s, []))
      && (forall t :: t in s.threads && t != w ==> j.state.threads[t] == s.threads[t])
  {
  }

  /** `disconnect_route` answers "Não conectado" and changes nothing when not
      connected or when no client is held. */
  lemma DisconnectRouteNotConnected(s: State, race: Race)
    requires !s.connected || s.client.None?
    ensures DisconnectRouteStep(s, race) == (Step(s, []), Refused(NotConnected))
  {
  }

  /** Every other path resets the six globals and ends with exactly one
      reset status update of its own, after whatever the threads emitted
      meanwhile. The route succeeds exactly when the loop runs, the future
      returns, and the held client's thread does not close that loop before
      the stop is posted; when it does, the route answers that the loop is
      closed. */
  lemma DisconnectRouteResets(s: State, race: Race)
    requires s.connected && s.client.Some?
    ensures var (st, reply) := DisconnectRouteStep(s, race);
      var c := s.client.value;
      var closedFirst := race.futureError.None? && race.endsFirst && race.closesFirst && s.loop == s.client
                         && c in s.threads && s.threads[c].phase.Online?;
      && !st.state.connected && st.state.client.None? && st.state.currentSession.None?
      && st.state.userInfo == NoUser && st.state.loop.None? && st.state.thread.None?
      && |st.emitted| >= 1 && st.emitted[|st.emitted| - 1] == Reset
      && (reply.Accepted? <==> s.loop.Some? && Running(s, s.loop.value) && race.futureError.None? && !closedFirst)
      && (closedFirst ==> reply == Refused(DisconnectErrorPrefix + LoopClosedError))
      && (!reply.Accepted? && !closedFirst ==> st.emitted == [Reset])
  {
    var c := s.client.value;
    if s.loop.Some? && Running(s, s.loop.value) && race.futureError.None? {
      var u := s.loop.value;
      var ended := HeldClientEnds(s, u, race);
      if c in s.threads && s.threads[c].phase.Online? && (c != u || race.endsFirst) {
        CoroutineFinallyGuard(s, c);
        if ClosesBeforeStop(ended.state, c, u, race) {
          assert c == u;
          ThreadFinallyGuard(ended.state, c);
        }
      }
    }
  }

  /** `connect`: without a session name, or for a new session without a
      phone, nothing starts; an existing session's thread gets no phone even
      when the request sent one. */
  lemma ConnectOutcomes(s: State, sessionName: Option<string>, phone: Option<string>, id: nat, race: Race)
    requires id !in s.threads
    ensures var (st, reply) := ConnectStep(s, sessionName, phone, id, race);
      && (!TruthyStr(sessionName) ==> st == Step(s, []) && reply == Refused(NameMissing))
      && (TruthyStr(sessionName) && sessionName.value !in s.files && !TruthyStr(phone) ==>
            st == Step(s, []) && reply == Refused(PhoneRequired))
      && (TruthyStr(sessionName) && sessionName.value in s.files ==>
            reply == Accepted(ConnectStarted) && st.state.thread == Some(id)
            && st.state.threads[id] == Worker(sessionName.value, None, Created, false))
      && (TruthyStr(sessionName) && sessionName.value !in s.files && TruthyStr(phone) ==>
            reply == Accepted(ConnectStarted) && st.state.threads[id] == Worker(sessionName.value, phone, Created, false))
  {
  }

  /** `remove_session`: a missing file is reported and the listing kept; an
      existing one is removed and, if it was the current session, that is
      cleared. */
  lemma RemoveSessionOutcomes(s: State, name: string, race: Race)
    requires name != ""
    ensures var (st, reply) := RemoveSessionStep(s, Some(name), race);
      var before := if s.connected && s.client.Some? then DisconnectRouteStep(s, race).0.state else s;
      && (reply.Accepted? <==> name in before.files)
      && name !in st.state.files
      && (reply.Accepted? ==> st.state.currentSession != Some(name) && st.state.files == before.files - {name})
      && (reply.Refused? ==> st.state == before && reply == Refused("Sessão " + name + " não encontrada"))
  {
  }

  /** The Flask server's globals, updated in place by its threads and
      routes; each method is one atomic step and is proved to change the
      globals exactly as the step function above says. */
  class ThreadServer {
    var connected: bool
    var client: Option<nat>
    var userInfo: UserInfo
    var currentSession: Option<string>
    var loop: Option<nat>
    var thread: Option<nat>
    var threads: map<nat, Worker>
    var queue: seq<string>
    var files: set<string>
    /** Every Socket.IO event emitted so far. */
    ghost var events: seq<Event>

    function Snapshot(): State
      reads this
    {
      State(connected, client, userInfo, currentSession, loop, thread, threads, queue, files)
    }

    constructor (sessionFiles: set<string>)
      ensures Snapshot() == InitialState(sessionFiles) && events == []
    {
      connected := false;
      client := None;
      userInfo := NoUser;
      currentSession := None;
      loop := None;
      thread := None;
      threads := map[];
      queue := [];
      files := sessionFiles;
      events := [];
    }

    method MovePhase(t: nat, p: Phase)
      requires t in threads
      modifies this
      ensures Snapshot() == SetPhase(old(Snapshot()), t, p) && events == old(events)
    {
      threads := threads[t := threads[t].(phase := p)];
    }

    /** The coroutine's `finally`. */
    method CoroutineFinally(t: nat)
      requires t in threads
      modifies this
      ensures Snapshot() == CoroutineFinallyStep(old(Snapshot()), t).state
      ensures events == old(events) + CoroutineFinallyStep(old(Snapshot()), t).emitted
    {
      if currentSession == Some(threads[t].session) {
        connected := false;
        client := None;
        currentSession := None;
        userInfo := NoUser;
        events := events + [Reset];
      }
    }

    /** The coroutine returns `result`; `run_until_complete` hands it back. */
    method CoroutineReturns(t: nat, result: Option<bool>)
      requires t in threads
      modifies this
      ensures Snapshot() == CoroutineEnds(old(Snapshot()), t, result).state
      ensures events == old(events) + CoroutineEnds(old(Snapshot()), t, result).emitted
    {
      var session := threads[t].session;
      CoroutineFinally(t);
      if result == Some(true) {
        MovePhase(t, Forever);
      } else {
        MovePhase(t, Closing);
        events := events + [Failed(ConnectionFailed, session)];
      }
    }

    /** Create the loop and store it globally, drain the auth queue, look
        for the session file. */
    method Begin(t: nat)
      requires t in threads && threads[t].phase.Created?
      modifies this
      ensures Snapshot() == BeginStep(old(Snapshot()), t).state
      ensures events == old(events) + BeginStep(old(Snapshot()), t).emitted
    {
      loop := Some(t);
      while queue != []
        invariant Snapshot() == old(Snapshot()).(loop := Some(t), queue := queue)
        invariant events == old(events)
        decreases |queue|
      {
        queue := queue[1..];
      }
      var w := threads[t];
      if w.session in files {
        MovePhase(t, Validating);
      } else {
        MovePhase(t, Starting(w.phone));
      }
    }

    /** `client.connect()` has answered for an existing session file. */
    method Validated(t: nat, o: ConnectOutcome)
      requires t in threads && threads[t].phase.Validating?
      modifies this
      ensures Snapshot() == ValidatedStep(old(Snapshot()), t, o).state
      ensures events == old(events) + ValidatedStep(old(Snapshot()), t, o).emitted
    {
      if o.ConnectOk? {
        MovePhase(t, Starting(None));
      } else {
        files := files - {threads[t].session};
        CoroutineReturns(t, Some(false));
      }
    }

    /** A login callback emits its question. */
    method Ask(t: nat, p: Prompt)
      requires t in threads && threads[t].phase.Starting?
      modifies this
      ensures Snapshot() == PromptStep(old(Snapshot()), t, p).state
      ensures events == old(events) + PromptStep(old(Snapshot()), t, p).emitted
    {
      events := events + [Lifecycle.Ask(p)];
      MovePhase(t, Waiting(p, threads[t].phase.phone));
    }

    /** The callback's `get` returns the front answer. */
    method TakeAnswer(t: nat) returns (answer: string)
      requires t in threads && threads[t].phase.Waiting? && queue != []
      modifies this
      ensures answer == old(queue)[0]
      ensures Snapshot() == AnswerStep(old(Snapshot()), t).state
      ensures events == old(events) + AnswerStep(old(Snapshot()), t).emitted
    {
      answer := queue[0];
      queue := queue[1..];
      MovePhase(t, Starting(threads[t].phase.phone));
    }

    /** The callback's wait runs out. */
    method WaitTimesOut(t: nat)
      requires t in threads && threads[t].phase.Waiting? && queue == []
      modifies this
      ensures Snapshot() == TimeoutStep(old(Snapshot()), t).state
      ensures events == old(events) + TimeoutStep(old(Snapshot()), t).emitted
    {
      CoroutineReturns(t, Some(false));
    }

    /** The login has returned or raised. */
    method LoginEnded(t: nat, raised: bool, authorized: bool, me: Me)
      requires t in threads && threads[t].phase.Starting?
      modifies this
      ensures Snapshot() == LoginStep(old(Snapshot()), t, raised, authorized, me).state
      ensures events == old(events) + LoginStep(old(Snapshot()), t, raised, authorized, me).emitted
    {
      var session := threads[t].session;
      if raised {
        CoroutineReturns(t, Some(false));
      } else if authorized {
        client := Some(t);
        userInfo := UserInfoOf(me);
        connected := true;
        currentSession := Some(session);
        events := events + [Connected(userInfo, session)];
        MovePhase(t, Online);
      } else {
        files := files - {session};
        CoroutineReturns(t, Some(false));
      }
    }

    /** `run_until_disconnected()` returns. */
    method ClientDisconnected(t: nat)
      requires t in threads && threads[t].phase.Online?
      modifies this
      ensures Snapshot() == DisconnectedStep(old(Snapshot()), t).state
      ensures events == old(events) + DisconnectedStep(old(Snapshot()), t).emitted
    {
      CoroutineReturns(t, None);
    }

    /** A posted `loop.stop` is processed. */
    method LoopStopped(t: nat)
      requires t in threads && threads[t].stopRequested && Stoppable(threads[t].phase)
      modifies this
      ensures Snapshot() == LoopStoppedStep(old(Snapshot()), t).state
      ensures events == old(events) + LoopStoppedStep(old(Snapshot()), t).emitted
    {
      var w := threads[t];
      MovePhase(t, Closing);
      if !w.phase.Forever? {
        events := events + [Failed(LoopStoppedError, w.session)];
      }
    }

    /** The thread's `finally`. */
    method ThreadFinally(t: nat)
      requires t in threads && threads[t].phase.Closing?
      modifies this
      ensures Snapshot() == ThreadFinallyStep(old(Snapshot()), t).state
      ensures events == old(events) + ThreadFinallyStep(old(Snapshot()), t).emitted
    {
      var session := threads[t].session;
      var closed := loop.Some? && !Running(Snapshot(), loop.value);
      MovePhase(t, Finished);
      if closed && currentSession == Some(session) {
        connected := false;
        client := None;
        currentSession := None;
        userInfo := NoUser;
        loop := None;
      }
    }

    /** `telegram_thread.join(timeout)` */
    method Join(w: nat, joins: bool)
      modifies this
      ensures Snapshot() == JoinStep(old(Snapshot()), w, joins).state
      ensures events == old(events) + JoinStep(old(Snapshot()), w, joins).emitted
    {
      if joins && w in threads {
        if threads[w].phase.Closing? {
          ThreadFinally(w);
        } else if threads[w].stopRequested && Stoppable(threads[w].phase) {
          LoopStopped(w);
          ThreadFinally(w);
        }
      }
    }

    method PostStopOn(u: nat)
      modifies this
      ensures Snapshot() == PostStop(old(Snapshot()), u) && events == old(events)
    {
      if Running(Snapshot(), u) {
        threads := threads[u := threads[u].(stopRequested := true)];
      }
    }

    /** The held client is disconnected. */
    method DisconnectHeld(u: nat, race: Race)
      requires client.Some?
      modifies this
      ensures Snapshot() == HeldClientEnds(old(Snapshot()), u, race).state
      ensures events == old(events) + HeldClientEnds(old(Snapshot()), u, race).emitted
    {
      var c := client.value;
      if c in threads && threads[c].phase.Online? && (c != u || race.endsFirst) {
        CoroutineReturns(c, None);
      }
    }

    /** The stop is posted and the thread joined. */
    method StopAndJoinThread(u: nat, joins: bool)
      modifies this
      ensures Snapshot() == StopAndJoin(old(Snapshot()), u, joins).state
      ensures events == old(events) + StopAndJoin(old(Snapshot()), u, joins).emitted
    {
      PostStopOn(u);
      if thread.Some? {
        Join(thread.value, joins);
      }
    }

    /** The client is disconnected; then its thread closes the loop
        first and posting the stop raises `err`, or the stop is posted and
        the thread joined. */
    method RouteWaits(u: nat, race: Race) returns (err: Option<string>)
      requires client.Some?
      modifies this
      ensures (Snapshot(), err) == (WhileRouteWaits(old(Snapshot()), u, race).0.state, WhileRouteWaits(old(Snapshot()), u, race).1)
      ensures events == old(events) + WhileRouteWaits(old(Snapshot()), u, race).0.emitted
    {
      var c := client.value;
      DisconnectHeld(u, race);
      if ClosesBeforeStop(Snapshot(), c, u, race) {
        ThreadFinally(c);
        err := Some(if loop.None? then NoLoopError else LoopClosedError);
      } else {
        StopAndJoinThread(u, race.joins);
        err := None;
      }
    }

    /** The route's six-global reset and its status update. */
    method ResetAll()
      modifies this
      ensures Snapshot() == RouteReset(old(Snapshot())) && events == old(events) + [Reset]
    {
      connected := false;
      client := None;
      currentSession := None;
      userInfo := NoUser;
      loop := None;
      thread := None;
      events := events + [Reset];
    }

    /** `POST /api/disconnect` */
    method DisconnectRoute(race: Race) returns (reply: Reply)
      modifies this
      ensures (Snapshot(), reply) == (DisconnectRouteStep(old(Snapshot()), race).0.state, DisconnectRouteStep(old(Snapshot()), race).1)
      ensures events == old(events) + DisconnectRouteStep(old(Snapshot()), race).0.emitted
    {
      if !connected || client.None? {
        return Refused(NotConnected);
      }
      if loop.Some? && Running(Snapshot(), loop.value) {
        if race.futureError.Some? {
          ResetAll();
          reply := Refused(DisconnectErrorPrefix + race.futureError.value);
        } else {
          var err := RouteWaits(loop.value, race);
          ResetAll();
          if err.Some? {
            reply := Refused(DisconnectErrorPrefix + err.value);
          } else {
            reply := Accepted(Disconnected);
          }
        }
      } else {
        ResetAll();
        reply := Refused(LoopUnavailable);
      }
    }

    /** `start_telegram_thread` */
    method StartThread(session: string, phone: Option<string>, id: nat, race: Race)
      requires id !in threads
      modifies this
      ensures Snapshot() == StartThreadStep(old(Snapshot()), session, phone, id, race).state
      ensures events == old(events) + StartThreadStep(old(Snapshot()), session, phone, id, race).emitted
    {
      if thread.Some? && Alive(Snapshot(), thread.value) {
        if loop.Some? && Running(Snapshot(), loop.value) {
          var _ := DisconnectRoute(race);
        } else {
          Join(thread.value, race.joins);
        }
      }
      loop := None;
      thread := Some(id);
      threads := threads[id := Worker(session, phone, Created, false)];
    }

    /** `POST /api/connect` */
    method Connect(sessionName: Option<string>, phone: Option<string>, id: nat, race: Race) returns (reply: Reply)
      requires id !in threads
      modifies this
      ensures var (st, r) := ConnectStep(old(Snapshot()), sessionName, phone, id, race);
        Snapshot() == st.state && events == old(events) + st.emitted && reply == r
    {
      if !TruthyStr(sessionName) {
        return Refused(NameMissing);
      }
      var name := sessionName.value;
      var isNew := name !in files;
      if isNew && !TruthyStr(phone) {
        return Refused(PhoneRequired);
      }
      StartThread(name, if isNew then phone else None, id, race);
      reply := Accepted(ConnectStarted);
    }

    /** `POST /api/remove-session` */
    method RemoveSession(sessionName: Option<string>, race: Race) returns (reply: Reply)
      modifies this
      ensures var (st, r) := RemoveSessionStep(old(Snapshot()), sessionName, race);
        Snapshot() == st.state && events == old(events) + st.emitted && reply == r
    {
      if connected && client.Some? {
        var _ := DisconnectRoute(race);
      }
      if !TruthyStr(sessionName) {
        return Refused(NameNotGiven);
      }
      var name := sessionName.value;
      if name in files {
        files := files - {name};
        if currentSession == Some(name) {
          currentSession := None;
        }
        reply := Accepted("Sessão " + name + " removida com sucesso");
      } else {
        reply := Refused("Sessão " + name + " não encontrada");
      }
    }

    /** `handle_code_response` / `handle_password_response` */
    method Response(v: Option<string>)
      modifies this
      ensures Snapshot() == ResponseStep(old(Snapshot()), v).state
      ensures events == old(events) + ResponseStep(old(Snapshot()), v).emitted
    {
      if TruthyStr(v) {
        queue := queue + [v.value];
      }
    }
  }
}
