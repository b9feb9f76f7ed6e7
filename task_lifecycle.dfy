/** The FastAPI server's connection lifecycle (main.py): one asyncio task
    runs the Telegram login and then keeps the client online, while routes
    start, cancel and reset it. Every stretch of code between two `await`s
    is one atomic step; `State` is the set of module globals, and each step
    also returns the Socket.IO events it emits. */
module TaskLifecycle {
  import opened Python
  import opened Lifecycle
  import AuthQueue

  /** Where the client task stands. */
  datatype Phase =
      /** `create_task` has run; the coroutine has not been entered */
    | Created
      /** awaiting `client.connect()` for an existing session file */
    | Validating
      /** inside `temp_client.start`, with the phone it was given */
    | Starting(phone: Option<string>)
      /** a login callback awaiting the auth queue */
    | Waiting(prompt: Prompt, phone: Option<string>)
      /** authorized, in `run_until_disconnected` */
    | Online
      /** the task has finished */
    | Done

  /** `telegram_client_task`: the task, its arguments and its phase. */
  datatype Run = Run(id: nat, session: string, phone: Option<string>, phase: Phase)

  /** The globals `connected`, `telegram_client` (the id of the run whose
      client it is), `user_info`, `current_session` and
      `telegram_client_task`, the auth queue, and the session files on disk
      (by session name). */
  datatype State = State(connected: bool, client: Option<nat>, userInfo: UserInfo,
                         currentSession: Option<string>, task: Option<Run>,
                         queue: seq<string>, files: set<string>)

  /** A step's new state and the events it emitted, in order. */
  datatype Step = Step(state: State, emitted: seq<Event>)

  /** `telegram_client_task and not telegram_client_task.done()` */
  predicate Live(s: State) {
    s.task.Some? && !s.task.value.phase.Done?
  }

  function WithPhase(s: State, p: Phase): State
    requires s.task.Some?
  {
    s.(task := Some(s.task.value.(phase := p)))
  }

  /** The five assignments every full reset makes. */
  function Cleared(s: State): State {
    s.(connected := false, client := None, currentSession := None, userInfo := NoUser, task := None)
  }

  /** Clear and announce: the reset followed by one reset status update. */
  function ResetStep(s: State): Step {
    Step(Cleared(s), [Reset])
  }

  /** The `finally` of `run_telegram_client` (the task then counts as done). */
  function FinallyStep(s: State): Step
    requires s.task.Some?
  {
    var ended := WithPhase(s, Done);
    if s.currentSession == Some(s.task.value.session) then ResetStep(ended) else Step(ended, [])
  }

  /** An exception caught by the run's handlers: one failure status update
      naming the run's session, then the `finally`. */
  function FailStep(s: State, error: string): Step
    requires s.task.Some?
  {
    var f := FinallyStep(s);
    Step(f.state, [Failed(error, s.task.value.session)] + f.emitted)
  }

  /** The first stretch of the run: drain the auth queue, then validate an
      existing session file or go straight to the login. */
  function BeginStep(s: State): Step
    requires s.task.Some? && s.task.value.phase.Created?
  {
    var r := s.task.value;
    var drained := s.(queue := []);
    Step(WithPhase(drained, if r.session in s.files then Validating else Starting(r.phone)), [])
  }

  const ValidationPrefix: string := "Erro ao validar sessão existente: "
  const InvalidSession: string := "Sessão existente inválida"

  /** The result of `client.connect()`. A `False` result raises a
      `ConnectionError` inside the inner `try`, whose handler wraps it a
      second time; either failure first removes the session file. */
  function ValidatedStep(s: State, o: ConnectOutcome): Step
    requires s.task.Some? && s.task.value.phase.Validating?
  {
    var r := s.task.value;
    match o
    case ConnectOk => Step(WithPhase(s, Starting(None)), [])
    case ConnectFalse => FailStep(s.(files := s.files - {r.session}), ValidationPrefix + InvalidSession)
    case ConnectRaised(t) => FailStep(s.(files := s.files - {r.session}), ValidationPrefix + t)
  }

  /** Telethon calls `ask_telegram_code` or `ask_telegram_password`. */
  function PromptStep(s: State, p: Prompt): Step
    requires s.task.Some? && s.task.value.phase.Starting?
  {
    Step(WithPhase(s, Waiting(p, s.task.value.phase.phone)), [Ask(p)])
  }

  /** The callback's `auth_queue.get()` returns the front answer. */
  function AnswerStep(s: State): Step
    requires s.task.Some? && s.task.value.phase.Waiting? && s.queue != []
  {
    Step(WithPhase(s.(queue := s.queue[1..]), Starting(s.task.value.phase.phone)), [])
  }

  const CodeTimeout: string := "Timeout esperando pelo código do usuário."
  const PasswordTimeout: string := "Timeout esperando pela senha 2FA do usuário."

  /** The five-minute wait on an empty queue runs out: the callback raises
      `TimeoutError`, which the run reports. */
  function TimeoutStep(s: State): Step
    requires s.task.Some? && s.task.value.phase.Waiting? && s.queue == []
  {
    FailStep(s, if s.task.value.phase.prompt == CodePrompt then CodeTimeout else PasswordTimeout)
  }

  const UnexpectedPrefix: string := "Erro inesperado: "
  const FinalAuthFailure: string := "Falha na autorização final"

  /** The text of the failure status for an exception out of the login. */
  function FailureText(f: Failure): string {
    match f
    case AuthFailure(t) => t
    case OtherFailure(t) => UnexpectedPrefix + t
  }

  /** `temp_client.start` returns (or raises) and `is_user_authorized()`
      answers. Authorized: the four globals are set together and one
      connected status update is emitted. Not authorized: the session file
      is removed and `ConnectionRefusedError` is reported. */
  function LoginStep(s: State, raised: Option<Failure>, authorized: bool, me: Me): Step
    requires s.task.Some? && s.task.value.phase.Starting?
  {
    var r := s.task.value;
    if raised.Some? then FailStep(s, FailureText(raised.value))
    else if authorized then
      var u := UserInfoOf(me);
      var online := s.(client := Some(r.id), userInfo := u, connected := true, currentSession := Some(r.session));
      Step(WithPhase(online, Online), [Connected(u, r.session)])
    else FailStep(s.(files := s.files - {r.session}), FinalAuthFailure)
  }

  /** `run_until_disconnected()` returns: the run falls out of its `try`. */
  function DisconnectedStep(s: State): Step
    requires s.task.Some? && s.task.value.phase.Online?
  {
    FinallyStep(s)
  }

  /** `task.cancel()` delivered at the task's current `await`. A task whose
      coroutine was never entered ends without running any of it;
      otherwise `CancelledError`, which no handler of the run catches, runs
      the `finally`. */
  function CancelStep(s: State): Step
    requires Live(s)
  {
    if s.task.value.phase.Created? then Step(WithPhase(s, Done), []) else FinallyStep(s)
  }

  /** `start_telegram_client_logic`. A live task is cancelled and awaited;
      if `connected` is still set, the forced reset runs, but only
      `connected` and `telegram_client_task` are declared `global` there,
      so the other three assignments bind locals. Then a new task is
      created. The result is always `True`. */
  function StartLogicStep(s: State, session: string, phone: Option<string>, id: nat): Step {
    var c := if Live(s) then CancelStep(s) else Step(s, []);
    var f := if Live(s) && c.state.connected then Step(c.state.(connected := false, task := None), c.emitted + [Reset]) else c;
    Step(f.state.(task := Some(Run(id, session, phone, Created))), f.emitted)
  }

  /** How `disconnect_telegram_logic` ends: it returns `True`, or the
      run's `finally` has already set `telegram_client_task` to `None`
      while the client was being disconnected, and `cancel()` on it raises
      `AttributeError`, which nothing in the function catches. */
  datatype LogicResult = LogicTrue | CancelOnNone

  /** `disconnect_telegram_logic`, with the route's view of whether the
      disconnected client lets the run finish before the cancellation
      arrives. The `except Exception` branch is left out: awaiting the task
      only raises `CancelledError` here. */
  function DisconnectLogicStep(s: State, remoteEndsFirst: bool): (r: (Step, LogicResult))
    ensures r.1.CancelOnNone? <==> Live(s) && remoteEndsFirst && s.task.value.phase.Online? && s.client.Some? && r.0.state.task.None?
    ensures r.1.CancelOnNone? ==> r.0 == FinallyStep(s)
  {
    if Live(s) then
      if remoteEndsFirst && s.task.value.phase.Online? && s.client.Some? then
        var f := FinallyStep(s);
        (f, if f.state.task.None? then CancelOnNone else LogicTrue)
      else
        var c := CancelStep(s);
        if TruthyStr(c.state.currentSession) then (Step(Cleared(c.state), c.emitted + [Reset]), LogicTrue) else (c, LogicTrue)
    else if s.connected then (ResetStep(s), LogicTrue)
    else (Step(s, []), LogicTrue)
  }

  const NotConnected: string := "Não conectado"
  const DisconnectStarted: string := "Processo de desconexão iniciado/concluído"
  /** FastAPI's answer to an exception a route does not handle. */
  const InternalError: string := "Internal Server Error"

  /** `POST /api/disconnect`: the call is not wrapped, so an exception from
      `disconnect_telegram_logic` becomes a plain 500. */
  function DisconnectApiStep(s: State, remoteEndsFirst: bool): (Step, Reply) {
    if !s.connected then (Step(s, []), Refused(NotConnected))
    else
      var (st, res) := DisconnectLogicStep(s, remoteEndsFirst);
      (st, if res.LogicTrue? then Accepted(DisconnectStarted) else Raised(500, InternalError))
  }

  const PhoneRequired: string := "Número de telefone é obrigatório para conectar uma nova conta."
  const ConnectStarted: string := "Processo de conexão iniciado"

  /** `POST /api/connect`: a new session needs a phone; otherwise the task
      is (re)started. */
  function ConnectApiStep(s: State, session: string, phone: Option<string>, id: nat): (Step, Reply) {
    if session !in s.files && !TruthyStr(phone) then (Step(s, []), Raised(400, PhoneRequired))
    else (StartLogicStep(s, session, phone, id), Accepted(ConnectStarted))
  }

  const SessionNotFound: string := "Sessão não encontrada"

  /** `POST /api/remove-session`: the active session is disconnected first;
      an existing file is removed and the new listing announced. An
      exception from the disconnect ends the route there with a 500. */
  function RemoveSessionStep(s: State, name: string, remoteEndsFirst: bool): (Step, Reply) {
    var (d, res) := if s.currentSession == Some(name) && s.connected then DisconnectLogicStep(s, remoteEndsFirst) else (Step(s, []), LogicTrue);
    if res.CancelOnNone? then (d, Raised(500, InternalError))
    else if name in d.state.files then
      var left := d.state.files - {name};
      (Step(d.state.(files := left), d.emitted + [SessionsUpdated(left)]), Accepted("Sessão " + name + " removida."))
    else (d, Refused(SessionNotFound))
  }

  /** `code_response` / `password_response` */
  function ResponseStep(s: State, v: Option<string>): Step {
    Step(s.(queue := AuthQueue.Put(s.queue, v)), [])
  }

  /** The globals at import time, given the session files on disk. */
  function InitialState(files: set<string>): State {
    State(false, None, NoUser, None, None, [], files)
  }

  /** The consistency the steps keep: while `connected` is set, the live
      task is online with the held client and the current session;
      otherwise nothing is held. */
  predicate Inv(s: State) {
    if s.connected then
      s.task.Some? && s.task.value.phase.Online? && s.currentSession == Some(s.task.value.session)
      && s.client == Some(s.task.value.id)
    else s.client.None? && s.currentSession.None? && s.userInfo == NoUser
  }

  /** Everything that can happen next: a step of the task, or a route or
      Socket.IO handler. */
  datatype Action =
    | BeginRun
    | Validate(outcome: ConnectOutcome)
    | AskUser(prompt: Prompt)
    | TakeAnswer
    | WaitTimesOut
    | LoginEnds(raised: Option<Failure>, authorized: bool, me: Me)
    | ClientDisconnects
    | StartClient(session: string, phone: Option<string>, id: nat)
    | ConnectRoute(session: string, phone: Option<string>, id: nat)
    | DisconnectRoute(remoteEndsFirst: bool)
    | RemoveSessionRoute(name: string, remoteEndsFirst: bool)
    | Response(value: Option<string>)

  /** A task step can run only in its phase; an answer is taken only from a
      non-empty queue and the wait times out only on an empty one. */
  predicate Enabled(s: State, a: Action) {
    match a
    case BeginRun => s.task.Some? && s.task.value.phase.Created?
    case Validate(_) => s.task.Some? && s.task.value.phase.Validating?
    case AskUser(_) => s.task.Some? && s.task.value.phase.Starting?
    case TakeAnswer => s.task.Some? && s.task.value.phase.Waiting? && s.queue != []
    case WaitTimesOut => s.task.Some? && s.task.value.phase.Waiting? && s.queue == []
    case LoginEnds(_, _, _) => s.task.Some? && s.task.value.phase.Starting?
    case ClientDisconnects => s.task.Some? && s.task.value.phase.Online?
    case _ => true
  }

  function Apply(s: State, a: Action): Step
    requires Enabled(s, a)
  {
    match a
    case BeginRun => BeginStep(s)
    case Validate(o) => ValidatedStep(s, o)
    case AskUser(p) => PromptStep(s, p)
    case TakeAnswer => AnswerStep(s)
    case WaitTimesOut => TimeoutStep(s)
    case LoginEnds(raised, authorized, me) => LoginStep(s, raised, authorized, me)
    case ClientDisconnects => DisconnectedStep(s)
    case StartClient(session, phone, id) => StartLogicStep(s, session, phone, id)
    case ConnectRoute(session, phone, id) => ConnectApiStep(s, session, phone, id).0
    case DisconnectRoute(ref) => DisconnectApiStep(s, ref).0
    case RemoveSessionRoute(name, ref) => RemoveSessionStep(s, name, ref).0
    case Response(v) => ResponseStep(s, v)
  }

  /** Actions applied one after another, up to the first that is not
      enabled. */
  function Execute(s: State, acts: seq<Action>): State
    decreases |acts|
  {
    if acts == [] || !Enabled(s, acts[0]) then s else Execute(Apply(s, acts[0]).state, acts[1..])
  }

  /** The `finally` guard: the globals are cleared, and one reset status
      update is emitted, exactly when the ending run's session is the
      current one; otherwise only the task is marked done. */
  lemma FinallyGuard(s: State)
    requires s.task.Some?
    ensures var f := FinallyStep(s); var mine := s.currentSession == Some(s.task.value.session);
      && (mine <==> f.emitted == [Reset])
      && (!mine <==> f.emitted == [])
      && (mine ==> !f.state.connected && f.state.client.None? && f.state.currentSession.None?
                   && f.state.userInfo == NoUser && f.state.task.None?)
      && (!mine ==> f.state == s.(task := Some(s.task.value.(phase := Done))))
      && f.state.queue == s.queue && f.state.files == s.files
  {
  }

  /** A reported failure is one status update naming the run's session,
      followed by what the `finally` does. */
  lemma FailureReported(s: State, error: string)
    requires s.task.Some?
    ensures var f := FailStep(s, error);
      |f.emitted| >= 1 && f.emitted[0] == Failed(error, s.task.value.session)
      && f.emitted[1..] == FinallyStep(s).emitted && f.state == FinallyStep(s).state
  {
  }

  /** Every run starts from an empty auth queue; the file check decides
      whether the session is validated first; nothing else changes. */
  lemma BeginDrains(s: State)
    requires s.task.Some? && s.task.value.phase.Created?
    ensures var b := BeginStep(s); var r := s.task.value;
      b.state.queue == [] && b.emitted == []
      && (r.session in s.files ==> b.state.task == Some(r.(phase := Validating)))
      && (r.session !in s.files ==> b.state.task == Some(r.(phase := Starting(r.phone))))
      && b.state.(queue := s.queue, task := s.task) == s
  {
  }

  /** A caught exception keeps the session files and reports first. */
  lemma FailStepFacts(s: State, error: string)
    requires s.task.Some?
    ensures FailStep(s, error).state.files == s.files
    ensures FailStep(s, error).emitted[0] == Failed(error, s.task.value.session)
  {
  }

  /** A validated existing session logs in without the phone; a failed
      validation removes the file and reports the wrapped error. */
  lemma ValidationOutcomes(s: State, o: ConnectOutcome)
    requires s.task.Some? && s.task.value.phase.Validating?
    ensures var v := ValidatedStep(s, o); var r := s.task.value;
      && (o.ConnectOk? ==> v.state == s.(task := Some(r.(phase := Starting(None)))) && v.emitted == [])
      && (o.ConnectFalse? ==>
            r.session !in v.state.files
            && v.emitted[0] == Failed(ValidationPrefix + InvalidSession, r.session))
      && (o.ConnectRaised? ==>
            r.session !in v.state.files && v.emitted[0] == Failed(ValidationPrefix + o.text, r.session))
  {
    var r := s.task.value;
    var removed := s.(files := s.files - {r.session});
    match o
    case ConnectOk =>
    case ConnectFalse =>
      FailStepFacts(removed, ValidationPrefix + InvalidSession);
    case ConnectRaised(t) =>
      FailStepFacts(removed, ValidationPrefix + t);
  }

  /** On authorization the client, `user_info`, `connected` and
      `current_session` are set together and exactly one connected status
      update is emitted. */
  lemma AuthorizationRecordsAccount(s: State, me: Me)
    requires s.task.Some? && s.task.value.phase.Starting?
    ensures var st := LoginStep(s, None, true, me); var r := s.task.value;
      && st.state == s.(connected := true, client := Some(r.id), userInfo := UserInfoOf(me),
                        currentSession := Some(r.session), task := Some(r.(phase := Online)))
      && st.emitted == [Connected(UserInfo(me.firstName, Some(me.id)), r.session)]
  {
  }

  /** A login that is refused removes the session file and reports
      "Falha na autorização final"; one that raises reports the exception,
      an unnamed kind prefixed with "Erro inesperado: ". */
  lemma LoginFailures(s: State, raised: Option<Failure>, me: Me)
    requires s.task.Some? && s.task.value.phase.Starting?
    ensures var r := s.task.value;
      && (raised.None? ==> var st := LoginStep(s, None, false, me);
            r.session !in st.state.files && st.emitted[0] == Failed(FinalAuthFailure, r.session))
      && (raised.Some? && raised.value.AuthFailure? ==>
            LoginStep(s, raised, true, me).emitted[0] == Failed(raised.value.text, r.session))
      && (raised.Some? && raised.value.OtherFailure? ==>
            LoginStep(s, raised, true, me).emitted[0] == Failed("Erro inesperado: " + raised.value.text, r.session))
  {
  }

  /** Cancelling a task that never ran executes none of its code: no
      event, and only the task is marked done. */
  lemma CancelBeforeStartRunsNothing(s: State)
    requires s.task.Some? && s.task.value.phase.Created?
    ensures CancelStep(s) == Step(s.(task := Some(s.task.value.(phase := Done))), [])
  {
  }

  lemma InitialInv(files: set<string>)
    ensures Inv(InitialState(files))
  {
  }

  /** Every step keeps the invariant. */
  lemma InvPreserved(s: State, a: Action)
    requires Inv(s) && Enabled(s, a)
    ensures Inv(Apply(s, a).state)
  {
    match a
    case StartClient(session, phone, id) =>
      StartLogicKeepsInv(s, session, phone, id);
    case ConnectRoute(session, phone, id) =>
      StartLogicKeepsInv(s, session, phone, id);
    case DisconnectRoute(ref) =>
      DisconnectLogicClears(s, ref);
    case RemoveSessionRoute(name, ref) =>
      DisconnectLogicClears(s, ref);
    case _ =>
  }

  /** Hence every reachable state satisfies the invariant. */
  lemma {:induction false} ExecuteKeepsInv(s: State, acts: seq<Action>)
    requires Inv(s)
    ensures Inv(Execute(s, acts))
    decreases |acts|
  {
    if acts != [] && Enabled(s, acts[0]) {
      InvPreserved(s, acts[0]);
      ExecuteKeepsInv(Apply(s, acts[0]).state, acts[1..]);
    }
  }

  lemma StartLogicKeepsInv(s: State, session: string, phone: Option<string>, id: nat)
    requires Inv(s)
    ensures Inv(StartLogicStep(s, session, phone, id).state)
    ensures !StartLogicStep(s, session, phone, id).state.connected
    ensures Live(s) ==> !CancelStep(s).state.connected
  {
  }

  /** As written, the forced reset in `start_telegram_client_logic` clears
      only `connected` and the task: the held client, `user_info` and
      `current_session` survive it. */
  lemma PartialResetKeepsSession(s: State, session: string, phone: Option<string>, id: nat)
    requires Live(s) && CancelStep(s).state.connected
    ensures var c := CancelStep(s); var st := StartLogicStep(s, session, phone, id);
      && !st.state.connected
      && st.state.client == c.state.client && st.state.userInfo == c.state.userInfo
      && st.state.currentSession == c.state.currentSession
      && st.state.task == Some(Run(id, session, phone, Created))
      && st.emitted == c.emitted + [Reset]
  {
  }

  /** The forced reset never fires from a reachable state: the cancelled
      run's own `finally` has already cleared `connected`, so a restart
      emits only what that `finally` emitted. */
  lemma PartialResetDormant(s: State, session: string, phone: Option<string>, id: nat)
    requires Inv(s)
    ensures var st := StartLogicStep(s, session, phone, id);
      st.emitted == (if Live(s) then CancelStep(s).emitted else [])
      && Resets(st.emitted) == (if s.connected then 1 else 0)
  {
    StartLogicKeepsInv(s, session, phone, id);
    if Live(s) && s.connected {
      assert CancelStep(s).emitted == [Reset];
    }
  }

  /** From any reachable state a disconnect leaves nothing held and no
      live task, and emits exactly one reset status update when it was
      connected, none otherwise. */
  lemma DisconnectLogicClears(s: State, remoteEndsFirst: bool)
    requires Inv(s)
    ensures var st := DisconnectLogicStep(s, remoteEndsFirst).0;
      && !st.state.connected && st.state.client.None? && st.state.currentSession.None?
      && st.state.userInfo == NoUser && !Live(st.state)
      && Resets(st.emitted) == (if s.connected then 1 else 0)
      && Inv(st.state)
  {
    var st := DisconnectLogicStep(s, remoteEndsFirst).0;
    if Live(s) && !(remoteEndsFirst && s.task.value.phase.Online? && s.client.Some?) {
      var c := CancelStep(s);
      assert c.state.currentSession.None?;
      assert st == c;
    }
  }

  /** With no live task, a disconnect resets and emits once if `connected`
      is set and otherwise changes nothing; it answers `True` either way,
      and a second call changes nothing. */
  lemma DisconnectWithoutTaskIdempotent(s: State, remoteEndsFirst: bool)
    requires !Live(s)
    ensures var (st, res) := DisconnectLogicStep(s, remoteEndsFirst);
      && res == LogicTrue
      && (s.connected ==> st == Step(Cleared(s), [Reset]))
      && (!s.connected ==> st == Step(s, []))
      && DisconnectLogicStep(st.state, remoteEndsFirst) == (Step(st.state, []), LogicTrue)
  {
  }

  /** `connect_api` refuses a new session without a phone and then starts
      nothing; otherwise it creates a fresh task for the session. */
  lemma ConnectApiOutcomes(s: State, session: string, phone: Option<string>, id: nat)
    ensures var (st, reply) := ConnectApiStep(s, session, phone, id);
      && (reply.Raised? <==> session !in s.files && !TruthyStr(phone))
      && (reply.Raised? ==> st == Step(s, []) && reply == Raised(400, PhoneRequired))
      && (!reply.Raised? ==>
            reply == Accepted(ConnectStarted) && st.state.task == Some(Run(id, session, phone, Created)))
  {
  }

  /** `disconnect_api` answers "Não conectado" and changes nothing when not
      connected. */
  lemma DisconnectApiNotConnected(s: State, remoteEndsFirst: bool)
    requires !s.connected
    ensures DisconnectApiStep(s, remoteEndsFirst) == (Step(s, []), Refused(NotConnected))
  {
  }

  /** From any reachable connected state, a disconnect that lets the run
      finish first raises: the run's `finally` has already reset the
      globals, `telegram_client_task` included, so `disconnect_api` answers
      a plain 500. When the cancellation arrives first it answers success. */
  lemma RemoteFirstDisconnectRaises(s: State)
    requires Inv(s) && s.connected
    ensures DisconnectLogicStep(s, true) == (ResetStep(WithPhase(s, Done)), CancelOnNone)
    ensures DisconnectApiStep(s, true).1 == Raised(500, InternalError)
    ensures DisconnectApiStep(s, false).1 == Accepted(DisconnectStarted)
  {
  }

  /** Removing a session: the file goes and the new listing is announced
      exactly when it existed and the disconnect before it did not raise; a
      missing one is reported and nothing but the disconnect happens. */
  lemma RemoveSessionOutcomes(s: State, name: string, remoteEndsFirst: bool)
    requires Inv(s)
    ensures var (st, reply) := RemoveSessionStep(s, name, remoteEndsFirst);
      var crashes := s.currentSession == Some(name) && s.connected && remoteEndsFirst;
      && (reply.Accepted? <==> name in s.files && !crashes)
      && (reply.Raised? <==> crashes)
      && (!crashes ==> name !in st.state.files)
      && (crashes ==> st.state.files == s.files && SessionsUpdated(s.files - {name}) !in st.emitted
                      && reply == Raised(500, InternalError))
      && (reply.Accepted? ==> st.emitted[|st.emitted| - 1] == SessionsUpdated(s.files - {name}))
      && (reply.Refused? ==> st.state.files == s.files && reply == Refused(SessionNotFound))
      && (s.currentSession == Some(name) ==> !st.state.connected && st.state.currentSession.None?)
  {
    if s.currentSession == Some(name) && s.connected {
      DisconnectLogicClears(s, remoteEndsFirst);
      if remoteEndsFirst {
        RemoteFirstDisconnectRaises(s);
      }
    }
  }

  /** The module globals, updated in place by the task's steps and the
      routes. */
  class TaskServer {
    var connected: bool
    var client: Option<nat>
    var userInfo: UserInfo
    var currentSession: Option<string>
    var task: Option<Run>
    var queue: seq<string>
    var files: set<string>
    /** Every Socket.IO event emitted so far. */
    ghost var events: seq<Event>

    function Snapshot(): State
      reads this
    {
      State(connected, client, userInfo, currentSession, task, queue, files)
    }

    constructor (sessionFiles: set<string>)
      ensures Snapshot() == InitialState(sessionFiles) && events == []
    {
      connected := false;
      client := None;
      userInfo := NoUser;
      currentSession := None;
      task := None;
      queue := [];
      files := sessionFiles;
      events := [];
    }

    method ForceReset()
      modifies this
      ensures Snapshot() == ResetStep(old(Snapshot())).state
      ensures events == old(events) + ResetStep(old(Snapshot())).emitted
    {
      connected := false;
      client := None;
      currentSession := None;
      userInfo := NoUser;
      task := None;
      events := events + [Reset];
    }

    /** The run's `finally`. */
    method RunFinally()
      requires task.Some?
      modifies this
      ensures Snapshot() == FinallyStep(old(Snapshot())).state
      ensures events == old(events) + FinallyStep(old(Snapshot())).emitted
    {
      var name := task.value.session;
      task := Some(task.value.(phase := Done));
      if currentSession == Some(name) {
        ForceReset();
      }
    }

    /** A handler of the run reports `error`, then the `finally` runs. */
    method Fail(error: string)
      requires task.Some?
      modifies this
      ensures Snapshot() == FailStep(old(Snapshot()), error).state
      ensures events == old(events) + FailStep(old(Snapshot()), error).emitted
    {
      events := events + [Failed(error, task.value.session)];
      RunFinally();
    }

    /** Drain the auth queue, then check for the session file. */
    method Begin()
      requires task.Some? && task.value.phase.Created?
      modifies this
      ensures Snapshot() == BeginStep(old(Snapshot())).state
      ensures events == old(events) + BeginStep(old(Snapshot())).emitted
    {
      while queue != []
        invariant Snapshot() == old(Snapshot()).(queue := queue)
        invariant events == old(events)
        decreases |queue|
      {
        queue := queue[1..];
      }
      var r := task.value;
      var sessionExists := r.session in files;
      if sessionExists {
        task := Some(r.(phase := Validating));
      } else {
        task := Some(r.(phase := Starting(r.phone)));
      }
    }

    /** `client.connect()` has answered for an existing session file. */
    method Validated(o: ConnectOutcome)
      requires task.Some? && task.value.phase.Validating?
      modifies this
      ensures Snapshot() == ValidatedStep(old(Snapshot()), o).state
      ensures events == old(events) + ValidatedStep(old(Snapshot()), o).emitted
    {
      var r := task.value;
      match o {
        case ConnectOk =>
          task := Some(r.(phase := Starting(None)));
        case ConnectFalse =>
          files := files - {r.session};
          Fail(ValidationPrefix + InvalidSession);
        case ConnectRaised(t) =>
          files := files - {r.session};
          Fail(ValidationPrefix + t);
      }
    }

    /** `ask_telegram_code` / `ask_telegram_password` emit their question. */
    method Ask(p: Prompt)
      requires task.Some? && task.value.phase.Starting?
      modifies this
      ensures Snapshot() == PromptStep(old(Snapshot()), p).state
      ensures events == old(events) + PromptStep(old(Snapshot()), p).emitted
    {
      events := events + [Lifecycle.Ask(p)];
      task := Some(task.value.(phase := Waiting(p, task.value.phase.phone)));
    }

    /** The callback takes the front answer, which goes to Telethon. */
    method TakeAnswer() returns (answer: string)
      requires task.Some? && task.value.phase.Waiting? && queue != []
      modifies this
      ensures answer == old(queue)[0]
      ensures Snapshot() == AnswerStep(old(Snapshot())).state
      ensures events == old(events) + AnswerStep(old(Snapshot())).emitted
    {
      answer := queue[0];
      queue := queue[1..];
      task := Some(task.value.(phase := Starting(task.value.phase.phone)));
    }

    /** The wait for an answer runs out. */
    method WaitTimesOut()
      requires task.Some? && task.value.phase.Waiting? && queue == []
      modifies this
      ensures Snapshot() == TimeoutStep(old(Snapshot())).state
      ensures events == old(events) + TimeoutStep(old(Snapshot())).emitted
    {
      if task.value.phase.prompt == CodePrompt {
        Fail(CodeTimeout);
      } else {
        Fail(PasswordTimeout);
      }
    }

    /** The login has returned or raised. */
    method LoginEnded(raised: Option<Failure>, authorized: bool, me: Me)
      requires task.Some? && task.value.phase.Starting?
      modifies this
      ensures Snapshot() == LoginStep(old(Snapshot()), raised, authorized, me).state
      ensures events == old(events) + LoginStep(old(Snapshot()), raised, authorized, me).emitted
    {
      var r := task.value;
      if raised.Some? {
        Fail(FailureText(raised.value));
      } else if authorized {
        client := Some(r.id);
        userInfo := UserInfo(me.firstName, Some(me.id));
        connected := true;
        currentSession := Some(r.session);
        events := events + [Connected(userInfo, r.session)];
        task := Some(r.(phase := Online));
      } else {
        files := files - {r.session};
        Fail(FinalAuthFailure);
      }
    }

    /** `run_until_disconnected()` has returned. */
    method ClientDisconnected()
      requires task.Some? && task.value.phase.Online?
      modifies this
      ensures Snapshot() == DisconnectedStep(old(Snapshot())).state
      ensures events == old(events) + DisconnectedStep(old(Snapshot())).emitted
    {
      RunFinally();
    }

    /** `task.cancel()` followed by awaiting the task. */
    method CancelAndAwait()
      requires Live(Snapshot())
      modifies this
      ensures Snapshot() == CancelStep(old(Snapshot())).state
      ensures events == old(events) + CancelStep(old(Snapshot())).emitted
    {
      if task.value.phase.Created? {
        task := Some(task.value.(phase := Done));
      } else {
        RunFinally();
      }
    }

    method StartLogic(session: string, phone: Option<string>, id: nat) returns (ok: bool)
      modifies this
      ensures ok
      ensures Snapshot() == StartLogicStep(old(Snapshot()), session, phone, id).state
      ensures events == old(events) + StartLogicStep(old(Snapshot()), session, phone, id).emitted
    {
      if task.Some? && !task.value.phase.Done? {
        CancelAndAwait();
        if connected {
          connected := false;
          task := None;
          events := events + [Reset];
        }
      }
      task := Some(Run(id, session, phone, Created));
      ok := true;
    }

    method DisconnectLogic(remoteEndsFirst: bool) returns (res: LogicResult)
      modifies this
      ensures res == DisconnectLogicStep(old(Snapshot()), remoteEndsFirst).1
      ensures Snapshot() == DisconnectLogicStep(old(Snapshot()), remoteEndsFirst).0.state
      ensures events == old(events) + DisconnectLogicStep(old(Snapshot()), remoteEndsFirst).0.emitted
    {
      if task.Some? && !task.value.phase.Done? {
        if remoteEndsFirst && task.value.phase.Online? && client.Some? {
          RunFinally();
          if task.None? {
            return CancelOnNone;
          }
          return LogicTrue;
        }
        CancelAndAwait();
        if TruthyStr(currentSession) {
          ForceReset();
        }
        return LogicTrue;
      } else {
        if connected {
          ForceReset();
        }
        return LogicTrue;
      }
    }

    method DisconnectApi(remoteEndsFirst: bool) returns (reply: Reply)
      modifies this
      ensures reply == DisconnectApiStep(old(Snapshot()), remoteEndsFirst).1
      ensures Snapshot() == DisconnectApiStep(old(Snapshot()), remoteEndsFirst).0.state
      ensures events == old(events) + DisconnectApiStep(old(Snapshot()), remoteEndsFirst).0.emitted
    {
      if !connected {
        return Refused(NotConnected);
      }
      var res := DisconnectLogic(remoteEndsFirst);
      if res.LogicTrue? {
        reply := Accepted(DisconnectStarted);
      } else {
        reply := Raised(500, InternalError);
      }
    }

    method ConnectApi(session: string, phone: Option<string>, id: nat) returns (reply: Reply)
      modifies this
      ensures reply == ConnectApiStep(old(Snapshot()), session, phone, id).1
      ensures Snapshot() == ConnectApiStep(old(Snapshot()), session, phone, id).0.state
      ensures events == old(events) + ConnectApiStep(old(Snapshot()), session, phone, id).0.emitted
    {
      var isNewSession := session !in files;
      if isNewSession && !TruthyStr(phone) {
        return Raised(400, PhoneRequired);
      }
      var ok := StartLogic(session, phone, id);
      reply := Accepted(ConnectStarted);
    }

    method RemoveSessionApi(name: string, remoteEndsFirst: bool) returns (reply: Reply)
      modifies this
      ensures reply == RemoveSessionStep(old(Snapshot()), name, remoteEndsFirst).1
      ensures Snapshot() == RemoveSessionStep(old(Snapshot()), name, remoteEndsFirst).0.state
      ensures events == old(events) + RemoveSessionStep(old(Snapshot()), name, remoteEndsFirst).0.emitted
    {
      if Some(name) == currentSession && connected {
        var res := DisconnectLogic(remoteEndsFirst);
        if res.CancelOnNone? {
          return Raised(500, InternalError);
        }
      }
      if name in files {
        files := files - {name};
        events := events + [SessionsUpdated(files)];
        reply := Accepted("Sessão " + name + " removida.");
      } else {
        reply := Refused(SessionNotFound);
      }
    }

    /** `code_response` and `password_response`. */
    method Response(v: Option<string>)
      modifies this
      ensures Snapshot() == ResponseStep(old(Snapshot()), v).state
      ensures events == old(events) + ResponseStep(old(Snapshot()), v).emitted
    {
      if TruthyStr(v) {
        queue := queue + [v.value];
      }
    }
  }
}
