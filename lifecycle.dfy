/** Values both server variants use in their connection lifecycle: the
    `user_info` record, the account `get_me()` reports, the login prompts,
    and the Socket.IO events a run emits. */
module Lifecycle {
  import opened Python

  /** `user_info`: `{"first_name": …, "id": …}`. */
  datatype UserInfo = UserInfo(firstName: Option<string>, id: Option<int>)

  /** The value every reset stores: `{"first_name": None, "id": None}`. */
  const NoUser: UserInfo := UserInfo(None, None)

  /** The account `get_me()` returns; Telegram may leave the first name unset. */
  datatype Me = Me(firstName: Option<string>, id: int)

  /** `{"first_name": me.first_name, "id": me.id}` */
  function UserInfoOf(me: Me): (u: UserInfo)
    ensures u.firstName == me.firstName && u.id == Some(me.id)
    ensures u != NoUser
  {
    UserInfo(me.firstName, Some(me.id))
  }

  /** The two questions a login may ask through the auth queue. */
  datatype Prompt = CodePrompt | PasswordPrompt

  /** What `client.connect()` did for an existing session file. */
  datatype ConnectOutcome = ConnectOk | ConnectFalse | ConnectRaised(text: string)

  /** An exception that leaves the Telethon login: one of the kinds the
      authentication handler names (`TimeoutError`, `ConnectionError`,
      `ConnectionRefusedError`), or any other `Exception`. */
  datatype Failure = AuthFailure(text: string) | OtherFailure(text: string)

  /** The Socket.IO events of the lifecycle. */
  datatype Event =
      /** `status_update` `{"connected": True, "user_info": …, "session": …}` */
    | Connected(user: UserInfo, session: string)
      /** `status_update` `{"connected": False, "error": …, "session": …}` */
    | Failed(error: string, session: string)
      /** `status_update` `{"connected": False, "user_info": None, "session": None}` */
    | Reset
      /** `ask_code` or `ask_password` */
    | Ask(prompt: Prompt)
      /** `sessions_updated` with the remaining session names */
    | SessionsUpdated(sessions: set<string>)

  /** A route's answer: a JSON body reporting success, a JSON body
      reporting an error, or an `HTTPException` with its status and detail. */
  datatype Reply = Accepted(message: string) | Refused(message: string) | Raised(status: int, detail: string)

  /** The number of reset status updates in a run of events. */
  function Resets(es: seq<Event>): (n: nat)
    ensures n <= |es|
    ensures n == 0 <==> forall i :: 0 <= i < |es| ==> es[i] != Reset
  {
    if es == [] then 0 else (if es[0] == Reset then 1 else 0) + Resets(es[1..])
  }

  lemma {:induction false} ResetsAppend(a: seq<Event>, b: seq<Event>)
    ensures Resets(a + b) == Resets(a) + Resets(b)
    decreases |a|
  {
    if a == [] {
      assert a + b == b;
    } else {
      assert (a + b)[1..] == a[1..] + b;
      ResetsAppend(a[1..], b);
    }
  }
}
