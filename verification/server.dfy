/** The routes as mounted: every note route and the get-user route run behind the
    authentication gate, register and login do not. A request carries what the
    environment supplies for it (the `auth-token` header, the body, the id the store
    will assign, bcrypt's salt). */
module Server {
  import opened Common
  import opened Externals
  import opened Gate
  import opened NoteService
  import opened AccountService

  datatype Request =
    | CreateUserReq(name: Option<string>, email: Option<string>, password: Option<string>, salt: string, newUserId: UserId)
    | LoginReq(email: Option<string>, password: Option<string>)
    | GetUserReq(authToken: Option<string>)
    | FetchAllNotesReq(authToken: Option<string>)
    | AddNoteReq(authToken: Option<string>, body: NoteBody, newNoteId: NoteId)
    | UpdateNoteReq(authToken: Option<string>, id: NoteId, body: NoteBody)
    | DeleteNoteReq(authToken: Option<string>, id: NoteId)

  datatype Response =
    | GateRejected(status: nat, message: string)    // { error: message }, from the gate
    | AccountResponse(auth: AuthReply)
    | NoteResponse(note: NoteReply)

  function Status(r: Response): nat {
    match r
    case GateRejected(status, _) => status
    case AccountResponse(a) => AccountService.ReplyStatus(a)
    case NoteResponse(n) => NoteService.ReplyStatus(n)
  }

  /** The two collections of the document store. */
  datatype State = State(users: map<UserId, User>, notes: map<NoteId, Note>)

  ghost predicate Valid(s: State) {
    UniqueEmails(s.users)
  }

  /** The `auth-token` header of a request that passes through the gate. */
  function GatedToken(req: Request): Option<Option<string>> {
    match req
    case CreateUserReq(_, _, _, _, _) => None
    case LoginReq(_, _) => None
    case GetUserReq(t) => Some(t)
    case FetchAllNotesReq(t) => Some(t)
    case AddNoteReq(t, _, _) => Some(t)
    case UpdateNoteReq(t, _, _) => Some(t)
    case DeleteNoteReq(t, _) => Some(t)
  }

  /** The caller id the gate attaches to the request, when it lets the request through. */
  function CallerOf(env: Env, req: Request): Option<UserId> {
    match GatedToken(req)
    case None => None
    case Some(t) =>
      match FetchUser(t, env.verify)
      case Reject(_, _) => None
      case Proceed(caller) => Some(caller)
  }

  /** The handler behind the gate, run once for the caller the gate resolved. */
  function Handler(env: Env, s: State, req: Request, caller: UserId): (Response, State)
    requires GatedToken(req).Some?
  {
    match req
    case GetUserReq(_) => (AccountResponse(GetUserResult(s.users, caller)), s)
    case FetchAllNotesReq(_) => (NoteResponse(NoteList(OwnedBy(s.notes, caller))), s)
    case AddNoteReq(_, body, newId) =>
      var o := AddNoteResult(s.notes, caller, body, newId); (NoteResponse(o.reply), s.(notes := o.notes))
    case UpdateNoteReq(_, id, body) =>
      var o := UpdateNoteResult(env, s.notes, caller, id, body); (NoteResponse(o.reply), s.(notes := o.notes))
    case DeleteNoteReq(_, id) =>
      var o := DeleteNoteResult(env, s.notes, caller, id); (NoteResponse(o.reply), s.(notes := o.notes))
  }

  /** One request served against the store. */
  function Step(env: Env, s: State, req: Request): (r: (Response, State))
    requires Valid(s)
    ensures Valid(r.1)
    ensures GatedToken(req).Some? && CallerOf(env, req).None? ==> r.1 == s && Status(r.0) == 401
    ensures GatedToken(req).Some? ==> r.1.users == s.users
    ensures GatedToken(req).None? ==> r.1.notes == s.notes
  {
    match req
    case CreateUserReq(name, email, password, salt, newId) =>
      var o := CreateUserResult(env, s.users, name, email, password, salt, newId);
      (AccountResponse(o.reply), s.(users := o.users))
    case LoginReq(email, password) =>
      (AccountResponse(LoginResult(env, s.users, email, password)), s)
    case _ =>
      match FetchUser(GatedToken(req).value, env.verify)
      case Reject(status, message) => (GateRejected(status, message), s)
      case Proceed(caller) => Handler(env, s, req, caller)
  }

  /** A request that is refused (status 400 or more, from the gate or from a
      route's checks) leaves both collections as they were. */
  lemma {:induction false} RefusedRequestChangesNothing(env: Env, s: State, req: Request)
    requires Valid(s)
    ensures Status(Step(env, s, req).0) >= 400 ==> Step(env, s, req).1 == s
  {
    match req
    case CreateUserReq(_, _, _, _, _) =>
    case LoginReq(_, _) =>
    case GetUserReq(_) =>
    case FetchAllNotesReq(_) =>
    case AddNoteReq(t, body, newId) =>
      if CallerOf(env, req).Some? {
        NoteService.FailedChecksChangeNothing(env, s.notes, CallerOf(env, req).value, body, newId, "");
      }
    case UpdateNoteReq(t, id, body) =>
      if CallerOf(env, req).Some? {
        NoteService.FailedChecksChangeNothing(env, s.notes, CallerOf(env, req).value, body, "", id);
      }
    case DeleteNoteReq(t, id) =>
      if CallerOf(env, req).Some? {
        NoteService.FailedChecksChangeNothing(env, s.notes, CallerOf(env, req).value, NoteBody(None, None, None), "", id);
      }
  }

  /** One step respects note ownership with respect to the caller the gate verified:
      only a request whose token verifies to a note's owner can change or remove
      that note, no note changes owner, and a new note belongs to the verified caller. */
  lemma {:induction false} StepRespectsOwnership(env: Env, s: State, req: Request)
    requires Valid(s)
    ensures var after := Step(env, s, req).1.notes;
      && (forall n :: n in s.notes && CallerOf(env, req) != Some(s.notes[n].owner) ==> n in after && after[n] == s.notes[n])
      && (forall n :: n in s.notes && n in after ==> after[n].owner == s.notes[n].owner)
      && (forall n :: n !in s.notes && n in after ==> CallerOf(env, req) == Some(after[n].owner))
  {
    match req
    case CreateUserReq(_, _, _, _, _) =>
    case LoginReq(_, _) =>
    case GetUserReq(_) =>
    case FetchAllNotesReq(_) =>
    case AddNoteReq(t, body, newId) =>
      if CallerOf(env, req).Some? {
        NoteService.MutationsRespectOwnership(env, s.notes, CallerOf(env, req).value, body, newId, "");
      }
    case UpdateNoteReq(t, id, body) =>
      if CallerOf(env, req).Some? {
        NoteService.MutationsRespectOwnership(env, s.notes, CallerOf(env, req).value, body, "", id);
      }
    case DeleteNoteReq(t, id) =>
      if CallerOf(env, req).Some? {
        NoteService.MutationsRespectOwnership(env, s.notes, CallerOf(env, req).value, NoteBody(None, None, None), "", id);
      }
  }

  /** A sequence of requests served one after the other. */
  function Run(env: Env, s: State, reqs: seq<Request>): (t: State)
    requires Valid(s)
    ensures Valid(t)
    decreases |reqs|
  {
    if reqs == [] then s else Run(env, Step(env, s, reqs[0]).1, reqs[1..])
  }

  /** Over any sequence of requests, a note survives unchanged as long as no request
      in it carries a token that verifies to the note's owner. */
  lemma {:induction false} OthersCannotTouchNote(env: Env, s: State, reqs: seq<Request>, n: NoteId)
    requires Valid(s) && n in s.notes
    requires forall i :: 0 <= i < |reqs| ==> CallerOf(env, reqs[i]) != Some(s.notes[n].owner)
    ensures n in Run(env, s, reqs).notes && Run(env, s, reqs).notes[n] == s.notes[n]
    decreases |reqs|
  {
    if reqs != [] {
      StepRespectsOwnership(env, s, reqs[0]);
      var s' := Step(env, s, reqs[0]).1;
      assert n in s'.notes && s'.notes[n] == s.notes[n];
      forall i | 0 <= i < |reqs[1..]|
        ensures CallerOf(env, reqs[1..][i]) != Some(s'.notes[n].owner)
      {
        assert reqs[1..][i] == reqs[i + 1];
      }
      OthersCannotTouchNote(env, s', reqs[1..], n);
    }
  }

  /** The note half of the session: with a token for Alice and an empty note table,
      the note is added with the default tag, retagged, and Bob cannot delete it. */
  lemma NoteSession(env: Env, s: State, token: string, alice: UserId, noteId: NoteId, bob: UserId, bobToken: string)
    requires Valid(s) && s.notes == map[] && token != "" && env.verify(token) == Some(alice)
    requires env.isValidId(noteId) && env.castId(noteId) == noteId
    requires bob != alice && bobToken != "" && env.verify(bobToken) == Some(bob)
    ensures var add := Step(env, s, AddNoteReq(Some(token), NoteBody(Some("Hi there"), Some("a short note"), None), noteId));
      var update := Step(env, add.1, UpdateNoteReq(Some(token), noteId, NoteBody(None, None, Some("Work"))));
      var delete := Step(env, update.1, DeleteNoteReq(Some(bobToken), noteId));
      && add.0 == NoteResponse(NoteSaved(noteId, Note("Hi there", "a short note", DefaultTag, alice)))
      && update.0 == NoteResponse(NoteSaved(noteId, Note("Hi there", "a short note", "Work", alice)))
      && delete.0 == NoteResponse(NoteError(403, DeleteForbiddenMsg)) && delete.1 == update.1
  {
    var note := Note("Hi there", "a short note", DefaultTag, alice);
    var add := Step(env, s, AddNoteReq(Some(token), NoteBody(Some("Hi there"), Some("a short note"), None), noteId));
    assert add.1.notes == map[noteId := note];
  }

  /** A session from an empty store: Alice registers and logs in, adds a note with
      the login token, retags it, and Bob's token is refused when deleting it. */
  lemma {:induction false} AliceAndBob(env: Env, salt: string, alice: UserId, noteId: NoteId, bob: UserId, bobToken: string)
    requires HashSound(env) && TokensSound(env)
    requires env.isEmail("a@x.com") && env.isValidId(noteId) && env.castId(noteId) == noteId
    requires bob != alice && bobToken != "" && env.verify(bobToken) == Some(bob)
    ensures var s0 := State(map[], map[]);
      var register := Step(env, s0, CreateUserReq(Some("Alice123"), Some("a@x.com"), Some("secret"), salt, alice));
      var login := Step(env, register.1, LoginReq(Some("a@x.com"), Some("secret")));
      var token := Some(login.0.auth.authToken);
      var add := Step(env, login.1, AddNoteReq(token, NoteBody(Some("Hi there"), Some("a short note"), None), noteId));
      var update := Step(env, add.1, UpdateNoteReq(token, noteId, NoteBody(None, None, Some("Work"))));
      var delete := Step(env, update.1, DeleteNoteReq(Some(bobToken), noteId));
      && Status(register.0) == 201 && Status(login.0) == 200
      && env.verify(register.0.auth.authToken) == env.verify(login.0.auth.authToken) == Some(alice)
      && add.0 == NoteResponse(NoteSaved(noteId, Note("Hi there", "a short note", DefaultTag, alice)))
      && update.0 == NoteResponse(NoteSaved(noteId, Note("Hi there", "a short note", "Work", alice)))
      && delete.0 == NoteResponse(NoteError(403, DeleteForbiddenMsg)) && delete.1 == update.1
  {
    var s0 := State(map[], map[]);
    var name, email, password := Some("Alice123"), Some("a@x.com"), Some("secret");
    assert CreateUserErrors(env, name, email, password) == [];
    var register := Step(env, s0, CreateUserReq(name, email, password, salt, alice));
    AccountService.RegisterThenLogin(env, s0.users, name, email, password, salt, alice);
    var login := Step(env, register.1, LoginReq(email, password));
    assert login.1.notes == map[];
    NoteSession(env, login.1, login.0.auth.authToken, alice, noteId, bob, bobToken);
  }

  /** The server: both collections, the capabilities, and the route dispatch. */
  class Api {
    const env: Env
    const userStore: UserStore
    const noteStore: NoteStore

    ghost predicate Valid()
      reads this, userStore, noteStore
    {
      userStore.Valid() && userStore.env == env && noteStore.env == env
    }

    ghost function Snapshot(): State
      reads userStore, noteStore
    {
      State(userStore.users, noteStore.notes)
    }

    constructor (env: Env)
      ensures Valid() && this.env == env && Snapshot() == State(map[], map[])
      ensures fresh(userStore) && fresh(noteStore)
    {
      this.env := env;
      userStore := new UserStore(env);
      noteStore := new NoteStore(env);
    }

    /** Serve one request: the gate first for protected routes, then the route handler. */
    method Handle(req: Request) returns (resp: Response)
      requires Valid()
      modifies userStore, noteStore
      ensures Valid()
      ensures (resp, Snapshot()) == Step(env, old(Snapshot()), req)
    {
      match req
      case CreateUserReq(name, email, password, salt, newId) =>
        var r := userStore.CreateUser(name, email, password, salt, newId);
        resp := AccountResponse(r);
      case LoginReq(email, password) =>
        var r := userStore.Login(email, password);
        resp := AccountResponse(r);
      case GetUserReq(t) =>
        var gate := FetchUser(t, env.verify);
        if gate.Reject? {
          return GateRejected(gate.status, gate.message);
        }
        var r := userStore.GetUser(gate.caller);
        resp := AccountResponse(r);
      case FetchAllNotesReq(t) =>
        var gate := FetchUser(t, env.verify);
        if gate.Reject? {
          return GateRejected(gate.status, gate.message);
        }
        var r := noteStore.FetchAllNotes(gate.caller);
        resp := NoteResponse(r);
      case AddNoteReq(t, body, newId) =>
        var gate := FetchUser(t, env.verify);
        if gate.Reject? {
          return GateRejected(gate.status, gate.message);
        }
        var r := noteStore.AddNote(gate.caller, body, newId);
        resp := NoteResponse(r);
      case UpdateNoteReq(t, id, body) =>
        var gate := FetchUser(t, env.verify);
        if gate.Reject? {
          return GateRejected(gate.status, gate.message);
        }
        var r := noteStore.UpdateNote(gate.caller, id, body);
        resp := NoteResponse(r);
      case DeleteNoteReq(t, id) =>
        var gate := FetchUser(t, env.verify);
        if gate.Reject? {
          return GateRejected(gate.status, gate.message);
        }
        var r := noteStore.DeleteNote(gate.caller, id);
        resp := NoteResponse(r);
    }
  }
}
