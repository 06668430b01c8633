/** The dashboard's session (public/script.js): the key it sends, the calls
    that can log it out, sign-in with a key, reloading the list after a
    change, and the drag state behind a drop. The server's replies are
    parameters; localStorage is the `storedKey` field. */
module DashboardSession {
  import opened Seqs
  import opened JsStrings
  import Bearer
  import opened DashboardViews

  // ---- Auth headers ----

  const ContentType: (string, string) := ("Content-Type", "application/json")

  /** authHeaders: always the JSON content type, and the bearer token only
      when a key is set. */
  function AuthHeaders(key: string): (h: seq<(string, string)>)
    ensures |h| >= 1 && h[0] == ContentType
  {
    if key != "" then [ContentType, ("Authorization", Bearer.Prefix + key)] else [ContentType]
  }

  /** The value of the first header with the given name. */
  function HeaderValue(h: seq<(string, string)>, name: string): (v: Option<string>)
    ensures v.Some? <==> exists i :: 0 <= i < |h| && h[i].0 == name
    ensures v.Some? ==> exists i :: 0 <= i < |h| && h[i] == (name, v.value)
  {
    if h == [] then None
    else if h[0].0 == name then Some(h[0].1)
    else
      var v := HeaderValue(h[1..], name);
      if v.Some? then
        ghost var i :| 0 <= i < |h[1..]| && h[1..][i] == (name, v.value);
        assert h[i + 1] == (name, v.value);
        v
      else v
  }

  /** The Authorization header is sent exactly when a key is set, and the
      server's token extraction recovers the key from it. */
  lemma AuthorizationCarriesKey(key: string)
    ensures HeaderValue(AuthHeaders(key), "Authorization").Some? <==> key != ""
    ensures key != "" ==> Bearer.Token(HeaderValue(AuthHeaders(key), "Authorization").value) == key
  {
    if key != "" {
      var h := AuthHeaders(key);
      assert h[0].0 != "Authorization";
      assert HeaderValue(h, "Authorization") == Some(Bearer.Prefix + key);
      Bearer.TokenMatches(Bearer.Prefix + key, key);
    } else {
      assert AuthHeaders(key)[0].0 != "Authorization";
    }
  }

  /** A request signed with a non-empty key passes the server's check exactly
      when the server has no secret or the key is the secret. */
  lemma SignedRequestAccepted(key: string, secret: string)
    requires key != ""
    ensures Bearer.Authorised(Some(secret), Bearer.Prefix + key) <==> secret == "" || key == secret
  {
    if secret != "" && Bearer.Prefix + key == secret {
      assert secret[..|Bearer.Prefix|] == Bearer.Prefix;
    }
    if Bearer.Prefix + key == Bearer.Prefix + secret {
      assert key == (Bearer.Prefix + key)[|Bearer.Prefix|..];
    }
  }

  // ---- Replies and their classification ----

  /** What a call to the API comes back with: a response whose JSON body has
      `tasks` (None when the body has none), or a network failure. */
  datatype Reply =
    | Response(status: int, body: Option<seq<ClientTask>>)
    | NetworkError

  /** How apiFetch ends: with the parsed body, by throwing 'Unauthorized'
      after a 401, or by throwing any other error. */
  datatype Fetched = Data(tasks: Option<seq<ClientTask>>) | Unauthorized | Failed

  function Classify(reply: Reply): (f: Fetched)
    ensures f.Unauthorized? <==> reply.Response? && reply.status == 401
    ensures f.Data? <==> reply.Response? && 200 <= reply.status <= 299
    ensures f.Data? ==> f.tasks == reply.body
  {
    if reply.NetworkError? then Failed
    else if reply.status == 401 then Unauthorized
    else if !(200 <= reply.status <= 299) then Failed
    else Data(reply.body)
  }

  // ---- The session state and its transitions ----

  datatype Screen = AuthScreen | DashboardScreen

  /** The module-level variables of the client and the parts of the page
      they drive: the loaded tasks, the key in use, the key in localStorage,
      which screen shows, whether the auth error shows, the key input box and
      the id of the card being dragged. */
  datatype Session = Session(
    tasks: seq<ClientTask>,
    apiKey: string,
    storedKey: Option<string>,
    screen: Screen,
    authErrorShown: bool,
    keyInput: string,
    dragTaskId: Option<string>)

  /** The key in use is the stored one whenever one is stored, and the
      dashboard shows only with a key. */
  predicate Coherent(s: Session) {
    && (s.storedKey.Some? ==> s.storedKey.value == s.apiKey)
    && (s.screen == DashboardScreen ==> s.apiKey != "")
  }

  /** Signed out: no key in use or stored, no tasks, the auth screen. */
  predicate SignedOut(s: Session) {
    s.apiKey == "" && s.storedKey.None? && s.tasks == [] && s.screen == AuthScreen
  }

  /** logout. */
  function LoggedOut(s: Session): (r: Session)
    ensures SignedOut(r) && Coherent(r)
    ensures r.keyInput == "" && !r.authErrorShown && r.dragTaskId == s.dragTaskId
  {
    s.(apiKey := "", storedKey := None, tasks := [], screen := AuthScreen, keyInput := "",
       authErrorShown := false)
  }

  /** apiFetch's effect on the session: a 401 logs out, anything else leaves
      the session as it was. */
  function Fetch(s: Session, reply: Reply): Session {
    if Classify(reply).Unauthorized? then LoggedOut(s) else s
  }

  /** loadTasks: the list becomes `data.tasks || []`; after any failure other
      than a 401 it becomes empty. */
  function Load(s: Session, reply: Reply): Session {
    match Classify(reply)
    case Data(body) => s.(tasks := body.GetOr([]))
    case Failed => s.(tasks := [])
    case Unauthorized => LoggedOut(s)
  }

  /** authenticate(key): on a successful probe the key is stored, the
      dashboard shown and the list loaded; on a failed one the key is dropped
      and the error shown. The flag tells whether it threw. */
  function Authenticated(s: Session, key: string, probe: Reply, load: Reply): (Session, bool) {
    var probed := Fetch(s.(apiKey := key), probe);
    if Classify(probe).Data? then
      (Load(probed.(storedKey := Some(key), screen := DashboardScreen), load), true)
    else
      (probed.(apiKey := "", storedKey := None, authErrorShown := true), false)
  }

  /** The auth button: the trimmed input, ignored when blank. */
  function Submit(s: Session, probe: Reply, load: Reply): Session {
    var key := Trim(s.keyInput);
    if key == "" then s else Authenticated(s, key, probe, load).0
  }

  /** createTask, updateTask and deleteTask: the call, then a reload when it
      succeeded. The flag tells whether the call succeeded. */
  function Change(s: Session, reply: Reply, load: Reply): (Session, bool) {
    if Classify(reply).Data? then (Load(s, load), true) else (Fetch(s, reply), false)
  }

  /** The drop handler: the update DropUpdate decides, sent as a change. */
  function Drop(s: Session, column: string, patch: Reply, load: Reply): (Session, Option<StatusUpdate>) {
    var u := DropUpdate(s.dragTaskId, s.tasks, column);
    if u.None? then (s, u) else (Change(s, patch, load).0, u)
  }

  /** Page load: the key from localStorage, then the auto-login. */
  function Start(stored: Option<string>, load: Reply): Session {
    var s := Session([], stored.GetOr(""), stored, AuthScreen, false, "", None);
    if s.apiKey != "" then Load(s.(screen := DashboardScreen), load) else s
  }

  // ---- What the transitions promise ----

  /** A 401 from any call signs the session out. */
  lemma UnauthorizedSignsOut(s: Session, reply: Reply, load: Reply)
    requires reply.Response? && reply.status == 401
    ensures SignedOut(Fetch(s, reply))
    ensures SignedOut(Load(s, reply))
    ensures SignedOut(Change(s, reply, load).0) && !Change(s, reply, load).1
  {
    assert Classify(reply) == Unauthorized;
  }

  /** Logging out twice is logging out once. */
  lemma LogoutIdempotent(s: Session)
    ensures LoggedOut(LoggedOut(s)) == LoggedOut(s)
  {
  }

  /** Reloading changes nothing but the list, unless it signs out. */
  lemma LoadChangesOnlyTasks(s: Session, reply: Reply)
    requires !(reply.Response? && reply.status == 401)
    ensures Load(s, reply) == s.(tasks := Load(s, reply).tasks)
    ensures reply.Response? && 200 <= reply.status <= 299 ==> Load(s, reply).tasks == reply.body.GetOr([])
    ensures !(reply.Response? && 200 <= reply.status <= 299) ==> Load(s, reply).tasks == []
  {
    assert !Classify(reply).Unauthorized?;
  }

  /** A failed sign-in drops the key everywhere and shows the error. */
  lemma FailedSignInClearsKey(s: Session, key: string, probe: Reply, load: Reply)
    requires !Authenticated(s, key, probe, load).1
    ensures var r := Authenticated(s, key, probe, load).0;
      r.apiKey == "" && r.storedKey.None? && r.authErrorShown
    ensures !(probe.Response? && 200 <= probe.status <= 299)
  {
  }

  /** A successful sign-in stores the key and shows the dashboard with the
      loaded list, unless loading the list is refused. */
  lemma SignInStoresKey(s: Session, key: string, probe: Reply, load: Reply)
    requires probe.Response? && 200 <= probe.status <= 299
    requires !(load.Response? && load.status == 401)
    ensures var (r, ok) := Authenticated(s, key, probe, load);
      && ok && r.apiKey == key && r.storedKey == Some(key) && r.screen == DashboardScreen
      && (load.Response? && 200 <= load.status <= 299 ==> r.tasks == load.body.GetOr([]))
  {
    assert Classify(probe).Data? && !Classify(load).Unauthorized?;
  }

  /** A blank key input changes nothing. */
  lemma BlankKeyIgnored(s: Session, probe: Reply, load: Reply)
    requires forall i :: 0 <= i < |s.keyInput| ==> IsSpace(s.keyInput[i])
    ensures Submit(s, probe, load) == s
  {
  }

  /** apiFetch, loadTasks, a change and a drop keep the session coherent. */
  lemma TransitionsKeepCoherent(s: Session, column: string, first: Reply, second: Reply)
    requires Coherent(s)
    ensures Coherent(Fetch(s, first)) && Coherent(Load(s, first))
    ensures Coherent(Change(s, first, second).0)
    ensures Coherent(Drop(s, column, first, second).0)
  {
  }

  /** The auth button sits on the auth screen, so a submit from there keeps
      the session coherent. */
  lemma SubmitKeepsCoherent(s: Session, probe: Reply, load: Reply)
    requires Coherent(s) && s.screen == AuthScreen
    ensures Coherent(Submit(s, probe, load))
  {
    var key := Trim(s.keyInput);
    if key != "" {
      AuthenticateKeepsCoherent(s, key, probe, load);
    }
  }

  /** Signing in from the auth screen with a non-empty key keeps the session
      coherent. */
  lemma AuthenticateKeepsCoherent(s: Session, key: string, probe: Reply, load: Reply)
    requires Coherent(s) && s.screen == AuthScreen && key != ""
    ensures Coherent(Authenticated(s, key, probe, load).0)
  {
    var probed := Fetch(s.(apiKey := key), probe);
    if Classify(probe).Data? {
      assert probed.apiKey == key;
      assert Coherent(probed.(storedKey := Some(key), screen := DashboardScreen));
    }
  }

  /** The page starts coherent, on the dashboard exactly when a non-empty key
      was stored and loading the list was not refused. */
  lemma StartCoherent(stored: Option<string>, load: Reply)
    ensures Coherent(Start(stored, load))
    ensures Start(stored, load).screen == DashboardScreen <==>
      stored.Some? && stored.value != "" && !(load.Response? && load.status == 401)
  {
  }

  // ---- The client object ----

  /** The client's module-level state and the handlers that change it. */
  class Dashboard {
    var tasks: seq<ClientTask>
    var apiKey: string
    var storedKey: Option<string>
    var screen: Screen
    var authErrorShown: bool
    var keyInput: string
    var dragTaskId: Option<string>

    function State(): Session
      reads this
    {
      Session(tasks, apiKey, storedKey, screen, authErrorShown, keyInput, dragTaskId)
    }

    ghost predicate Valid()
      reads this
    {
      Coherent(State())
    }

    /** The script's top level: the key from localStorage (the auth screen
        shows until init runs). */
    constructor(stored: Option<string>)
      ensures State() == Session([], stored.GetOr(""), stored, AuthScreen, false, "", None)
      ensures Valid()
    {
      tasks := [];
      apiKey := stored.GetOr("");
      storedKey := stored;
      screen := AuthScreen;
      authErrorShown := false;
      keyInput := "";
      dragTaskId := None;
    }

    /** init's auto-login. */
    method Init(load: Reply)
      requires State() == Session([], storedKey.GetOr(""), storedKey, AuthScreen, false, "", None)
      modifies this
      ensures State() == Start(old(storedKey), load)
      ensures Valid()
    {
      if apiKey != "" {
        screen := DashboardScreen;
        LoadTasks(load);
      }
      StartCoherent(old(storedKey), load);
    }

    method Logout()
      modifies this
      ensures State() == LoggedOut(old(State()))
    {
      apiKey := "";
      storedKey := None;
      tasks := [];
      screen := AuthScreen;
      keyInput := "";
      authErrorShown := false;
    }

    /** apiFetch: the headers it sends, and how it ends. */
    method ApiFetch(reply: Reply) returns (sent: seq<(string, string)>, r: Fetched)
      modifies this
      ensures sent == AuthHeaders(old(apiKey))
      ensures r == Classify(reply)
      ensures State() == Fetch(old(State()), reply)
    {
      sent := AuthHeaders(apiKey);
      if reply.NetworkError? {
        r := Failed;
      } else if reply.status == 401 {
        Logout();
        r := Unauthorized;
      } else if !(200 <= reply.status <= 299) {
        r := Failed;
      } else {
        r := Data(reply.body);
      }
    }

    method LoadTasks(reply: Reply)
      modifies this
      ensures State() == Load(old(State()), reply)
    {
      var _, r := ApiFetch(reply);
      match r
      case Data(body) =>
        tasks := body.GetOr([]);
      case Failed =>
        tasks := [];
      case Unauthorized =>
    }

    method Authenticate(key: string, probe: Reply, load: Reply) returns (ok: bool)
      modifies this
      ensures (State(), ok) == Authenticated(old(State()), key, probe, load)
    {
      apiKey := key;
      var _, r := ApiFetch(probe);
      if r.Data? {
        storedKey := Some(key);
        screen := DashboardScreen;
        LoadTasks(load);
        ok := true;
      } else {
        apiKey := "";
        storedKey := None;
        authErrorShown := true;
        ok := false;
      }
    }

    /** The auth button's click handler, which runs while the auth screen shows. */
    method SubmitKey(probe: Reply, load: Reply)
      requires Valid() && screen == AuthScreen
      modifies this
      ensures State() == Submit(old(State()), probe, load)
      ensures Valid()
    {
      SubmitKeepsCoherent(State(), probe, load);
      var key := Trim(keyInput);
      if key == "" {
        return;
      }
      var _ := Authenticate(key, probe, load);
    }

    /** The key input's input handler. */
    method TypeKey(text: string)
      modifies this
      ensures State() == old(State()).(keyInput := text, authErrorShown := false)
    {
      keyInput := text;
      authErrorShown := false;
    }

    /** createTask, updateTask or deleteTask with the server's two replies. */
    method SendChange(reply: Reply, load: Reply) returns (ok: bool)
      requires Valid()
      modifies this
      ensures (State(), ok) == Change(old(State()), reply, load)
      ensures Valid()
    {
      TransitionsKeepCoherent(State(), "", reply, load);
      var _, r := ApiFetch(reply);
      if r.Data? {
        LoadTasks(load);
        ok := true;
      } else {
        ok := false;
      }
    }

    method DragStart(id: string)
      modifies this
      ensures State() == old(State()).(dragTaskId := Some(id))
    {
      dragTaskId := Some(id);
    }

    method DragEnd()
      modifies this
      ensures State() == old(State()).(dragTaskId := None)
    {
      dragTaskId := None;
    }

    /** A drop on the column for `column`. */
    method DropOn(column: string, patch: Reply, load: Reply) returns (u: Option<StatusUpdate>)
      requires Valid()
      modifies this
      ensures (State(), u) == Drop(old(State()), column, patch, load)
      ensures Valid()
    {
      TransitionsKeepCoherent(State(), column, patch, load);
      u := DropUpdate(dragTaskId, tasks, column);
      if u.Some? {
        var _ := SendChange(patch, load);
      }
    }
  }
}
