/** The login page: it checks that both fields are filled in, posts the
    credentials to the authentication service, stores the returned token and
    e-mail in local storage and sends the user to the dashboard of their role.

    The exchange with the service is an input: `LoginReply` says how the request
    ended. */
module Login {
  import opened Browser

  const MissingFields := "Please enter both email and password."
  const LoginFailed := "Login failed. Check your credentials."
  const UnknownRole := "Login successful, but role is unrecognized. Contact support."
  const ServerUnreachable := "Server not reachable. Please check your network or try again later."

  const StudentHome := "/student/dashboard"
  const TeacherHome := "/teacher/dashboard"

  const TokenKey := "access_token"
  const EmailKey := "user_email"

  /** The parsed JSON body of a reply; a field the body lacks is `None`. */
  datatype LoginData = LoginData(
    detail: Option<string>,
    accessToken: Option<string>,
    email: Option<string>,
    role: Option<string>)

  /** How a login request ends: with a reply (its `ok` status and parsed body),
      or without one (the fetch was rejected or the body was not JSON). */
  datatype LoginReply = Replied(ok: bool, data: LoginData) | NoReply

  /** The reply was ok: the credentials were accepted. */
  predicate Accepted(reply: LoginReply) {
    reply.Replied? && reply.ok
  }

  /** What local storage holds after `setItem(key, v)`: the value converted to a
      string, so an absent field is stored as the text "undefined". */
  function StoredText(v: Option<string>): (t: string)
    ensures v.Some? ==> t == v.value
    ensures v.None? ==> t == "undefined"
  {
    match v
    case Some(s) => s
    case None => "undefined"
  }

  /** The dashboard route for a role returned by the service, if it has one:
      students go to theirs, teachers and admins share the teacher dashboard,
      and no other role (nor a missing one) has a route. */
  function RouteFor(role: Option<string>): (r: Option<string>)
    ensures r == Some(StudentHome) <==> role == Some("student")
    ensures r == Some(TeacherHome) <==> role == Some("teacher") || role == Some("admin")
    ensures r.None? <==> role !in {Some("student"), Some("teacher"), Some("admin")}
  {
    if role == Some("student") then Some(StudentHome)
    else if role == Some("teacher") || role == Some("admin") then Some(TeacherHome)
    else None
  }

  /** The error shown for a non-ok reply: the server's detail when it is a
      non-empty string, else the generic text. It is never blank. */
  function FailureMessage(detail: Option<string>): (m: string)
    ensures m != ""
    ensures Truthy(detail) ==> m == detail.value
    ensures !Truthy(detail) ==> m == LoginFailed
  {
    if Truthy(detail) then detail.value else LoginFailed
  }

  /** Both fields are filled in, so a request is made. */
  predicate Submits(email: string, password: string) {
    email != "" && password != ""
  }

  /** The side effects that follow the request, in order. */
  function ReplyEffects(reply: LoginReply): seq<Effect> {
    match reply
    case NoReply => [SetError(ServerUnreachable)]
    case Replied(ok, data) =>
      if !ok then [SetError(FailureMessage(data.detail))]
      else
        [StoreItem(TokenKey, StoredText(data.accessToken)), StoreItem(EmailKey, StoredText(data.email))]
        + match RouteFor(data.role)
          case Some(path) => [Navigate(path)]
          case None => [SetError(UnknownRole)]
  }

  /** The side effects of one `handleLogin` call, in order. */
  function LoginEffects(email: string, password: string, reply: LoginReply): seq<Effect> {
    SubmitEffects(Submits(email, password), MissingFields, LoginRequest(email, password), ReplyEffects(reply))
  }

  /** What the reply adds to the request, storage and route logs. */
  lemma {:induction false} ReplyLogs(reply: LoginReply)
    ensures Requests(ReplyEffects(reply)) == []
    ensures Writes(ReplyEffects(reply))
         == if Accepted(reply)
            then [(TokenKey, StoredText(reply.data.accessToken)), (EmailKey, StoredText(reply.data.email))]
            else []
    ensures Navigations(ReplyEffects(reply))
         == if Accepted(reply) && RouteFor(reply.data.role).Some? then [RouteFor(reply.data.role).value] else []
  {
    match reply
    case NoReply =>
      SingleProjections(SetError(ServerUnreachable));
    case Replied(ok, data) =>
      if !ok {
        SingleProjections(SetError(FailureMessage(data.detail)));
      } else {
        AcceptedLogs(data);
      }
  }

  /** The logs of an ok reply's effects: the two writes, and the route when the
      role is recognised. */
  lemma AcceptedLogs(data: LoginData)
    ensures Requests(ReplyEffects(Replied(true, data))) == []
    ensures Writes(ReplyEffects(Replied(true, data)))
         == [(TokenKey, StoredText(data.accessToken)), (EmailKey, StoredText(data.email))]
    ensures Navigations(ReplyEffects(Replied(true, data)))
         == if RouteFor(data.role).Some? then [RouteFor(data.role).value] else []
  {
    var s1 := StoreItem(TokenKey, StoredText(data.accessToken));
    var s2 := StoreItem(EmailKey, StoredText(data.email));
    var last := match RouteFor(data.role)
      case Some(path) => Navigate(path)
      case None => SetError(UnknownRole);
    var es := ReplyEffects(Replied(true, data));
    assert es == [s1, s2, last];
    assert Requests(es) == [] by {
      assert es[..2] == [s1, s2] && [s1, s2][..1] == [s1] && [s1][..0] == [];
      assert Requests([s1, s2]) == Requests([s1]) + Requests([s2]) by { SingleProjections(s2); }
      SingleProjections(s1);
      SingleProjections(last);
    }
    assert Writes(es) == [(TokenKey, StoredText(data.accessToken)), (EmailKey, StoredText(data.email))] by {
      assert es[..2] == [s1, s2] && [s1, s2][..1] == [s1] && [s1][..0] == [];
      assert Writes([s1, s2]) == Writes([s1]) + Writes([s2]) by { SingleProjections(s2); }
      SingleProjections(s1);
      SingleProjections(last);
    }
    assert Navigations(es) == if RouteFor(data.role).Some? then [RouteFor(data.role).value] else [] by {
      assert es[..2] == [s1, s2] && [s1, s2][..1] == [s1] && [s1][..0] == [];
      assert Navigations([s1, s2]) == Navigations([s1]) + Navigations([s2]) by { SingleProjections(s2); }
      SingleProjections(s1);
      SingleProjections(last);
    }
  }

  /** One request, carrying the typed credentials, is sent exactly when both
      fields are filled in; none otherwise. */
  lemma LoginRequestLog(email: string, password: string, reply: LoginReply)
    ensures Requests(LoginEffects(email, password, reply))
         == if Submits(email, password) then [LoginRequest(email, password)] else []
  {
    SubmitLogs(Submits(email, password), MissingFields, LoginRequest(email, password), ReplyEffects(reply));
    ReplyLogs(reply);
    assert [LoginRequest(email, password)] + [] == [LoginRequest(email, password)];
  }

  /** Local storage is written only on an ok reply to a submitted attempt, and
      then with the token and the e-mail, in that order, whatever the role. */
  lemma LoginStorageLog(email: string, password: string, reply: LoginReply)
    ensures Writes(LoginEffects(email, password, reply))
         == if Submits(email, password) && Accepted(reply)
            then [(TokenKey, StoredText(reply.data.accessToken)), (EmailKey, StoredText(reply.data.email))]
            else []
  {
    SubmitLogs(Submits(email, password), MissingFields, LoginRequest(email, password), ReplyEffects(reply));
    ReplyLogs(reply);
  }

  /** An attempt navigates at most once: to the dashboard of the returned role,
      on an ok reply whose role is recognised, and nowhere otherwise. */
  lemma LoginRouteLog(email: string, password: string, reply: LoginReply)
    ensures Navigations(LoginEffects(email, password, reply))
         == if Submits(email, password) && Accepted(reply) && RouteFor(reply.data.role).Some?
            then [RouteFor(reply.data.role).value]
            else []
  {
    SubmitLogs(Submits(email, password), MissingFields, LoginRequest(email, password), ReplyEffects(reply));
    ReplyLogs(reply);
  }

  /** Storage writes come before any navigation in an attempt's trace. */
  lemma LoginOrdering(email: string, password: string, reply: LoginReply)
    ensures var es := LoginEffects(email, password, reply);
      forall i, j | 0 <= i < |es| && 0 <= j < |es| && es[i].StoreItem? && es[j].Navigate? :: i < j
  {
    var es := LoginEffects(email, password, reply);
    if Submits(email, password) {
      var head := [SetError(""), SetLoading(true), Send(LoginRequest(email, password))];
      if Accepted(reply) {
        var stores := [StoreItem(TokenKey, StoredText(reply.data.accessToken)),
                       StoreItem(EmailKey, StoredText(reply.data.email))];
        var last := match RouteFor(reply.data.role)
          case Some(path) => Navigate(path)
          case None => SetError(UnknownRole);
        assert es == head + stores + [last, SetLoading(false)];
      } else {
        assert es == head + ReplyEffects(reply) + [SetLoading(false)];
        assert forall i | 0 <= i < |es| :: !es[i].StoreItem?;
      }
    } else {
      assert es == [SetError(""), SetError(MissingFields)];
    }
  }

  /** The loading flag is turned on right after the error is cleared and off as
      the very last step exactly when the attempt sends a request, and nowhere
      else; a rejected form never touches it. */
  lemma LoginLoading(email: string, password: string, reply: LoginReply)
    ensures var es := LoginEffects(email, password, reply);
      && (Submits(email, password) <==> SetLoading(true) in es)
      && (!Submits(email, password) ==> LeavesLoading(es))
    ensures var es := LoginEffects(email, password, reply);
      Submits(email, password) ==>
        && es[1] == SetLoading(true) && es[|es| - 1] == SetLoading(false)
        && forall i | 0 <= i < |es| && es[i].SetLoading? :: i == 1 || i == |es| - 1
  {
    var out := ReplyEffects(reply);
    if Accepted(reply) {
      assert out[0].StoreItem? && out[1].StoreItem? && !out[2].SetLoading?;
    }
    assert LeavesLoading(out);
    SubmitLoading(Submits(email, password), MissingFields, LoginRequest(email, password), out);
  }

  /** The error line a finished attempt leaves on the page. */
  function FinalError(email: string, password: string, reply: LoginReply): (m: string)
    ensures !Submits(email, password) ==> m == MissingFields
    ensures Submits(email, password) && reply.NoReply? ==> m == ServerUnreachable
    ensures Submits(email, password) && reply.Replied? && !reply.ok ==> m == FailureMessage(reply.data.detail)
    ensures Submits(email, password) && Accepted(reply) ==>
              m == if RouteFor(reply.data.role).None? then UnknownRole else ""
  {
    if !Submits(email, password) then MissingFields
    else match reply
      case NoReply => ServerUnreachable
      case Replied(ok, data) =>
        if !ok then FailureMessage(data.detail)
        else if RouteFor(data.role).None? then UnknownRole
        else ""
  }

  /** The page after the reply's effects. */
  lemma ReplyOutcome(p: Page, reply: LoginReply)
    ensures Replay(p, ReplyEffects(reply))
         == match reply
            case NoReply => p.(error := ServerUnreachable)
            case Replied(ok, data) =>
              if !ok then p.(error := FailureMessage(data.detail))
              else
                var stored := p.storage[TokenKey := StoredText(data.accessToken)][EmailKey := StoredText(data.email)];
                match RouteFor(data.role)
                case Some(path) => p.(storage := stored, location := path)
                case None => p.(storage := stored, error := UnknownRole)
  {
    match reply
    case NoReply =>
      ReplaySnoc(p, [], SetError(ServerUnreachable));
    case Replied(ok, data) =>
      if !ok {
        ReplaySnoc(p, [], SetError(FailureMessage(data.detail)));
      } else {
        AcceptedOutcome(p, data);
      }
  }

  /** The page after an ok reply's effects: both keys stored, then the role's
      route or the unrecognised-role error. */
  lemma AcceptedOutcome(p: Page, data: LoginData)
    ensures Replay(p, ReplyEffects(Replied(true, data)))
         == (var stored := p.storage[TokenKey := StoredText(data.accessToken)][EmailKey := StoredText(data.email)];
             match RouteFor(data.role)
             case Some(path) => p.(storage := stored, location := path)
             case None => p.(storage := stored, error := UnknownRole))
  {
    var s1 := StoreItem(TokenKey, StoredText(data.accessToken));
    var s2 := StoreItem(EmailKey, StoredText(data.email));
    var last := match RouteFor(data.role)
      case Some(path) => Navigate(path)
      case None => SetError(UnknownRole);
    assert ReplyEffects(Replied(true, data)) == ([] + [s1] + [s2]) + [last];
    var p2 := p.(storage := p.storage[TokenKey := StoredText(data.accessToken)][EmailKey := StoredText(data.email)]);
    assert Replay(p, [] + [s1] + [s2]) == p2 by {
      ReplaySnoc(p, [], s1);
      ReplaySnoc(p, [] + [s1], s2);
    }
    ReplaySnoc(p, [] + [s1] + [s2], last);
  }

  /** The page after one `handleLogin` call, path by path: the error line, the
      loading flag (untouched when validation fails, false otherwise), local
      storage (the two keys written only on an ok reply), the route (changed only
      for a recognised role) and the request log. */
  lemma LoginOutcome(p: Page, email: string, password: string, reply: LoginReply)
    ensures var q := Replay(p, LoginEffects(email, password, reply));
      && q.error == FinalError(email, password, reply)
      && q.isLoading == (p.isLoading && !Submits(email, password))
      && q.storage == (if Submits(email, password) && Accepted(reply)
                       then p.storage[TokenKey := StoredText(reply.data.accessToken)]
                                     [EmailKey := StoredText(reply.data.email)]
                       else p.storage)
      && q.location == (if Submits(email, password) && Accepted(reply) && RouteFor(reply.data.role).Some?
                        then RouteFor(reply.data.role).value
                        else p.location)
      && q.sent == p.sent + (if Submits(email, password) then [LoginRequest(email, password)] else [])
  {
    var request := LoginRequest(email, password);
    SubmitOutcome(p, Submits(email, password), MissingFields, request, ReplyEffects(reply));
    if Submits(email, password) {
      ReplyOutcome(p.(error := "", isLoading := true, sent := p.sent + [request]), reply);
    }
  }

  /** The page after a rejected form, as `HandleLogin` reaches it. */
  lemma RejectedStep(p0: Page, email: string, password: string, reply: LoginReply)
    requires !Submits(email, password)
    ensures Replay(p0, LoginEffects(email, password, reply)) == p0.(error := MissingFields)
  {
    SubmitOutcome(p0, false, MissingFields, LoginRequest(email, password), ReplyEffects(reply));
  }

  /** The page after a sent request, as `HandleLogin` reaches it: the reply's
      effects act on the page as it is once the request is out, and loading
      ends off. */
  lemma SentStep(p0: Page, p1: Page, after: Page, email: string, password: string, reply: LoginReply)
    requires Submits(email, password)
    requires p1 == p0.(error := "", isLoading := true, sent := p0.sent + [LoginRequest(email, password)])
    requires after == Replay(p1, ReplyEffects(reply))
    ensures Replay(p0, LoginEffects(email, password, reply)) == after.(isLoading := false)
  {
    SubmitOutcome(p0, true, MissingFields, LoginRequest(email, password), ReplyEffects(reply));
  }

  /** The login form and the browser state it writes to. */
  class LoginPage {
    var email: string
    var password: string
    var error: string
    var isLoading: bool
    var storage: map<string, string>
    var location: string
    var sent: seq<Request>

    function View(): Page
      reads this
    {
      Page(error, isLoading, storage, location, sent)
    }

    /** A freshly mounted form: empty fields, no error, not loading. */
    constructor (storage: map<string, string>, location: string)
      ensures email == "" && password == "" && error == "" && !isLoading
      ensures this.storage == storage && this.location == location && sent == []
    {
      email, password, error, isLoading := "", "", "", false;
      this.storage, this.location, sent := storage, location, [];
    }

    /** The e-mail input's change handler. */
    method SetEmail(value: string)
      modifies this`email
      ensures email == value
    {
      email := value;
    }

    /** The password input's change handler. */
    method SetPassword(value: string)
      modifies this`password
      ensures password == value
    {
      password := value;
    }

    /** The part of `handleLogin`'s `try` block after the request: every step
        changes the page as the next effect of `ReplyEffects` does. */
    method HandleReply(reply: LoginReply)
      modifies this`error, this`storage, this`location
      ensures View() == Replay(old(View()), ReplyEffects(reply))
    {
      ghost var p0 := View();
      match reply {
        case NoReply =>
          error := ServerUnreachable;
        case Replied(ok, data) =>
          if !ok {
            error := FailureMessage(data.detail);
          } else {
            storage := storage[TokenKey := StoredText(data.accessToken)];
            storage := storage[EmailKey := StoredText(data.email)];
            if data.role == Some("student") {
              location := StudentHome;
            } else if data.role == Some("teacher") || data.role == Some("admin") {
              location := TeacherHome;
            } else {
              error := UnknownRole;
            }
          }
      }
      ReplyOutcome(p0, reply);
    }

    /** `handleLogin`: every step changes the page as the next effect of
        `LoginEffects` does, so the page ends as `LoginOutcome` describes. */
    method HandleLogin(reply: LoginReply)
      modifies this`error, this`isLoading, this`storage, this`location, this`sent
      ensures View() == Replay(old(View()), LoginEffects(email, password, reply))
    {
      ghost var p0 := View();
      error := "";
      if email == "" || password == "" {
        error := MissingFields;
        RejectedStep(p0, email, password, reply);
        return;
      }
      isLoading := true;
      sent := sent + [LoginRequest(email, password)];
      ghost var p1 := View();
      HandleReply(reply);
      SentStep(p0, p1, View(), email, password, reply);
      isLoading := false;
    }

    /** `handleKeyPress`: Enter in either field runs `handleLogin`; any other key
        changes nothing. */
    method HandleKeyPress(key: string, reply: LoginReply)
      modifies this`error, this`isLoading, this`storage, this`location, this`sent
      ensures key == "Enter" ==> View() == Replay(old(View()), LoginEffects(email, password, reply))
      ensures key != "Enter" ==> View() == old(View())
    {
      if key == "Enter" {
        HandleLogin(reply);
      }
    }
  }
}
