/** The register page: it checks that all four fields are filled in, posts the
    new account (with the e-mail lower-cased and trimmed) to the authentication
    service, and on success sends the user to the login page.

    The exchange with the service is an input: `RegisterReply` says how the
    request ended. */
module Register {
  import opened Browser
  import JsText

  const AllFieldsRequired := "All fields are required."
  const RegistrationFailed := "Registration failed"
  const BackendUnreachable := "Backend server not reachable."
  const LoginRoute := "/login"

  /** The values the role select offers: the "Select role" placeholder and the
      two roles a new account may take. */
  const RoleOptions: seq<string> := ["", "student", "teacher"]

  /** The `detail` field of an error reply: absent (or null), a string, a list
      of entries (each given by its `msg` field, `None` when it has none), or any
      other JSON value. */
  datatype Detail = NoDetail | Text(text: string) | Entries(msgs: seq<Option<string>>) | Other

  /** How a register request ends: with a reply (its `ok` status and the detail
      of its body), or without one (the fetch was rejected or the body was not
      JSON). */
  datatype RegisterReply = Answered(ok: bool, detail: Detail) | NoAnswer

  /** The e-mail as sent: `email.toLowerCase().trim()`. It holds no capital
      letter and neither starts nor ends with white space. */
  function NormalizeEmail(email: string): (r: string)
    ensures |r| <= |email|
    ensures forall i | 0 <= i < |r| :: !JsText.IsUpper(r[i])
    ensures r != [] ==> !JsText.IsSpace(r[0]) && !JsText.IsSpace(r[|r| - 1])
  {
    var lower := JsText.ToLower(email);
    JsText.TrimNoUpper(lower);
    JsText.Trim(lower)
  }

  /** Normalising an address already normalised changes nothing. */
  lemma NormalizeEmailIdempotent(email: string)
    ensures NormalizeEmail(NormalizeEmail(email)) == NormalizeEmail(email)
  {
    var r := NormalizeEmail(email);
    JsText.ToLowerFacts(r);
    JsText.TrimIdempotent(JsText.ToLower(email));
  }

  /** An e-mail made only of white space passes the non-empty check (when it is
      not itself empty) but is sent as the empty string, and no other e-mail is. */
  lemma NormalizeEmailBlank(email: string)
    ensures NormalizeEmail(email) == [] <==> forall i | 0 <= i < |email| :: JsText.IsSpace(email[i])
  {
    JsText.TrimEmpty(JsText.ToLower(email));
    JsText.ToLowerFacts(email);
  }

  /** The error shown for a non-ok reply: a string detail as it is (even when
      empty); else the first entry's `msg` when it is a non-empty string; else
      the generic text. The message is blank only for an empty string detail. */
  function ErrorMessage(detail: Detail): (m: string)
    ensures detail.Text? ==> m == detail.text
    ensures detail.Entries? && |detail.msgs| > 0 && Truthy(detail.msgs[0]) ==> m == detail.msgs[0].value
    ensures !detail.Text? && !(detail.Entries? && |detail.msgs| > 0 && Truthy(detail.msgs[0]))
            ==> m == RegistrationFailed
    ensures m == "" <==> detail == Text("")
  {
    match detail
    case Text(s) => s
    case Entries(msgs) =>
      if |msgs| > 0 && Truthy(msgs[0]) then msgs[0].value else RegistrationFailed
    case _ => RegistrationFailed
  }

  /** All four fields are filled in, so a request is made. */
  predicate Complete(username: string, email: string, role: string, password: string) {
    username != "" && email != "" && role != "" && password != ""
  }

  /** The body of the request: the e-mail normalised, the rest as typed. */
  function Body(username: string, email: string, role: string, password: string): Request {
    RegisterRequest(username, NormalizeEmail(email), password, role)
  }

  /** The side effects that follow the request, in order. */
  function AnswerEffects(reply: RegisterReply): seq<Effect> {
    match reply
    case NoAnswer => [SetError(BackendUnreachable)]
    case Answered(ok, detail) =>
      if !ok then [SetError(ErrorMessage(detail))] else [Navigate(LoginRoute)]
  }

  /** The side effects of one `handleRegister` call, in order. */
  function RegisterEffects(username: string, email: string, role: string, password: string,
                           reply: RegisterReply): seq<Effect>
  {
    SubmitEffects(Complete(username, email, role, password), AllFieldsRequired,
                  Body(username, email, role, password), AnswerEffects(reply))
  }

  lemma AnswerLogs(reply: RegisterReply)
    ensures Requests(AnswerEffects(reply)) == []
    ensures Writes(AnswerEffects(reply)) == []
    ensures Navigations(AnswerEffects(reply)) == if reply.Answered? && reply.ok then [LoginRoute] else []
  {
    SingleProjections(AnswerEffects(reply)[0]);
    assert AnswerEffects(reply) == [AnswerEffects(reply)[0]];
  }

  /** The page after the reply's effects: the unreachable text, the reply's
      error message, or the login route. */
  lemma AnswerOutcome(p: Page, reply: RegisterReply)
    ensures Replay(p, AnswerEffects(reply))
         == match reply
            case NoAnswer => p.(error := BackendUnreachable)
            case Answered(ok, detail) =>
              if !ok then p.(error := ErrorMessage(detail)) else p.(location := LoginRoute)
  {
    match reply
    case NoAnswer =>
      ReplaySnoc(p, [], SetError(BackendUnreachable));
    case Answered(ok, detail) =>
      if !ok {
        ReplaySnoc(p, [], SetError(ErrorMessage(detail)));
      } else {
        ReplaySnoc(p, [], Navigate(LoginRoute));
      }
  }

  /** One request is sent exactly when all four fields are filled in: it carries
      the normalised e-mail and the username, password and role as typed. */
  lemma RegisterRequestLog(username: string, email: string, role: string, password: string, reply: RegisterReply)
    ensures Requests(RegisterEffects(username, email, role, password, reply))
         == if Complete(username, email, role, password)
            then [RegisterRequest(username, NormalizeEmail(email), password, role)]
            else []
  {
    SubmitLogs(Complete(username, email, role, password), AllFieldsRequired,
               Body(username, email, role, password), AnswerEffects(reply));
    AnswerLogs(reply);
    assert [Body(username, email, role, password)] + [] == [Body(username, email, role, password)];
  }

  /** With the role picked from the select, every request sent carries the role
      "student" or "teacher": the placeholder fails the non-empty check. */
  lemma RegisterRoleSent(username: string, email: string, role: string, password: string, reply: RegisterReply)
    requires role in RoleOptions
    ensures forall r | r in Requests(RegisterEffects(username, email, role, password, reply))
              :: r.RegisterRequest? && r.role in {"student", "teacher"}
  {
    RegisterRequestLog(username, email, role, password, reply);
  }

  /** With the role taken from the select, every request one attempt adds to
      the page's log names a real role. */
  lemma SentRoles(p0: Page, username: string, email: string, role: string, password: string, reply: RegisterReply)
    requires role in RoleOptions
    ensures var p := Replay(p0, RegisterEffects(username, email, role, password, reply));
      && |p0.sent| <= |p.sent|
      && forall i | |p0.sent| <= i < |p.sent| :: p.sent[i].RegisterRequest? && p.sent[i].role in {"student", "teacher"}
  {
    var es := RegisterEffects(username, email, role, password, reply);
    var p := Replay(p0, es);
    ReplayLogs(p0, es);
    RegisterRoleSent(username, email, role, password, reply);
    forall i | |p0.sent| <= i < |p.sent|
      ensures p.sent[i].RegisterRequest? && p.sent[i].role in {"student", "teacher"}
    {
      assert p.sent[i] == Requests(es)[i - |p0.sent|];
    }
  }

  /** Registration never writes local storage, and navigates at most once: to
      the login page, on an ok reply. */
  lemma RegisterRouteLog(username: string, email: string, role: string, password: string, reply: RegisterReply)
    ensures Writes(RegisterEffects(username, email, role, password, reply)) == []
    ensures Navigations(RegisterEffects(username, email, role, password, reply))
         == if Complete(username, email, role, password) && reply.Answered? && reply.ok
            then [LoginRoute]
            else []
  {
    SubmitLogs(Complete(username, email, role, password), AllFieldsRequired,
               Body(username, email, role, password), AnswerEffects(reply));
    AnswerLogs(reply);
  }

  /** The loading flag is turned on right after the error is cleared and off
      as the very last step, exactly when the attempt sends a request; an
      attempt that fails validation never touches it. */
  lemma RegisterLoading(username: string, email: string, role: string, password: string, reply: RegisterReply)
    ensures var es := RegisterEffects(username, email, role, password, reply);
      && (Complete(username, email, role, password) <==> SetLoading(true) in es)
      && (!Complete(username, email, role, password) ==> LeavesLoading(es))
    ensures var es := RegisterEffects(username, email, role, password, reply);
      Complete(username, email, role, password) ==>
        && es[1] == SetLoading(true) && es[|es| - 1] == SetLoading(false)
        && forall i | 0 <= i < |es| && es[i].SetLoading? :: i == 1 || i == |es| - 1
  {
    assert LeavesLoading(AnswerEffects(reply));
    SubmitLoading(Complete(username, email, role, password), AllFieldsRequired,
                  Body(username, email, role, password), AnswerEffects(reply));
  }

  /** The page after one `handleRegister` call, path by path. Validation failure
      only sets the error line. Otherwise the request is logged, loading ends
      off, and the reply decides: the unreachable text, the reply's error
      message, or (on success) a cleared error and the login route. Local
      storage is never touched. */
  lemma RegisterOutcome(p: Page, username: string, email: string, role: string, password: string,
                        reply: RegisterReply)
    ensures Replay(p, RegisterEffects(username, email, role, password, reply))
         == if !Complete(username, email, role, password) then p.(error := AllFieldsRequired)
            else
              var q := p.(isLoading := false, sent := p.sent + [RegisterRequest(username, NormalizeEmail(email), password, role)]);
              match reply
              case NoAnswer => q.(error := BackendUnreachable)
              case Answered(ok, detail) =>
                if !ok then q.(error := ErrorMessage(detail)) else q.(error := "", location := LoginRoute)
  {
    var request := Body(username, email, role, password);
    SubmitOutcome(p, Complete(username, email, role, password), AllFieldsRequired, request, AnswerEffects(reply));
    AnswerOutcome(p.(error := "", isLoading := true, sent := p.sent + [request]), reply);
  }

  /** The page after a rejected form, as `HandleRegister` reaches it. */
  lemma RejectedStep(p0: Page, username: string, email: string, role: string, password: string, reply: RegisterReply)
    requires !Complete(username, email, role, password)
    ensures Replay(p0, RegisterEffects(username, email, role, password, reply)) == p0.(error := AllFieldsRequired)
  {
    SubmitOutcome(p0, false, AllFieldsRequired, Body(username, email, role, password), AnswerEffects(reply));
  }

  /** The page after a sent request, as `HandleRegister` reaches it: the reply's
      effects act on the page as it is once the request is out, and loading
      ends off. */
  lemma SentStep(p0: Page, p1: Page, after: Page, username: string, email: string, role: string, password: string,
                 reply: RegisterReply)
    requires Complete(username, email, role, password)
    requires p1 == p0.(error := "", isLoading := true, sent := p0.sent + [Body(username, email, role, password)])
    requires after == Replay(p1, AnswerEffects(reply))
    ensures Replay(p0, RegisterEffects(username, email, role, password, reply)) == after.(isLoading := false)
  {
    SubmitOutcome(p0, true, AllFieldsRequired, Body(username, email, role, password), AnswerEffects(reply));
  }

  /** The register form and the browser state it writes to. */
  class RegisterPage {
    var username: string
    var email: string
    var role: string
    var password: string
    var error: string
    var isLoading: bool
    var storage: map<string, string>
    var location: string
    var sent: seq<Request>

    /** The role always holds one of the select's options. */
    ghost predicate Valid()
      reads this
    {
      role in RoleOptions
    }

    function View(): Page
      reads this
    {
      Page(error, isLoading, storage, location, sent)
    }

    /** A freshly mounted form: empty fields, the placeholder role, no error,
        not loading. */
    constructor (storage: map<string, string>, location: string)
      ensures Valid()
      ensures username == "" && email == "" && role == "" && password == ""
      ensures error == "" && !isLoading
      ensures this.storage == storage && this.location == location && sent == []
    {
      username, email, role, password := "", "", "", "";
      error, isLoading := "", false;
      this.storage, this.location, sent := storage, location, [];
    }

    /** The username input's change handler. */
    method SetUsername(value: string)
      modifies this`username
      ensures username == value
    {
      username := value;
    }

    /** The e-mail input's change handler. */
    method SetEmail(value: string)
      modifies this`email
      ensures email == value
    {
      email := value;
    }

    /** The role select's change handler: the value is one of its options. */
    method SelectRole(value: string)
      requires value in RoleOptions
      modifies this`role
      ensures role == value && Valid()
    {
      role := value;
    }

    /** The password input's change handler. */
    method SetPassword(value: string)
      modifies this`password
      ensures password == value
    {
      password := value;
    }

    /** What `handleRegister` does once the request has settled: show the
        unreachable text, show the reply's error message, or go to the login
        page. */
    method HandleAnswer(reply: RegisterReply)
      modifies this`error, this`location
      ensures View() == Replay(old(View()), AnswerEffects(reply))
    {
      ghost var p0 := View();
      match reply {
        case NoAnswer =>
          error := BackendUnreachable;
        case Answered(ok, detail) =>
          if !ok {
            error := ErrorMessage(detail);
          } else {
            location := LoginRoute;
          }
      }
      AnswerOutcome(p0, reply);
    }

    /** `handleRegister`: the page ends as replaying `RegisterEffects` on it
        leaves it, which `RegisterOutcome` spells out case by case. With the
        role chosen from the select, what it sends names a real role. */
    method HandleRegister(reply: RegisterReply)
      requires Valid()
      modifies this`error, this`isLoading, this`location, this`sent
      ensures View() == Replay(old(View()), RegisterEffects(username, email, role, password, reply))
      ensures forall i | old(|sent|) <= i < |sent| :: sent[i].RegisterRequest? && sent[i].role in {"student", "teacher"}
    {
      ghost var p0 := View();
      error := "";
      if username == "" || email == "" || role == "" || password == "" {
        error := AllFieldsRequired;
        RejectedStep(p0, username, email, role, password, reply);
        SentRoles(p0, username, email, role, password, reply);
        return;
      }
      isLoading := true;
      sent := sent + [Body(username, email, role, password)];
      ghost var p1 := View();
      HandleAnswer(reply);
      SentStep(p0, p1, View(), username, email, role, password, reply);
      isLoading := false;
      SentRoles(p0, username, email, role, password, reply);
    }
  }
}
