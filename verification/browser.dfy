/** The browser-side state that the pages of the front end read and write, and the
    side effects of their event handlers written out as data.

    An event handler of a page is modelled twice: as a method of the page's class
    that changes the page's fields step by step, and as a pure function that lists
    the handler's side effects in order. `Replay` connects the two: the page state
    after the method is the old state with the listed effects applied one after
    the other. */
module Browser {

  /** A JavaScript value that may be `undefined`. */
  datatype Option<T> = None | Some(value: T)

  /** JavaScript truthiness of a string that may be undefined. */
  predicate Truthy(s: Option<string>) {
    s.Some? && s.value != ""
  }

  /** The JSON body of a request to the authentication service. */
  datatype Request =
    | LoginRequest(email: string, password: string)
    | RegisterRequest(username: string, email: string, password: string, role: string)

  /** One observable side effect of an event handler. */
  datatype Effect =
    | SetError(message: string)              // the page's `setError`
    | SetLoading(on: bool)                   // the page's `setIsLoading`
    | Send(request: Request)                 // one `fetch` POST with a JSON body
    | StoreItem(key: string, value: string)  // `localStorage.setItem`
    | Navigate(path: string)                 // react-router's `navigate`

  /** What a form page shows (its error line and loading flag) together with what
      the browser holds: local storage, the current route, and every request the
      page has sent so far. */
  datatype Page = Page(
    error: string,
    isLoading: bool,
    storage: map<string, string>,
    location: string,
    sent: seq<Request>)

  /** The effect of one side effect on the page. */
  function Step(p: Page, e: Effect): Page {
    match e
    case SetError(m) => p.(error := m)
    case SetLoading(b) => p.(isLoading := b)
    case Send(req) => p.(sent := p.sent + [req])
    case StoreItem(k, v) => p.(storage := p.storage[k := v])
    case Navigate(path) => p.(location := path)
  }

  /** The requests among `es`, in order. */
  function Requests(es: seq<Effect>): seq<Request>
    decreases |es|
  {
    if es == [] then []
    else
      var last := es[|es| - 1];
      Requests(es[..|es| - 1]) + (if last.Send? then [last.request] else [])
  }

  /** The routes navigated to in `es`, in order. */
  function Navigations(es: seq<Effect>): seq<string>
    decreases |es|
  {
    if es == [] then []
    else
      var last := es[|es| - 1];
      Navigations(es[..|es| - 1]) + (if last.Navigate? then [last.path] else [])
  }

  /** The local-storage writes (key, value) in `es`, in order. */
  function Writes(es: seq<Effect>): seq<(string, string)>
    decreases |es|
  {
    if es == [] then []
    else
      var last := es[|es| - 1];
      Writes(es[..|es| - 1]) + (if last.StoreItem? then [(last.key, last.value)] else [])
  }

  /** `p` after the effects `es`, applied first to last. */
  function Replay(p: Page, es: seq<Effect>): Page
    decreases |es|
  {
    if es == [] then p else Step(Replay(p, es[..|es| - 1]), es[|es| - 1])
  }

  /** Replaying a trace grows the request log by exactly the trace's requests,
      and leaves the route at the last one navigated to. */
  lemma {:induction false} ReplayLogs(p: Page, es: seq<Effect>)
    ensures Replay(p, es).sent == p.sent + Requests(es)
    ensures Navigations(es) == [] ==> Replay(p, es).location == p.location
    ensures Navigations(es) != [] ==> Replay(p, es).location == Navigations(es)[|Navigations(es)| - 1]
    decreases |es|
  {
    if es != [] {
      ReplayLogs(p, es[..|es| - 1]);
    }
  }

  lemma ReplaySnoc(p: Page, es: seq<Effect>, e: Effect)
    ensures Replay(p, es + [e]) == Step(Replay(p, es), e)
  {
    assert (es + [e])[..|es|] == es;
  }

  /** Replaying two traces one after the other is replaying their concatenation. */
  lemma {:induction false} ReplayAppend(p: Page, a: seq<Effect>, b: seq<Effect>)
    ensures Replay(p, a + b) == Replay(Replay(p, a), b)
    decreases |b|
  {
    if b == [] {
      assert a + b == a;
    } else {
      var b' := b[..|b| - 1];
      var e := b[|b| - 1];
      assert a + b == (a + b') + [e];
      assert b == b' + [e];
      ReplaySnoc(p, a + b', e);
      ReplayAppend(p, a, b');
      ReplaySnoc(Replay(p, a), b', e);
    }
  }

  /** The projections of a one-effect trace. */
  lemma SingleProjections(e: Effect)
    ensures Requests([e]) == if e.Send? then [e.request] else []
    ensures Navigations([e]) == if e.Navigate? then [e.path] else []
    ensures Writes([e]) == if e.StoreItem? then [(e.key, e.value)] else []
  {
    assert [e][..0] == [];
  }

  /** The projections of a trace made of four consecutive parts. */
  lemma ProjectionsAppend4(a: seq<Effect>, b: seq<Effect>, c: seq<Effect>, d: seq<Effect>)
    ensures Requests(a + b + c + d) == Requests(a) + Requests(b) + Requests(c) + Requests(d)
    ensures Navigations(a + b + c + d) == Navigations(a) + Navigations(b) + Navigations(c) + Navigations(d)
    ensures Writes(a + b + c + d) == Writes(a) + Writes(b) + Writes(c) + Writes(d)
  {
    ProjectionsAppend(a, b);
    ProjectionsAppend(a + b, c);
    ProjectionsAppend(a + b + c, d);
  }

  /** Requests, navigations and storage writes of a concatenation are those of
      its parts, in order. */
  lemma {:induction false} ProjectionsAppend(a: seq<Effect>, b: seq<Effect>)
    ensures Requests(a + b) == Requests(a) + Requests(b)
    ensures Navigations(a + b) == Navigations(a) + Navigations(b)
    ensures Writes(a + b) == Writes(a) + Writes(b)
    decreases |b|
  {
    if b == [] {
      assert a + b == a;
    } else {
      var b' := b[..|b| - 1];
      var e := b[|b| - 1];
      assert a + b == (a + b') + [e];
      assert (a + b)[..|a + b| - 1] == a + b';
      ProjectionsAppend(a, b');
    }
  }

  /** The shape both form handlers share: clear the error; if validation failed,
      show its message and stop; otherwise turn the loading flag on, send the
      request, perform what the reply calls for, and turn the flag off again. */
  function SubmitEffects(valid: bool, invalid: string, request: Request, outcome: seq<Effect>): (es: seq<Effect>)
    ensures |es| >= 2 && es[0] == SetError("")
    ensures valid ==> es[1] == SetLoading(true) && es[|es| - 1] == SetLoading(false)
  {
    [SetError("")]
    + if !valid then [SetError(invalid)]
      else [SetLoading(true), Send(request)] + outcome + [SetLoading(false)]
  }

  /** No effect in `es` touches the loading flag. */
  predicate LeavesLoading(es: seq<Effect>) {
    forall i | 0 <= i < |es| :: !es[i].SetLoading?
  }

  /** When the reply's effects leave the loading flag alone, a submission turns
      it on exactly when the form is valid, and then only right after the error
      is cleared, and off only as the very last step; a rejected form never
      touches it. */
  lemma SubmitLoading(valid: bool, invalid: string, request: Request, outcome: seq<Effect>)
    requires LeavesLoading(outcome)
    ensures var es := SubmitEffects(valid, invalid, request, outcome);
      (valid <==> SetLoading(true) in es) && (!valid ==> LeavesLoading(es))
    ensures var es := SubmitEffects(valid, invalid, request, outcome);
      valid ==> forall i | 0 <= i < |es| && es[i].SetLoading? :: i == 1 || i == |es| - 1
  {
    var es := SubmitEffects(valid, invalid, request, outcome);
    if valid {
      forall i | 3 <= i < |es| - 1
        ensures es[i] == outcome[i - 3]
      {
      }
    } else {
      assert es == [SetError(""), SetError(invalid)];
    }
  }

  /** The request, storage-write and route logs of a submission: nothing at all
      when validation fails; otherwise the one request followed by whatever the
      reply's effects add. */
  lemma {:induction false} SubmitLogs(valid: bool, invalid: string, request: Request, outcome: seq<Effect>)
    ensures Requests(SubmitEffects(valid, invalid, request, outcome))
         == if valid then [request] + Requests(outcome) else []
    ensures Writes(SubmitEffects(valid, invalid, request, outcome))
         == if valid then Writes(outcome) else []
    ensures Navigations(SubmitEffects(valid, invalid, request, outcome))
         == if valid then Navigations(outcome) else []
  {
    if valid {
      SubmitRequests(invalid, request, outcome);
      SubmitWrites(invalid, request, outcome);
      SubmitNavigations(invalid, request, outcome);
    } else {
      RejectedLogs(invalid, request, outcome);
    }
  }

  /** A rejected submission sends, stores and navigates nothing. */
  lemma RejectedLogs(invalid: string, request: Request, outcome: seq<Effect>)
    ensures Requests(SubmitEffects(false, invalid, request, outcome)) == []
    ensures Writes(SubmitEffects(false, invalid, request, outcome)) == []
    ensures Navigations(SubmitEffects(false, invalid, request, outcome)) == []
  {
    assert SubmitEffects(false, invalid, request, outcome) == [SetError("")] + [SetError(invalid)];
    SingleProjections(SetError(""));
    SingleProjections(SetError(invalid));
    ProjectionsAppend([SetError("")], [SetError(invalid)]);
  }

  lemma SubmitRequests(invalid: string, request: Request, outcome: seq<Effect>)
    ensures Requests(SubmitEffects(true, invalid, request, outcome)) == [request] + Requests(outcome)
  {
    var a, b, c, d := [SetError("")], [SetLoading(true)], [Send(request)], outcome + [SetLoading(false)];
    assert SubmitEffects(true, invalid, request, outcome) == a + b + c + d;
    SingleProjections(a[0]);
    SingleProjections(b[0]);
    SingleProjections(c[0]);
    assert Requests(d) == Requests(outcome) by {
      ProjectionsAppend(outcome, [SetLoading(false)]);
      SingleProjections(SetLoading(false));
    }
    ProjectionsAppend4(a, b, c, d);
    assert Requests(a + b + c + d) == [] + [] + [request] + Requests(outcome);
  }

  lemma SubmitWrites(invalid: string, request: Request, outcome: seq<Effect>)
    ensures Writes(SubmitEffects(true, invalid, request, outcome)) == Writes(outcome)
  {
    var a, b, c, d := [SetError("")], [SetLoading(true)], [Send(request)], outcome + [SetLoading(false)];
    assert SubmitEffects(true, invalid, request, outcome) == a + b + c + d;
    SingleProjections(a[0]);
    SingleProjections(b[0]);
    SingleProjections(c[0]);
    assert Writes(d) == Writes(outcome) by {
      ProjectionsAppend(outcome, [SetLoading(false)]);
      SingleProjections(SetLoading(false));
    }
    ProjectionsAppend4(a, b, c, d);
    assert Writes(a + b + c + d) == [] + [] + [] + Writes(outcome);
  }

  lemma SubmitNavigations(invalid: string, request: Request, outcome: seq<Effect>)
    ensures Navigations(SubmitEffects(true, invalid, request, outcome)) == Navigations(outcome)
  {
    var a, b, c, d := [SetError("")], [SetLoading(true)], [Send(request)], outcome + [SetLoading(false)];
    assert SubmitEffects(true, invalid, request, outcome) == a + b + c + d;
    SingleProjections(a[0]);
    SingleProjections(b[0]);
    SingleProjections(c[0]);
    assert Navigations(d) == Navigations(outcome) by {
      ProjectionsAppend(outcome, [SetLoading(false)]);
      SingleProjections(SetLoading(false));
    }
    ProjectionsAppend4(a, b, c, d);
    assert Navigations(a + b + c + d) == [] + [] + [] + Navigations(outcome);
  }

  /** The page after a submission: when validation fails, only the error line
      changes, to the validation message; otherwise the reply's effects act on
      the page as it is once the request is out (error cleared, loading on,
      request logged), and the loading flag ends off. */
  lemma {:induction false} SubmitOutcome(p: Page, valid: bool, invalid: string, request: Request, outcome: seq<Effect>)
    ensures !valid ==> Replay(p, SubmitEffects(valid, invalid, request, outcome)) == p.(error := invalid)
    ensures valid ==>
      Replay(p, SubmitEffects(valid, invalid, request, outcome))
      == Replay(p.(error := "", isLoading := true, sent := p.sent + [request]), outcome).(isLoading := false)
  {
    var es := SubmitEffects(valid, invalid, request, outcome);
    ReplaySnoc(p, [], SetError(""));
    assert [SetError("")] == [] + [SetError("")];
    if !valid {
      assert es == [SetError("")] + [SetError(invalid)];
      ReplaySnoc(p, [SetError("")], SetError(invalid));
    } else {
      var head := [SetError("")] + [SetLoading(true)] + [Send(request)];
      assert es == (head + outcome) + [SetLoading(false)];
      ReplaySnoc(p, [SetError("")], SetLoading(true));
      ReplaySnoc(p, [SetError("")] + [SetLoading(true)], Send(request));
      assert Replay(p, head) == p.(error := "", isLoading := true, sent := p.sent + [request]);
      ReplayAppend(p, head, outcome);
      ReplaySnoc(p, head + outcome, SetLoading(false));
    }
  }
}
