// The post editor of app/components/EditPost.js: a form over a fetched post
// whose save request is keyed on a submit counter.
module EditPost {
  import opened Js
  import Session

  const MsgTitleRequired := "You must provide a title!"
  const MsgBodyRequired := "You must provide body content!"
  const MsgPostUpdated := "Post updated!"

  datatype PostField = PostField(value: string, hasErros: bool, errorMessage: string)

  datatype State = State(title: PostField, body: PostField, isFetching: bool, isSaving: bool, id: string, sendCount: nat)

  /** The part of the fetched post the editor copies. */
  datatype FetchedPost = FetchedPost(title: string, body: string)

  datatype Action =
    | FetchCompleted(post: FetchedPost)
    | TitleChanged(value: string)
    | BodyChanged(value: string)
    | RequestSubmitted
    | SaveRequestStarted
    | SaveRequestFinished
    | TitleRuleViolated(value: string)
    | BodyRuleViolated(value: string)

  /** The editor starts fetching, not saving, with both fields empty and
      free of errors; `id` is the route parameter. */
  function InitialState(id: string): (s: State)
    ensures s.isFetching && !s.isSaving && s.sendCount == 0 && s.id == id
    ensures s.title == s.body == PostField("", false, "")
  {
    State(PostField("", false, ""), PostField("", false, ""), true, false, id, 0)
  }

  /** A save may be requested only while neither field shows an error. */
  predicate CanSend(s: State) {
    !s.title.hasErros && !s.body.hasErros
  }

  /** The Save Updates button is `disabled` while a save is in flight, which
      also blocks submitting the form with the Enter key. */
  predicate SubmitEnabled(s: State) {
    !s.isSaving
  }

  /** A rule check flags the field when the value is blank and otherwise
      leaves the field alone: it never clears an error. */
  function RuleChecked(f: PostField, v: string, msg: string): PostField {
    if IsBlank(v) then f.(hasErros := true, errorMessage := msg) else f
  }

  function Next(s: State, a: Action): State {
    match a
    case FetchCompleted(p) =>
      s.(title := s.title.(value := p.title), body := s.body.(value := p.body), isFetching := false)
    case TitleChanged(v) => s.(title := s.title.(value := v, hasErros := false))
    case BodyChanged(v) => s.(body := s.body.(value := v, hasErros := false))
    case RequestSubmitted => s.(sendCount := if CanSend(s) then s.sendCount + 1 else s.sendCount)
    case SaveRequestStarted => s.(isSaving := true)
    case SaveRequestFinished => s.(isSaving := false)
    case TitleRuleViolated(v) => s.(title := RuleChecked(s.title, v, MsgTitleRequired))
    case BodyRuleViolated(v) => s.(body := RuleChecked(s.body, v, MsgBodyRequired))
  }

  /** The editor's reducer, written as the draft mutations it performs. The
      blank test is `!value.trim()`. */
  method Reduce(draft: State, action: Action) returns (next: State)
    ensures next == Next(draft, action)
  {
    next := draft;
    match action {
      case FetchCompleted(post) =>
        next := next.(title := next.title.(value := post.title));
        next := next.(body := next.body.(value := post.body));
        next := next.(isFetching := false);
      case TitleChanged(v) =>
        next := next.(title := next.title.(hasErros := false));
        next := next.(title := next.title.(value := v));
      case BodyChanged(v) =>
        next := next.(body := next.body.(hasErros := false));
        next := next.(body := next.body.(value := v));
      case RequestSubmitted =>
        if !next.title.hasErros && !next.body.hasErros {
          next := next.(sendCount := next.sendCount + 1);
        }
      case SaveRequestStarted =>
        next := next.(isSaving := true);
      case SaveRequestFinished =>
        next := next.(isSaving := false);
      case TitleRuleViolated(v) =>
        TrimEmptyIffBlank(v);
        if !Truthy(Trim(v)) {
          next := next.(title := next.title.(hasErros := true));
          next := next.(title := next.title.(errorMessage := MsgTitleRequired));
        }
      case BodyRuleViolated(v) =>
        TrimEmptyIffBlank(v);
        if !Truthy(Trim(v)) {
          next := next.(body := next.body.(hasErros := true));
          next := next.(body := next.body.(errorMessage := MsgBodyRequired));
        }
    }
  }

  /** `handleSubmit` as a transition: check the title, then the body, both
      with the values of the state the handler was called in, then submit. */
  function Submitted(s: State): State {
    Next(Next(Next(s, TitleRuleViolated(s.title.value)), BodyRuleViolated(s.body.value)), RequestSubmitted)
  }

  /** `handleSubmit`: three dispatches in order. A blank field gains its
      error; the counter moves exactly when neither field has an error
      afterwards; values and flags are kept. */
  method HandleSubmit(s: State) returns (t: State)
    ensures t == Submitted(s)
    ensures t.title.hasErros == (s.title.hasErros || IsBlank(s.title.value))
    ensures t.body.hasErros == (s.body.hasErros || IsBlank(s.body.value))
    ensures t.sendCount == if CanSend(t) then s.sendCount + 1 else s.sendCount
    ensures t.title.value == s.title.value && t.body.value == s.body.value
    ensures t.isFetching == s.isFetching && t.isSaving == s.isSaving && t.id == s.id
  {
    var titleValue, bodyValue := s.title.value, s.body.value;
    t := Reduce(s, TitleRuleViolated(titleValue));
    t := Reduce(t, BodyRuleViolated(bodyValue));
    t := Reduce(t, RequestSubmitted);
  }

  /** The state after dispatching `actions` in order. */
  function Run(s: State, actions: seq<Action>): State
    decreases |actions|
  {
    if actions == [] then s else Run(Next(s, actions[0]), actions[1..])
  }

  // ---------------------------------------------------------------------
  // Effects: the initial fetch and the save keyed on `sendCount`

  /** The outcome of a request, as the environment reports it. */
  datatype Outcome = Succeeded | Failed

  /** The save request: POST to /post/<id>/edit with the current values. */
  datatype SaveRequest = SaveRequest(path: string, title: string, body: string, token: Option<string>)

  /** The fetch resolves: a successful response completes the fetch; a
      failed one is only logged, so the editor keeps showing its
      placeholder. */
  method OnFetchResponse(s: State, outcome: Outcome, post: FetchedPost) returns (t: State)
    ensures outcome.Succeeded? ==> t == Next(s, FetchCompleted(post))
    ensures outcome.Failed? ==> t == s
  {
    t := s;
    if outcome.Succeeded? {
      t := Reduce(s, FetchCompleted(post));
    }
  }

  /** The save effect runs when `sendCount` changed to a non-zero value: it
      marks the editor saving and issues one save request. */
  method RunSaveEffect(before: State, after: State, app: Session.State) returns (t: State, request: Option<SaveRequest>)
    ensures request.Some? <==> after.sendCount != before.sendCount && after.sendCount != 0
    ensures request.Some? ==> t == after.(isSaving := true)
    ensures request.Some? ==> !SubmitEnabled(t)
    ensures request.Some? ==> request.value == SaveRequest("/post/" + after.id + "/edit", after.title.value, after.body.value, app.user.token)
    ensures request.None? ==> t == after
  {
    t, request := after, None;
    if after.sendCount != before.sendCount && after.sendCount != 0 {
      t := Reduce(after, SaveRequestStarted);
      request := Some(SaveRequest("/post/" + after.id + "/edit", after.title.value, after.body.value, app.user.token));
    }
  }

  /** The save resolves: success ends the save and dispatches the flash
      message "Post updated!" to the application state; a failure is only
      logged, so the editor stays saving and nothing is flashed. */
  method OnSaveResponse(s: State, outcome: Outcome, app: Session.State) returns (t: State, app': Session.State)
    ensures outcome.Succeeded? ==> t == s.(isSaving := false)
    ensures outcome.Succeeded? ==> app' == Session.Next(app, Session.FlashMessage(MsgPostUpdated))
    ensures outcome.Failed? ==> t == s && app' == app
  {
    t, app' := s, app;
    if outcome.Succeeded? {
      t := Reduce(s, SaveRequestFinished);
      app' := Session.Reduce(app, Session.FlashMessage(MsgPostUpdated));
    }
  }

  // ---------------------------------------------------------------------
  // Properties

  lemma FetchCompletedCopiesPost(s: State, p: FetchedPost)
    ensures var t := Next(s, FetchCompleted(p));
      && t.title.value == p.title && t.body.value == p.body && !t.isFetching
      && t.title.hasErros == s.title.hasErros && t.body.hasErros == s.body.hasErros
      && t.sendCount == s.sendCount && t.isSaving == s.isSaving && t.id == s.id
  {
  }

  lemma ChangeClearsOnlyItsField(s: State, v: string)
    ensures var t := Next(s, TitleChanged(v));
      t.title.value == v && !t.title.hasErros && t.body == s.body
      && t.title.errorMessage == s.title.errorMessage
      && t.sendCount == s.sendCount && t.isFetching == s.isFetching && t.isSaving == s.isSaving
    ensures var t := Next(s, BodyChanged(v));
      t.body.value == v && !t.body.hasErros && t.title == s.title
      && t.body.errorMessage == s.body.errorMessage
      && t.sendCount == s.sendCount && t.isFetching == s.isFetching && t.isSaving == s.isSaving
  {
  }

  /** The title rule flags exactly the blank values and never clears an
      error; the body rule is the same with its own message. */
  lemma RuleViolationFlagsBlank(s: State, v: string)
    ensures IsBlank(v) ==> Next(s, TitleRuleViolated(v)) == s.(title := s.title.(hasErros := true, errorMessage := MsgTitleRequired))
    ensures !IsBlank(v) ==> Next(s, TitleRuleViolated(v)) == s
    ensures IsBlank(v) ==> Next(s, BodyRuleViolated(v)) == s.(body := s.body.(hasErros := true, errorMessage := MsgBodyRequired))
    ensures !IsBlank(v) ==> Next(s, BodyRuleViolated(v)) == s
    ensures s.title.hasErros ==> Next(s, TitleRuleViolated(v)).title.hasErros
    ensures s.body.hasErros ==> Next(s, BodyRuleViolated(v)).body.hasErros
  {
  }

  lemma RequestSubmittedGate(s: State)
    ensures Next(s, RequestSubmitted).sendCount == s.sendCount + 1 <==> CanSend(s)
    ensures !CanSend(s) ==> Next(s, RequestSubmitted) == s
  {
  }

  lemma SaveFlagsOnly(s: State)
    ensures Next(s, SaveRequestStarted) == s.(isSaving := true)
    ensures Next(s, SaveRequestFinished) == s.(isSaving := false)
  {
  }

  /** Over any sequence of actions `sendCount` never decreases. */
  lemma {:induction false} SendCountNeverDecreases(s: State, actions: seq<Action>)
    ensures s.sendCount <= Run(s, actions).sendCount <= s.sendCount + |actions|
    decreases |actions|
  {
    if actions != [] {
      SendCountNeverDecreases(Next(s, actions[0]), actions[1..]);
    }
  }

  /** Once a save has started, only `saveRequestFinished`, dispatched when
      the save succeeds, enables the button again: over any sequence of
      other actions, a failed save included, it stays disabled. */
  lemma {:induction false} SaveBlocksSubmitUntilFinished(s: State, actions: seq<Action>)
    requires !SubmitEnabled(s)
    requires SaveRequestFinished !in actions
    ensures !SubmitEnabled(Run(s, actions))
    decreases |actions|
  {
    if actions != [] {
      assert actions[0] in actions;
      SaveBlocksSubmitUntilFinished(Next(s, actions[0]), actions[1..]);
    }
  }

  /** Submitting with a title that is empty or only whitespace flags the
      title and does not move the counter. */
  lemma BlankTitleBlocksSubmit(s: State)
    requires IsBlank(s.title.value)
    ensures Submitted(s).title.hasErros && Submitted(s).title.errorMessage == MsgTitleRequired
    ensures Submitted(s).sendCount == s.sendCount
  {
  }

  /** The form is consistent when a field shows an error only while its
      value is blank. */
  predicate Consistent(s: State) {
    (s.title.hasErros ==> IsBlank(s.title.value)) && (s.body.hasErros ==> IsBlank(s.body.value))
  }

  /** Consistency holds from the start and is kept by every action the page
      dispatches: a rule check carries the field's own value (blur and
      submit both pass it), and the fetch completes before any error is shown. */
  lemma ConsistentPreserved(s: State, a: Action)
    requires Consistent(s)
    requires a.TitleRuleViolated? ==> a.value == s.title.value
    requires a.BodyRuleViolated? ==> a.value == s.body.value
    requires a.FetchCompleted? ==> CanSend(s)
    ensures Consistent(Next(s, a))
    ensures Consistent(InitialState(s.id))
  {
  }

  /** In a consistent form a submit saves exactly when both fields hold
      something other than whitespace. */
  lemma SubmitSendsIffFilled(s: State)
    requires Consistent(s)
    ensures Submitted(s).sendCount == s.sendCount + 1 <==> !IsBlank(s.title.value) && !IsBlank(s.body.value)
    ensures Submitted(s).sendCount != s.sendCount + 1 ==> Submitted(s).sendCount == s.sendCount
  {
  }
}
