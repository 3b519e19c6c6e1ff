// The registration form of app/components/HomeGuest.js: three fields, each
// validated on every keystroke and again after a quiet period; username and
// email are then checked for uniqueness by the server.
module HomeGuest {
  import opened Js

  const UsernameMaxLength := 30
  const UsernameMinLength := 3
  const PasswordMaxLength := 50
  const PasswordMinLength := 12

  const MsgUsernameTooLong := "Username cannot exceed 30 characters."
  const MsgUsernameCharset := "Username can only contain letters and numbers."
  const MsgUsernameTooShort := "Username must be at least 3 characters."
  const MsgUsernameTaken := "That username has been already taken."
  const MsgEmailInvalid := "You must provide a valid email address."
  const MsgEmailTaken := "That email has been already taken."
  const MsgPasswordTooLong := "Password cannot exceed 50 characters!"
  const MsgPasswordTooShort := "Password must be at least 12 characters."

  /** A field checked for uniqueness by the server (username, email).
      `checkCount` is bumped each time the field passes its delayed check;
      the uniqueness request is keyed on it. */
  datatype CheckedField = CheckedField(value: string, hasErros: bool, message: string, isUnique: bool, checkCount: nat)

  datatype PasswordField = PasswordField(value: string, hasErros: bool, message: string)

  datatype State = State(username: CheckedField, email: CheckedField, password: PasswordField, submitCount: nat)

  datatype Action =
    | UsernameImmediately(value: string)
    | UsernameAfterDelay
    | UsernameUniqueResults(taken: bool)
    | EmailImmediately(value: string)
    | EmailAfterDelay
    | EmailUniqueResults(taken: bool)
    | PasswordImmediately(value: string)
    | PasswordAfterDelay
    | SubmitForm

  /** The form starts with every field empty and free of errors, no verdict
      from the server and both check counters at 0; at mount no delayed
      check is scheduled and no uniqueness request is issued. */
  function InitialState(): (s: State)
    ensures s.username.value == s.email.value == s.password.value == ""
    ensures !s.username.hasErros && !s.email.hasErros && !s.password.hasErros
    ensures !s.username.isUnique && !s.email.isUnique
    ensures s.username.checkCount == s.email.checkCount == s.submitCount == 0
    ensures MountChecks(s) == [] && MountRequests(s) == []
  {
    State(
      CheckedField("", false, "", false, 0),
      CheckedField("", false, "", false, 0),
      PasswordField("", false, ""),
      0)
  }

  // ---------------------------------------------------------------------
  // The rules, as the error (if any) each phase reports for a value

  /** The keystroke rule for usernames. Both checks may fail; the source tests
      the character set last, so its message is the one that stays. */
  function UsernameKeystrokeError(v: string): Option<string> {
    if Truthy(v) && !MatchesAlnumWord(v) then Some(MsgUsernameCharset)
    else if |v| > UsernameMaxLength then Some(MsgUsernameTooLong)
    else None
  }

  function UsernameDelayError(v: string): Option<string> {
    if |v| < UsernameMinLength then Some(MsgUsernameTooShort) else None
  }

  function EmailDelayError(v: string): Option<string> {
    if !MatchesEmail(v) then Some(MsgEmailInvalid) else None
  }

  function PasswordKeystrokeError(v: string): Option<string> {
    if |v| > PasswordMaxLength then Some(MsgPasswordTooLong) else None
  }

  function PasswordDelayError(v: string): Option<string> {
    if |v| < PasswordMinLength then Some(MsgPasswordTooShort) else None
  }

  // ---------------------------------------------------------------------
  // What each action means

  /** A keystroke: the new value replaces the old, the error flag reflects
      only the keystroke rule, and the message changes only when it fails. */
  function Typed(f: CheckedField, v: string, err: Option<string>): CheckedField {
    f.(value := v, hasErros := err.Some?, message := if err.Some? then err.value else f.message)
  }

  /** The delayed check: an error adds to any error already present, and a
      field still free of errors bumps its check counter. */
  function Settled(f: CheckedField, err: Option<string>): CheckedField {
    var failed := f.hasErros || err.Some?;
    f.(hasErros := failed,
       message := if err.Some? then err.value else f.message,
       checkCount := if failed then f.checkCount else f.checkCount + 1)
  }

  /** The server's answer to a uniqueness request. */
  function Answered(f: CheckedField, taken: bool, msgTaken: string): CheckedField {
    if taken then f.(hasErros := true, isUnique := false, message := msgTaken)
    else f.(isUnique := true)
  }

  function PasswordChecked(f: PasswordField, v: string, err: Option<string>): PasswordField {
    PasswordField(v, err.Some?, if err.Some? then err.value else f.message)
  }

  function PasswordSettled(f: PasswordField, err: Option<string>): PasswordField {
    if err.Some? then f.(hasErros := true, message := err.value) else f
  }

  function Next(s: State, a: Action): State {
    match a
    case UsernameImmediately(v) => s.(username := Typed(s.username, v, UsernameKeystrokeError(v)))
    case UsernameAfterDelay => s.(username := Settled(s.username, UsernameDelayError(s.username.value)))
    case UsernameUniqueResults(taken) => s.(username := Answered(s.username, taken, MsgUsernameTaken))
    case EmailImmediately(v) => s.(email := Typed(s.email, v, None))
    case EmailAfterDelay => s.(email := Settled(s.email, EmailDelayError(s.email.value)))
    case EmailUniqueResults(taken) => s.(email := Answered(s.email, taken, MsgEmailTaken))
    case PasswordImmediately(v) => s.(password := PasswordChecked(s.password, v, PasswordKeystrokeError(v)))
    case PasswordAfterDelay => s.(password := PasswordSettled(s.password, PasswordDelayError(s.password.value)))
    case SubmitForm => s
  }

  /** The form's reducer, written as the draft mutations it performs: later
      writes overwrite earlier ones. */
  method Reduce(draft: State, action: Action) returns (next: State)
    ensures next == Next(draft, action)
  {
    next := draft;
    match action {
      case UsernameImmediately(v) =>
        var u := next.username;
        u := u.(hasErros := false);
        u := u.(value := v);
        if |u.value| > 30 {
          u := u.(hasErros := true, message := MsgUsernameTooLong);
        }
        if Truthy(u.value) && !MatchesAlnumWord(u.value) {
          u := u.(hasErros := true, message := MsgUsernameCharset);
        }
        next := next.(username := u);
      case UsernameAfterDelay =>
        var u := next.username;
        if |u.value| < 3 {
          u := u.(hasErros := true, message := MsgUsernameTooShort);
        }
        if !u.hasErros {
          u := u.(checkCount := u.checkCount + 1);
        }
        next := next.(username := u);
      case UsernameUniqueResults(taken) =>
        var u := next.username;
        if taken {
          u := u.(hasErros := true);
          u := u.(isUnique := false);
          u := u.(message := MsgUsernameTaken);
        } else {
          u := u.(isUnique := true);
        }
        next := next.(username := u);
      case EmailImmediately(v) =>
        var e := next.email;
        e := e.(hasErros := false);
        e := e.(value := v);
        next := next.(email := e);
      case EmailAfterDelay =>
        var e := next.email;
        if !MatchesEmail(e.value) {
          e := e.(hasErros := true, message := MsgEmailInvalid);
        }
        if !e.hasErros {
          e := e.(checkCount := e.checkCount + 1);
        }
        next := next.(email := e);
      case EmailUniqueResults(taken) =>
        var e := next.email;
        if taken {
          e := e.(hasErros := true);
          e := e.(isUnique := false);
          e := e.(message := MsgEmailTaken);
        } else {
          e := e.(isUnique := true);
        }
        next := next.(email := e);
      case PasswordImmediately(v) =>
        var p := next.password;
        p := p.(hasErros := false);
        p := p.(value := v);
        if |p.value| > 50 {
          p := p.(hasErros := true, message := MsgPasswordTooLong);
        }
        next := next.(password := p);
      case PasswordAfterDelay =>
        var p := next.password;
        if |p.value| < 12 {
          p := p.(hasErros := true, message := MsgPasswordTooShort);
        }
        next := next.(password := p);
      case SubmitForm =>
    }
  }

  /** The state after dispatching `actions` in order. */
  function Run(s: State, actions: seq<Action>): State
    decreases |actions|
  {
    if actions == [] then s else Run(Next(s, actions[0]), actions[1..])
  }

  // ---------------------------------------------------------------------
  // Effects: the debounce timers and the uniqueness requests

  /** The server requests the form issues. */
  datatype Request = DoesUsernameExist(username: string) | DoesEmailExist(email: string)

  /** The three debounce effects are keyed on the field values: after a
      transition from `before` to `after`, a field whose value changed gets a
      delayed check scheduled, but only when the new value is non-empty. */
  function ScheduledChecks(before: State, after: State): (checks: seq<Action>)
    ensures UsernameAfterDelay in checks <==> after.username.value != before.username.value && after.username.value != ""
    ensures EmailAfterDelay in checks <==> after.email.value != before.email.value && after.email.value != ""
    ensures PasswordAfterDelay in checks <==> after.password.value != before.password.value && after.password.value != ""
    ensures forall i :: 0 <= i < |checks| ==> checks[i] in {UsernameAfterDelay, EmailAfterDelay, PasswordAfterDelay}
    ensures |checks| <= 3
  {
    (if after.username.value != before.username.value && Truthy(after.username.value) then [UsernameAfterDelay] else [])
    + (if after.email.value != before.email.value && Truthy(after.email.value) then [EmailAfterDelay] else [])
    + (if after.password.value != before.password.value && Truthy(after.password.value) then [PasswordAfterDelay] else [])
  }

  /** The two uniqueness effects are keyed on the check counters: a counter
      that changed to a non-zero value issues one request carrying the
      field's current value. */
  function UniquenessRequests(before: State, after: State): (requests: seq<Request>)
    ensures DoesUsernameExist(after.username.value) in requests
      <==> after.username.checkCount != before.username.checkCount && after.username.checkCount != 0
    ensures DoesEmailExist(after.email.value) in requests
      <==> after.email.checkCount != before.email.checkCount && after.email.checkCount != 0
    ensures forall r :: r in requests && r.DoesUsernameExist? ==> r.username == after.username.value
    ensures forall r :: r in requests && r.DoesEmailExist? ==> r.email == after.email.value
    ensures |requests| <= 2
  {
    (if after.username.checkCount != before.username.checkCount && after.username.checkCount != 0
     then [DoesUsernameExist(after.username.value)] else [])
    + (if after.email.checkCount != before.email.checkCount && after.email.checkCount != 0
       then [DoesEmailExist(after.email.value)] else [])
  }

  /** React runs every effect once at mount, whatever its dependencies; the
      debounce effects then schedule a delayed check for each non-empty value. */
  function MountChecks(s: State): (checks: seq<Action>)
    ensures UsernameAfterDelay in checks <==> s.username.value != ""
    ensures EmailAfterDelay in checks <==> s.email.value != ""
    ensures PasswordAfterDelay in checks <==> s.password.value != ""
    ensures |checks| <= 3
  {
    (if Truthy(s.username.value) then [UsernameAfterDelay] else [])
    + (if Truthy(s.email.value) then [EmailAfterDelay] else [])
    + (if Truthy(s.password.value) then [PasswordAfterDelay] else [])
  }

  /** The mount run of the uniqueness effects: a request for each non-zero
      counter. */
  function MountRequests(s: State): (requests: seq<Request>)
    ensures DoesUsernameExist(s.username.value) in requests <==> s.username.checkCount != 0
    ensures DoesEmailExist(s.email.value) in requests <==> s.email.checkCount != 0
    ensures |requests| <= 2
  {
    (if s.username.checkCount != 0 then [DoesUsernameExist(s.username.value)] else [])
    + (if s.email.checkCount != 0 then [DoesEmailExist(s.email.value)] else [])
  }

  // ---------------------------------------------------------------------
  // Properties

  /** The mount run of each effect does what a change from the initial state
      would have done: the effect bodies' tests are those of the
      dependencies' changes away from "" and 0. */
  lemma MountIsChangeFromInitial(s: State)
    ensures MountChecks(s) == ScheduledChecks(InitialState(), s)
    ensures MountRequests(s) == UniquenessRequests(InitialState(), s)
  {
  }

  lemma UsernameKeystrokeRule(s: State, v: string)
    ensures var u := Next(s, UsernameImmediately(v)).username;
      && u.value == v
      && (u.hasErros <==> |v| > UsernameMaxLength || (v != "" && !MatchesAlnumWord(v)))
      && (v != "" && !MatchesAlnumWord(v) ==> u.message == MsgUsernameCharset)
      && (|v| > UsernameMaxLength && MatchesAlnumWord(v) ==> u.message == MsgUsernameTooLong)
      && (!u.hasErros ==> u.message == s.username.message)
      && u.isUnique == s.username.isUnique && u.checkCount == s.username.checkCount
  {
  }

  lemma UsernameDelayRule(s: State)
    ensures var u := Next(s, UsernameAfterDelay).username;
      && u.value == s.username.value && u.isUnique == s.username.isUnique
      && (|s.username.value| < UsernameMinLength ==> u.hasErros && u.message == MsgUsernameTooShort)
      && (|s.username.value| >= UsernameMinLength ==> u.hasErros == s.username.hasErros && u.message == s.username.message)
      && (u.checkCount == s.username.checkCount + 1 <==> !u.hasErros)
      && (u.hasErros ==> u.checkCount == s.username.checkCount)
  {
  }

  /** Typing a username that breaks a keystroke rule and waiting never
      increments the counter, so no uniqueness request is issued. */
  lemma InvalidUsernameNeverChecked(s: State, v: string)
    requires |v| > UsernameMaxLength || (v != "" && !MatchesAlnumWord(v))
    ensures var typed := Next(s, UsernameImmediately(v));
      var settled := Next(typed, UsernameAfterDelay);
      && settled.username.checkCount == s.username.checkCount
      && UniquenessRequests(typed, settled) == []
  {
  }

  /** A username passing both phases, typed and left alone, is sent for
      exactly one uniqueness check carrying that value. */
  lemma ValidUsernameCheckedOnce(s: State, v: string)
    requires MatchesAlnumWord(v) && UsernameMinLength <= |v| <= UsernameMaxLength
    ensures var typed := Next(s, UsernameImmediately(v));
      var settled := Next(typed, UsernameAfterDelay);
      && settled.username.checkCount == s.username.checkCount + 1
      && !settled.username.hasErros
      && UniquenessRequests(typed, settled) == [DoesUsernameExist(v)]
  {
  }

  /** "ab": the keystroke phase accepts it, the delayed phase rejects it as
      too short and does not increment the counter. */
  lemma TwoCharacterUsername(s: State)
    ensures var typed := Next(s, UsernameImmediately("ab"));
      var settled := Next(typed, UsernameAfterDelay);
      && !typed.username.hasErros
      && settled.username.hasErros && settled.username.message == MsgUsernameTooShort
      && settled.username.checkCount == s.username.checkCount
  {
    assert MatchesAlnumWord("ab");
  }

  lemma UniqueResultsRule(s: State, taken: bool)
    ensures var u := Next(s, UsernameUniqueResults(taken)).username;
      && u.value == s.username.value && u.checkCount == s.username.checkCount
      && (taken ==> u.hasErros && !u.isUnique && u.message == MsgUsernameTaken)
      && (!taken ==> u.isUnique && u.hasErros == s.username.hasErros && u.message == s.username.message)
    ensures var e := Next(s, EmailUniqueResults(taken)).email;
      && e.value == s.email.value && e.checkCount == s.email.checkCount
      && (taken ==> e.hasErros && !e.isUnique && e.message == MsgEmailTaken)
      && (!taken ==> e.isUnique && e.hasErros == s.email.hasErros && e.message == s.email.message)
  {
  }

  lemma EmailRules(s: State, v: string)
    ensures var e := Next(s, EmailImmediately(v)).email;
      e == s.email.(value := v, hasErros := false)
    ensures var e := Next(s, EmailAfterDelay).email;
      && (!EmailPatternSplit(s.email.value) ==> e.hasErros && e.message == MsgEmailInvalid)
      && (EmailPatternSplit(s.email.value) ==> e.hasErros == s.email.hasErros && e.message == s.email.message)
      && (e.checkCount == s.email.checkCount + 1 <==> !e.hasErros)
      && (e.hasErros ==> e.checkCount == s.email.checkCount)
  {
    MatchesEmailIsPattern(s.email.value);
  }

  lemma PasswordRules(s: State, v: string)
    ensures var p := Next(s, PasswordImmediately(v)).password;
      && p.value == v && (p.hasErros <==> |v| > PasswordMaxLength)
      && (p.hasErros ==> p.message == MsgPasswordTooLong)
    ensures var p := Next(s, PasswordAfterDelay).password;
      && p.value == s.password.value
      && (|s.password.value| < PasswordMinLength ==> p.hasErros && p.message == MsgPasswordTooShort)
      && (|s.password.value| >= PasswordMinLength ==> p == s.password)
  {
  }

  /** Every action changes only its own field; `submitForm` changes nothing. */
  lemma ActionsTouchOwnField(s: State, a: Action)
    ensures Next(s, a).submitCount == s.submitCount
    ensures Next(s, a).username != s.username ==>
      a.UsernameImmediately? || a.UsernameAfterDelay? || a.UsernameUniqueResults?
    ensures Next(s, a).email != s.email ==>
      a.EmailImmediately? || a.EmailAfterDelay? || a.EmailUniqueResults?
    ensures Next(s, a).password != s.password ==>
      a.PasswordImmediately? || a.PasswordAfterDelay?
    ensures a.SubmitForm? ==> Next(s, a) == s
  {
  }

  /** Check counters only ever grow, and by at most one per action. */
  lemma CheckCountStep(s: State, a: Action)
    ensures s.username.checkCount <= Next(s, a).username.checkCount <= s.username.checkCount + 1
    ensures s.email.checkCount <= Next(s, a).email.checkCount <= s.email.checkCount + 1
  {
  }

  /** Over any sequence of actions the check counters never decrease, and
      each grows by at most the number of delayed checks dispatched for it. */
  lemma {:induction false} CheckCountsNeverDecrease(s: State, actions: seq<Action>)
    ensures s.username.checkCount <= Run(s, actions).username.checkCount
      <= s.username.checkCount + Count(actions, UsernameAfterDelay)
    ensures s.email.checkCount <= Run(s, actions).email.checkCount
      <= s.email.checkCount + Count(actions, EmailAfterDelay)
    decreases |actions|
  {
    if actions != [] {
      CheckCountsNeverDecrease(Next(s, actions[0]), actions[1..]);
    }
  }

  /** The number of occurrences of `a` in `actions`. */
  function Count(actions: seq<Action>, a: Action): nat
    decreases |actions|
  {
    if actions == [] then 0
    else (if actions[0] == a then 1 else 0) + Count(actions[1..], a)
  }

  /** A delayed check is scheduled only for a non-empty value that changed,
      and a keystroke that changes a value to a non-empty one schedules it. */
  lemma DelayedCheckNeedsValue(s: State, v: string)
    ensures UsernameAfterDelay in ScheduledChecks(s, Next(s, UsernameImmediately(v)))
      <==> v != "" && v != s.username.value
    ensures ScheduledChecks(s, Next(s, UsernameImmediately("")) ) == []
  {
  }

  /** A uniqueness request is issued only when a counter is non-zero and
      changed; the mount run from the state the form starts in issues none. */
  lemma UniquenessNeedsCount(before: State, after: State)
    ensures DoesUsernameExist(after.username.value) in UniquenessRequests(before, after)
      ==> after.username.checkCount != 0
    ensures DoesEmailExist(after.email.value) in UniquenessRequests(before, after)
      ==> after.email.checkCount != 0
    ensures MountRequests(InitialState()) == []
  {
  }

  /** A keystroke keeps the previous uniqueness verdict: `isUnique` is not
      reset when the value changes. */
  lemma IsUniqueSurvivesKeystroke(s: State, v: string)
    ensures Next(s, UsernameImmediately(v)).username.isUnique == s.username.isUnique
    ensures Next(s, EmailImmediately(v)).email.isUnique == s.email.isUnique
  {
  }
}
