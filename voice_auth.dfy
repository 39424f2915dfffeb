/**
 * The spoken caller verification of app/voice_auth.py: per caller, a
 * stepper over name, last four ID digits and PIN, with one attempt counter
 * shared by all three steps. The telephony markup a step answers with is
 * an abstract directive.
 */
module VoiceAuth {
  import opened Wrappers
  import opened Text
  import Banking

  /** `MAX_ATTEMPTS` */
  const MaxAttempts: int := 3

  const AuthAction := "/auth/voice"
  const VoiceAction := "/twilio/voice"

  const AskId := "Name confirmed. Please say the last four digits of your ID."
  const AskPin := "ID digits confirmed. Now say your four-digit PIN."
  const Authenticated := "Authentication successful. Redirecting you now."
  const RepeatName := "I did not recognize that name. Please repeat your full name."
  const RepeatId := "Those digits do not match our records. Please repeat the last four digits of your ID."
  const RepeatPin := "Incorrect PIN. Please repeat your four-digit PIN."
  const Failed := "Authentication failed. Ending session for your security."
  const Welcome := "Welcome. Please say your full name to begin."
  const NoSpeech := "No speech detected. Goodbye."

  /** What the call is told to do next. */
  datatype Directive =
    | Ask(action: string, text: string, otherwise: Option<string>)  // gather speech for `action` after saying `text`; say `otherwise` if none comes
    | Hangup(text: string)                                          // say `text`, then hang up
    | Redirect(action: string, say: Option<string>)                 // optionally say something, then hand the call to `action`

  /** One caller's entries of `auth_step` and `attempts`. */
  datatype AuthState = AuthState(step: int, attempts: int)

  const Initial := AuthState(0, 0)

  /** The states the stepper can be in. */
  predicate Valid(s: AuthState) {
    0 <= s.step <= 3 && 0 <= s.attempts < MaxAttempts
  }

  // ---------------------------------------------------------------------
  // What `handle` reads from an utterance
  // ---------------------------------------------------------------------

  /** The utterance lower-cased with its spaces removed; no utterance reads as "". */
  function Cleaned(message: Option<string>): (r: string)
    ensures ' ' !in r
  {
    RemoveSpaces(Lower(message.GetOr("")))
  }

  /** The digits spoken, the last four of them when there are more. */
  function SpokenDigits(message: Option<string>): (r: string)
    ensures AllDigits(r)
    ensures var ds := Digits(message.GetOr(""));
      |r| == Min(4, |ds|) && r == ds[|ds| - |r|..]
  {
    var ds := Digits(message.GetOr(""));
    if |ds| >= 4 then ds[|ds| - 4..] else ds
  }

  predicate NameMatches(user: Banking.User, cleaned: string) {
    Contains(cleaned, RemoveSpaces(Lower(user.name)))
  }

  predicate IdMatches(user: Banking.User, digits: string) {
    digits == Last(user.pesel, 4)
  }

  predicate PinMatches(user: Banking.User, digits: string) {
    digits == user.pinCode
  }

  /**
   * The ID step accepts any digit string whose last four digits are the last
   * four of the ID; fewer than four digits never match a long enough ID.
   */
  lemma IdSuffixMatch(user: Banking.User, m: Option<string>)
    requires |user.pesel| >= 4
    ensures var ds := Digits(m.GetOr(""));
      IdMatches(user, SpokenDigits(m)) <==> |ds| >= 4 && ds[|ds| - 4..] == user.pesel[|user.pesel| - 4..]
  {
  }

  /** A four-character PIN is matched by the last four digits spoken, however many digits there are. */
  lemma PinSuffixMatch(user: Banking.User, m: Option<string>)
    requires |user.pinCode| == 4
    ensures var ds := Digits(m.GetOr(""));
      PinMatches(user, SpokenDigits(m)) <==> |ds| >= 4 && ds[|ds| - 4..] == user.pinCode
  {
  }

  /** A PIN longer than four characters can never be matched. */
  lemma LongPinNeverMatches(user: Banking.User, m: Option<string>)
    requires |user.pinCode| > 4
    ensures !PinMatches(user, SpokenDigits(m))
  {
  }

  // ---------------------------------------------------------------------
  // The transitions
  // ---------------------------------------------------------------------

  /** `_retry`: one more strike; the third ends the call and starts the caller over. */
  function Retry(s: AuthState, text: string): (r: (AuthState, Directive))
    ensures s.attempts + 1 >= MaxAttempts ==> r == (Initial, Hangup(Failed))
    ensures s.attempts + 1 < MaxAttempts ==> r == (s.(attempts := s.attempts + 1), Ask(AuthAction, text, None))
  {
    var attempts := s.attempts + 1;
    if attempts >= MaxAttempts then (Initial, Hangup(Failed))
    else (s.(attempts := attempts), Ask(AuthAction, text, None))
  }

  function NameStep(s: AuthState, user: Banking.User, cleaned: string): (r: (AuthState, Directive)) {
    if NameMatches(user, cleaned) then (s.(step := 1), Ask(AuthAction, AskId, None))
    else Retry(s, RepeatName)
  }

  function IdStep(s: AuthState, user: Banking.User, digits: string): (r: (AuthState, Directive)) {
    if IdMatches(user, digits) then (s.(step := 2), Ask(AuthAction, AskPin, None))
    else Retry(s, RepeatId)
  }

  function PinStep(s: AuthState, user: Banking.User, digits: string): (r: (AuthState, Directive)) {
    if PinMatches(user, digits) then (s.(step := 3), Redirect(VoiceAction, Some(Authenticated)))
    else Retry(s, RepeatPin)
  }

  /** The credential the current step asks for is in the utterance. */
  predicate StepMatches(s: AuthState, user: Banking.User, message: Option<string>) {
    || (s.step == 0 && NameMatches(user, Cleaned(message)))
    || (s.step == 1 && IdMatches(user, SpokenDigits(message)))
    || (s.step == 2 && PinMatches(user, SpokenDigits(message)))
  }

  /**
   * `handle` for one utterance: the step moves on by exactly one when the
   * utterance holds the credential it asks for; otherwise the caller gets a
   * strike at the same step, or is hung up on and starts over; once
   * authenticated, every utterance is redirected and nothing changes.
   */
  function Transition(s: AuthState, user: Banking.User, message: Option<string>): (r: (AuthState, Directive))
    ensures !(0 <= s.step <= 2) ==> r == (s, Redirect(VoiceAction, None))
    ensures 0 <= s.step <= 2 && StepMatches(s, user, message) ==> r.0 == s.(step := s.step + 1)
    ensures 0 <= s.step <= 2 && !StepMatches(s, user, message) ==>
      r.0 == (if s.attempts + 1 >= MaxAttempts then Initial else s.(attempts := s.attempts + 1))
    ensures r.1.Hangup? <==> 0 <= s.step <= 2 && !StepMatches(s, user, message) && s.attempts + 1 >= MaxAttempts
    ensures s.step == 2 && StepMatches(s, user, message) ==> r.1 == Redirect(VoiceAction, Some(Authenticated))
  {
    if s.step == 0 then NameStep(s, user, Cleaned(message))
    else if s.step == 1 then IdStep(s, user, SpokenDigits(message))
    else if s.step == 2 then PinStep(s, user, SpokenDigits(message))
    else (s, Redirect(VoiceAction, None))
  }

  /** Every transition stays among the valid states. */
  lemma TransitionValid(s: AuthState, user: Banking.User, message: Option<string>)
    requires Valid(s)
    ensures Valid(Transition(s, user, message).0)
  {
  }

  /** The step only ever moves forward by one, or back to the start on a hangup. */
  lemma StepMovesByOne(s: AuthState, user: Banking.User, message: Option<string>)
    requires Valid(s)
    ensures var t := Transition(s, user, message).0;
      t.step == s.step || t.step == s.step + 1 || t == Initial
    ensures var t := Transition(s, user, message).0;
      t.step == s.step + 1 ==> t.attempts == s.attempts
  {
  }

  // ---------------------------------------------------------------------
  // Whole conversations
  // ---------------------------------------------------------------------

  /**
   * The state part of `Transition`, spelled out step by step; `hit` tells
   * whether the utterance held the credential of the current step.
   */
  function Next(s: AuthState, hit: bool): (r: AuthState) {
    if !(0 <= s.step <= 2) then s
    else if hit then s.(step := s.step + 1)
    else if s.attempts + 1 >= MaxAttempts then Initial
    else s.(attempts := s.attempts + 1)
  }

  /** An utterance at an unauthenticated step that misses its credential. */
  predicate Strike(s: AuthState, hit: bool) {
    0 <= s.step <= 2 && !hit
  }

  /**
   * Whether an utterance holds the credential asked for at a step: a
   * conversation is replayed against such a recogniser.
   */
  type Recognizer = (Option<string>, int) -> bool

  /** Whether an utterance holds the credential step `k` asks this user for. */
  function Says(user: Banking.User): (r: Recognizer) {
    (m: Option<string>, k: int) => StepMatches(AuthState(k, 0), user, m)
  }

  /** `Transition` moves the caller to the state `Next` describes. */
  lemma NextIsTransition(s: AuthState, user: Banking.User, m: Option<string>)
    ensures Transition(s, user, m).0 == Next(s, Says(user)(m, s.step))
  {
    assert Says(user)(m, s.step) == StepMatches(AuthState(s.step, 0), user, m);
  }

  /** The state after a caller said `msgs`, one `handle` call each. */
  function Run(s: AuthState, says: Recognizer, msgs: seq<Option<string>>): (r: AuthState)
    decreases |msgs|
  {
    if msgs == [] then s
    else
      var before := Run(s, says, msgs[..|msgs| - 1]);
      Next(before, says(msgs[|msgs| - 1], before.step))
  }

  /** How many of the utterances failed the step they were said at. */
  function Mismatches(s: AuthState, says: Recognizer, msgs: seq<Option<string>>): (r: nat)
    decreases |msgs|
  {
    if msgs == [] then 0
    else
      var before := Run(s, says, msgs[..|msgs| - 1]);
      var miss := Strike(before, says(msgs[|msgs| - 1], before.step));
      Mismatches(s, says, msgs[..|msgs| - 1]) + (if miss then 1 else 0)
  }

  /**
   * The attempt counter is never cleared when a step succeeds: it counts
   * the strikes of the whole conversation, modulo the hangup every third
   * strike causes.
   */
  lemma {:induction false} AttemptsCountMismatches(s: AuthState, says: Recognizer, msgs: seq<Option<string>>)
    requires Valid(s)
    ensures Valid(Run(s, says, msgs))
    ensures Run(s, says, msgs).attempts == (s.attempts + Mismatches(s, says, msgs)) % MaxAttempts
    decreases |msgs|
  {
    if msgs != [] {
      var prefix := msgs[..|msgs| - 1];
      AttemptsCountMismatches(s, says, prefix);
      var before := Run(s, says, prefix);
      var hit := says(msgs[|msgs| - 1], before.step);
      var k: nat := s.attempts + Mismatches(s, says, prefix);
      assert Run(s, says, msgs) == Next(before, hit);
      assert Mismatches(s, says, msgs) == Mismatches(s, says, prefix) + if Strike(before, hit) then 1 else 0;
      NextCounts(before, hit, k);
    }
  }

  /** One utterance adds one to the strike count exactly when it is a strike. */
  lemma NextCounts(s: AuthState, hit: bool, n: nat)
    requires Valid(s) && s.attempts == n % MaxAttempts
    ensures Valid(Next(s, hit))
    ensures Next(s, hit).attempts == (n + if Strike(s, hit) then 1 else 0) % MaxAttempts
  {
    if Strike(s, hit) {
      StrikeCount(s.attempts, n);
    }
  }

  /** A strike moves the counter on by one modulo the hangup. */
  lemma StrikeCount(a: int, n: nat)
    requires a == n % MaxAttempts
    ensures (if a + 1 >= MaxAttempts then 0 else a + 1) == (n + 1) % MaxAttempts
  {
  }

  /**
   * Utterances that hold the credentials of steps `0 .. k-1` occur in `msgs`
   * in that order.
   */
  ghost predicate SaidInOrder(says: Recognizer, msgs: seq<Option<string>>, k: int) {
    && (k >= 1 ==> exists i :: 0 <= i < |msgs| && says(msgs[i], 0))
    && (k >= 2 ==> exists i, j :: 0 <= i < j < |msgs| && says(msgs[i], 0) && says(msgs[j], 1))
    && (k >= 3 ==>
          exists i, j, l :: 0 <= i < j < l < |msgs| && says(msgs[i], 0) && says(msgs[j], 1) && says(msgs[l], 2))
  }

  /** Credentials said in a prefix were said in the whole conversation. */
  lemma SaidInOrderExtend(says: Recognizer, msgs: seq<Option<string>>, k: int)
    requires msgs != [] && SaidInOrder(says, msgs[..|msgs| - 1], k)
    ensures SaidInOrder(says, msgs, k)
  {
    if k >= 1 {
      SaidFirst(says, msgs);
    }
    if k >= 2 {
      SaidSecond(says, msgs);
    }
    if k >= 3 {
      SaidThird(says, msgs);
    }
  }

  lemma SaidFirst(says: Recognizer, msgs: seq<Option<string>>)
    requires msgs != []
    requires var p := msgs[..|msgs| - 1]; exists i :: 0 <= i < |p| && says(p[i], 0)
    ensures exists i :: 0 <= i < |msgs| && says(msgs[i], 0)
  {
    var p := msgs[..|msgs| - 1];
    var i :| 0 <= i < |p| && says(p[i], 0);
    assert msgs[i] == p[i];
  }

  lemma SaidSecond(says: Recognizer, msgs: seq<Option<string>>)
    requires msgs != []
    requires var p := msgs[..|msgs| - 1]; exists i, j :: 0 <= i < j < |p| && says(p[i], 0) && says(p[j], 1)
    ensures exists i, j :: 0 <= i < j < |msgs| && says(msgs[i], 0) && says(msgs[j], 1)
  {
    var p := msgs[..|msgs| - 1];
    var i, j :| 0 <= i < j < |p| && says(p[i], 0) && says(p[j], 1);
    assert msgs[i] == p[i] && msgs[j] == p[j];
  }

  lemma SaidThird(says: Recognizer, msgs: seq<Option<string>>)
    requires msgs != []
    requires var p := msgs[..|msgs| - 1];
      exists i, j, l :: 0 <= i < j < l < |p| && says(p[i], 0) && says(p[j], 1) && says(p[l], 2)
    ensures exists i, j, l :: 0 <= i < j < l < |msgs| && says(msgs[i], 0) && says(msgs[j], 1) && says(msgs[l], 2)
  {
    var p := msgs[..|msgs| - 1];
    var i, j, l :| 0 <= i < j < l < |p| && says(p[i], 0) && says(p[j], 1) && says(p[l], 2);
    assert msgs[i] == p[i] && msgs[j] == p[j] && msgs[l] == p[l];
  }

  /** The last utterance adds the credential of step `k - 1` to those said before it. */
  lemma SaidInOrderStep(says: Recognizer, msgs: seq<Option<string>>, k: int)
    requires 1 <= k <= 3 && msgs != []
    requires SaidInOrder(says, msgs[..|msgs| - 1], k - 1)
    requires says(msgs[|msgs| - 1], k - 1)
    ensures SaidInOrder(says, msgs, k)
  {
    var p := msgs[..|msgs| - 1];
    SaidInOrderExtend(says, msgs, k - 1);
    if k == 2 {
      var i :| 0 <= i < |p| && says(p[i], 0);
      assert msgs[i] == p[i];
    } else if k == 3 {
      var i, j :| 0 <= i < j < |p| && says(p[i], 0) && says(p[j], 1);
      assert msgs[i] == p[i] && msgs[j] == p[j];
    }
  }

  /**
   * Reaching step `k` from the start takes the credentials of every earlier
   * step, said in order.
   */
  lemma {:induction false} StepNeedsCredentials(says: Recognizer, msgs: seq<Option<string>>)
    ensures SaidInOrder(says, msgs, Run(Initial, says, msgs).step)
    decreases |msgs|
  {
    if msgs != [] {
      var p := msgs[..|msgs| - 1];
      var before := Run(Initial, says, p);
      var after := Run(Initial, says, msgs);
      StepNeedsCredentials(says, p);
      AttemptsCountMismatches(Initial, says, p);
      assert after == Next(before, says(msgs[|msgs| - 1], before.step));
      if after.step == before.step {
        SaidInOrderExtend(says, msgs, after.step);
      } else if after.step == before.step + 1 {
        SaidInOrderStep(says, msgs, after.step);
      }
    }
  }

  /** Utterances `i < j < l` hold the name, the ID digits and the PIN. */
  ghost predicate CredentialsAt(user: Banking.User, msgs: seq<Option<string>>, i: int, j: int, l: int) {
    && 0 <= i < j < l < |msgs|
    && NameMatches(user, Cleaned(msgs[i]))
    && IdMatches(user, SpokenDigits(msgs[j]))
    && PinMatches(user, SpokenDigits(msgs[l]))
  }

  /** Authenticated means the name, then the ID digits, then the PIN were said. */
  lemma AuthenticatedOnlyWithCredentials(user: Banking.User, msgs: seq<Option<string>>)
    requires Run(Initial, Says(user), msgs).step == 3
    ensures exists i, j, l :: CredentialsAt(user, msgs, i, j, l)
  {
    StepNeedsCredentials(Says(user), msgs);
    SaidAllCredentials(user, msgs);
  }

  lemma SaidAllCredentials(user: Banking.User, msgs: seq<Option<string>>)
    requires SaidInOrder(Says(user), msgs, 3)
    ensures exists i, j, l :: CredentialsAt(user, msgs, i, j, l)
  {
    var says := Says(user);
    var i, j, l :| 0 <= i < j < l < |msgs| && says(msgs[i], 0) && says(msgs[j], 1) && says(msgs[l], 2);
    SaysMeans(user, msgs[i]);
    SaysMeans(user, msgs[j]);
    SaysMeans(user, msgs[l]);
    assert CredentialsAt(user, msgs, i, j, l);
  }

  lemma SaysMeans(user: Banking.User, m: Option<string>)
    ensures Says(user)(m, 0) == NameMatches(user, Cleaned(m))
    ensures Says(user)(m, 1) == IdMatches(user, SpokenDigits(m))
    ensures Says(user)(m, 2) == PinMatches(user, SpokenDigits(m))
  {
  }

  /** Three strikes in a row from the start end the call. */
  lemma ThreeStrikes(user: Banking.User, a: Option<string>, b: Option<string>, c: Option<string>)
    requires !NameMatches(user, Cleaned(a)) && !NameMatches(user, Cleaned(b)) && !NameMatches(user, Cleaned(c))
    ensures Transition(Initial, user, a) == (AuthState(0, 1), Ask(AuthAction, RepeatName, None))
    ensures Transition(AuthState(0, 1), user, b) == (AuthState(0, 2), Ask(AuthAction, RepeatName, None))
    ensures Transition(AuthState(0, 2), user, c) == (Initial, Hangup(Failed))
  {
  }

  /** The name, then the ID digits, then the PIN, each said once, authenticate a new caller. */
  lemma CredentialsAuthenticate(user: Banking.User, a: Option<string>, b: Option<string>, c: Option<string>)
    requires NameMatches(user, Cleaned(a)) && IdMatches(user, SpokenDigits(b)) && PinMatches(user, SpokenDigits(c))
    ensures Transition(Initial, user, a) == (AuthState(1, 0), Ask(AuthAction, AskId, None))
    ensures Transition(AuthState(1, 0), user, b) == (AuthState(2, 0), Ask(AuthAction, AskPin, None))
    ensures Transition(AuthState(2, 0), user, c) == (AuthState(3, 0), Redirect(VoiceAction, Some(Authenticated)))
  {
    NameAccepted(user, a);
    IdAccepted(user, b);
    PinAccepted(user, c);
  }

  lemma NameAccepted(user: Banking.User, a: Option<string>)
    requires NameMatches(user, Cleaned(a))
    ensures Transition(Initial, user, a) == (AuthState(1, 0), Ask(AuthAction, AskId, None))
  {
    assert NameStep(Initial, user, Cleaned(a)) == (AuthState(1, 0), Ask(AuthAction, AskId, None));
  }

  lemma IdAccepted(user: Banking.User, b: Option<string>)
    requires IdMatches(user, SpokenDigits(b))
    ensures Transition(AuthState(1, 0), user, b) == (AuthState(2, 0), Ask(AuthAction, AskPin, None))
  {
    assert IdStep(AuthState(1, 0), user, SpokenDigits(b)) == (AuthState(2, 0), Ask(AuthAction, AskPin, None));
  }

  lemma PinAccepted(user: Banking.User, c: Option<string>)
    requires PinMatches(user, SpokenDigits(c))
    ensures Transition(AuthState(2, 0), user, c) == (AuthState(3, 0), Redirect(VoiceAction, Some(Authenticated)))
  {
    assert PinStep(AuthState(2, 0), user, SpokenDigits(c)) == (AuthState(3, 0), Redirect(VoiceAction, Some(Authenticated)));
  }

  // ---------------------------------------------------------------------
  // The authenticator object
  // ---------------------------------------------------------------------

  /** `VoiceAuthenticator`: the two per-caller dictionaries, a missing caller reading as 0. */
  class VoiceAuthenticator {
    var authStep: map<string, int>
    var attempts: map<string, int>

    constructor ()
      ensures authStep == map[] && attempts == map[]
    {
      authStep := map[];
      attempts := map[];
    }

    function State(userId: string): (r: AuthState)
      reads this
    {
      AuthState(if userId in authStep then authStep[userId] else 0,
                if userId in attempts then attempts[userId] else 0)
    }

    /** `reset`: this caller starts over; nobody else is touched. */
    method Reset(userId: string)
      modifies this
      ensures authStep == old(authStep)[userId := 0]
      ensures attempts == old(attempts)[userId := 0]
      ensures State(userId) == Initial
    {
      authStep := authStep[userId := 0];
      attempts := attempts[userId := 0];
    }

    /** `handle`: one utterance of this caller, as `Transition` describes it. */
    method Handle(userId: string, message: Option<string>, user: Banking.User) returns (d: Directive)
      modifies this
      ensures (State(userId), d) == Transition(old(State(userId)), user, message)
      ensures forall v :: v != userId ==> State(v) == old(State(v))
    {
      var digits := SpokenDigits(message);
      var cleaned := Cleaned(message);
      var step := State(userId).step;
      if step == 0 {
        d := HandleNameStep(userId, user, cleaned);
        return;
      }
      if step == 1 {
        d := HandleIdStep(userId, user, digits);
        return;
      }
      if step == 2 {
        d := HandlePinStep(userId, user, digits);
        return;
      }
      d := Redirect(VoiceAction, None);
    }

    /** `_handle_name_step` */
    method HandleNameStep(userId: string, user: Banking.User, cleaned: string) returns (d: Directive)
      modifies this
      ensures (State(userId), d) == NameStep(old(State(userId)), user, cleaned)
      ensures forall v :: v != userId ==> State(v) == old(State(v))
    {
      if NameMatches(user, cleaned) {
        authStep := authStep[userId := 1];
        d := Ask(AuthAction, AskId, None);
      } else {
        d := HandleRetry(userId, RepeatName);
      }
    }

    /** `_handle_id_step` */
    method HandleIdStep(userId: string, user: Banking.User, digits: string) returns (d: Directive)
      modifies this
      ensures (State(userId), d) == IdStep(old(State(userId)), user, digits)
      ensures forall v :: v != userId ==> State(v) == old(State(v))
    {
      if IdMatches(user, digits) {
        authStep := authStep[userId := 2];
        d := Ask(AuthAction, AskPin, None);
      } else {
        d := HandleRetry(userId, RepeatId);
      }
    }

    /** `_handle_pin_step` */
    method HandlePinStep(userId: string, user: Banking.User, digits: string) returns (d: Directive)
      modifies this
      ensures (State(userId), d) == PinStep(old(State(userId)), user, digits)
      ensures forall v :: v != userId ==> State(v) == old(State(v))
    {
      if PinMatches(user, digits) {
        authStep := authStep[userId := 3];
        d := Redirect(VoiceAction, Some(Authenticated));
      } else {
        d := HandleRetry(userId, RepeatPin);
      }
    }

    /** `_retry` */
    method HandleRetry(userId: string, text: string) returns (d: Directive)
      modifies this
      ensures (State(userId), d) == Retry(old(State(userId)), text)
      ensures forall v :: v != userId ==> State(v) == old(State(v))
    {
      attempts := attempts[userId := State(userId).attempts + 1];
      if attempts[userId] >= MaxAttempts {
        Reset(userId);
        d := Hangup(Failed);
        return;
      }
      d := Ask(AuthAction, text, None);
    }
  }

  /**
   * The `/auth/voice` route: a request without speech starts the caller over
   * and asks for their name; anything else is one `handle` step.
   */
  method AuthVoice(auth: VoiceAuthenticator, userId: string, speech: Option<string>, user: Banking.User)
    returns (d: Directive)
    modifies auth
    ensures speech.None? || speech == Some("") ==>
      auth.State(userId) == Initial && d == Ask(AuthAction, Welcome, Some(NoSpeech))
    ensures !(speech.None? || speech == Some("")) ==>
      (auth.State(userId), d) == Transition(old(auth.State(userId)), user, speech)
    ensures forall v :: v != userId ==> auth.State(v) == old(auth.State(v))
  {
    if speech.None? || speech == Some("") {
      auth.Reset(userId);
      d := Ask(AuthAction, Welcome, Some(NoSpeech));
    } else {
      d := auth.Handle(userId, speech, user);
    }
  }
}
