/**
 * The text assistant of app/assistant.py: its own three-step caller check
 * (which locks a caller out for good) and the per-turn router that, once
 * the caller is verified, classifies the message and answers a transfer,
 * a balance question or anything else.
 *
 * The intent classifier, the free-form answer model and the `:.2f` number
 * formatter are foreign; they are parameters. The same goes for the
 * recipient of a transfer and the clock, which the router as written never
 * supplies (see `TransferTurnAsWritten`).
 */
module Assistant {
  import opened Wrappers
  import opened Text
  import Llm
  import Banking
  import AssistantUtils

  /** `MAX_ATTEMPTS` */
  const MaxFailures: int := 3

  const AuthContinue := "auth_continue"
  const AuthSuccess := "auth_success"
  const AuthFailed := "auth_failed"

  const LockedOut := "I’m unable to verify your identity. For your security, the call will now end."
  const AskPesel := "Thank you. Please say the last four digits of your national identification number."
  const RepeatName := "I couldn’t verify your name. Please repeat your full name."
  const AskPin := "Identification confirmed. Now please say your four digit PIN."
  const RepeatPesel := "The identification digits do not match our records. Please repeat them."
  const Verified := "Authentication successful."
  const RepeatPin := "The PIN you provided is incorrect. Please repeat your PIN."
  const UnexpectedState := "Unexpected authentication state."

  const NoAccountReply := "No account found for this user."
  const NoAmountReply := "I understand you want to make a transfer, but I couldn't detect the amount. Try for example: 'Send 50 dollars'."

  /** The exceptions a turn can end in. */
  datatype Error =
    | AttributeError  // an attribute read on `None`
    | TypeError       // a call with the wrong number of arguments

  /** `(reply, intent)`, or the exception the turn raised instead. */
  datatype Turn = Reply(text: string, intent: string) | Raised(error: Error)

  // ---------------------------------------------------------------------
  // authenticate_step
  // ---------------------------------------------------------------------

  /** One caller's entries of `auth_step` and `auth_failures`. */
  datatype LegacyState = LegacyState(step: int, failures: int)

  const Start := LegacyState(0, 0)

  /** What the step at hand looks for in the cleaned message; `[]` when there is no such step. */
  function Expected(step: int, user: Banking.User): (r: string) {
    if step == 0 then RemoveSpaces(Lower(user.name))
    else if step == 1 then Last(user.pesel, 4)
    else if step == 2 then user.pinCode
    else []
  }

  /** The cleaned message holds what the step at hand looks for, as a substring. */
  predicate LegacyMatches(s: LegacyState, user: Banking.User, message: string) {
    0 <= s.step <= 2 && Contains(RemoveSpaces(Lower(message)), Expected(s.step, user))
  }

  /**
   * `authenticate_step`: a caller with three failures is refused whatever
   * they say; otherwise a message holding what the step asks for moves the
   * step on by one, and any other message adds a failure.
   */
  function AuthenticateSpec(s: LegacyState, user: Option<Banking.User>, message: string): (r: (LegacyState, Turn))
    ensures s.failures >= MaxFailures ==> r == (s, Reply(LockedOut, AuthFailed))
    ensures s.failures < MaxFailures && 0 <= s.step <= 2 && user.None? ==> r == (s, Raised(AttributeError))
    ensures s.failures < MaxFailures && 0 <= s.step <= 2 && user.Some? ==>
      if LegacyMatches(s, user.value, message)
      then r.0 == s.(step := s.step + 1) && r.1.Reply? && r.1.intent == (if s.step == 2 then AuthSuccess else AuthContinue)
      else r.0 == s.(failures := s.failures + 1) && r.1.Reply? && r.1.intent == AuthContinue
    ensures s.failures < MaxFailures && !(0 <= s.step <= 2) ==> r == (s, Reply(UnexpectedState, AuthFailed))
  {
    var msg := RemoveSpaces(Lower(message));
    if s.failures >= MaxFailures then (s, Reply(LockedOut, AuthFailed))
    else if s.step == 0 then
      if user.None? then (s, Raised(AttributeError))
      else if Contains(msg, RemoveSpaces(Lower(user.value.name))) then (s.(step := 1), Reply(AskPesel, AuthContinue))
      else (s.(failures := s.failures + 1), Reply(RepeatName, AuthContinue))
    else if s.step == 1 then
      if user.None? then (s, Raised(AttributeError))
      else if Contains(msg, Last(user.value.pesel, 4)) then (s.(step := 2), Reply(AskPin, AuthContinue))
      else (s.(failures := s.failures + 1), Reply(RepeatPesel, AuthContinue))
    else if s.step == 2 then
      if user.None? then (s, Raised(AttributeError))
      else if Contains(msg, user.value.pinCode) then (s.(step := 3), Reply(Verified, AuthSuccess))
      else (s.(failures := s.failures + 1), Reply(RepeatPin, AuthContinue))
    else (s, Reply(UnexpectedState, AuthFailed))
  }

  /** Neither the step nor the failure count ever goes down. */
  lemma AuthenticateMonotone(s: LegacyState, user: Option<Banking.User>, message: string)
    ensures AuthenticateSpec(s, user, message).0.step >= s.step
    ensures AuthenticateSpec(s, user, message).0.failures >= s.failures
  {
  }

  /** The caller's state after saying `msgs`, one `authenticate_step` each (a raised call changes nothing). */
  function LegacyRun(s: LegacyState, user: Option<Banking.User>, msgs: seq<string>): (r: LegacyState)
    decreases |msgs|
  {
    if msgs == [] then s
    else AuthenticateSpec(LegacyRun(s, user, msgs[..|msgs| - 1]), user, msgs[|msgs| - 1]).0
  }

  /** Failures are never cleared, and the step never goes back. */
  lemma {:induction false} LegacyRunMonotone(s: LegacyState, user: Option<Banking.User>, msgs: seq<string>)
    ensures LegacyRun(s, user, msgs).failures >= s.failures
    ensures LegacyRun(s, user, msgs).step >= s.step
    decreases |msgs|
  {
    if msgs != [] {
      LegacyRunMonotone(s, user, msgs[..|msgs| - 1]);
      AuthenticateMonotone(LegacyRun(s, user, msgs[..|msgs| - 1]), user, msgs[|msgs| - 1]);
    }
  }

  /** Once locked out, a caller stays locked out: nothing they say changes their state. */
  lemma {:induction false} LockoutIsPermanent(s: LegacyState, user: Option<Banking.User>, msgs: seq<string>)
    requires s.failures >= MaxFailures
    ensures LegacyRun(s, user, msgs) == s
    decreases |msgs|
  {
    if msgs != [] {
      LockoutIsPermanent(s, user, msgs[..|msgs| - 1]);
    }
  }

  /** Unlike the voice check, success does not wipe the failures: three in total lock the caller out. */
  lemma FailuresSurviveSuccess(user: Banking.User, miss: string, hit: string)
    requires !LegacyMatches(Start, user, miss) && LegacyMatches(Start, user, hit)
    ensures LegacyRun(Start, Some(user), [miss, hit]) == LegacyState(1, 1)
  {
    assert [miss, hit][..1] == [miss];
    assert [miss][..0] == [];
    assert LegacyRun(Start, Some(user), [miss]) == LegacyState(0, 1);
    assert LegacyMatches(LegacyState(0, 1), user, hit);
  }

  // ---------------------------------------------------------------------
  // process_message: what a verified caller is told
  // ---------------------------------------------------------------------

  /** The recipient data a transfer needs; the router never obtains it. */
  datatype Recipient = Recipient(name: string, iban: string, title: string)

  /** `:.2f`: a foreign formatter. */
  type Format = real -> string

  function BalanceReply(account: Banking.Account, fmt: Format): (r: string) {
    "Your current balance is " + fmt(account.balance) + " " + account.currency + " on account " + account.iban + "."
  }

  function TransferDoneReply(amount: real, updated: Banking.Account, fmt: Format): (r: string) {
    "A transfer of " + fmt(amount) + " " + updated.currency + " was completed. "
    + "Your new balance is " + fmt(updated.balance) + " " + updated.currency
    + " on account " + updated.iban + "."
  }

  /** What the answer model is told about the caller. */
  function Context(user: Option<Banking.User>, account: Option<Banking.Account>, fmt: Format): (r: string) {
    (if user.Some? then "User: " + user.value.name + "\n" else "")
    + (if account.Some? then
         "Balance: " + fmt(account.value.balance) + " " + account.value.currency
         + " on account " + account.value.iban + "\n"
       else "")
  }

  /** The turn reaches the ledger: a transfer intent, an account and a positive amount. */
  predicate TransferAttempted(intent: string, account: Option<Banking.Account>, message: string) {
    intent == Llm.MakeTransfer && account.Some? && AssistantUtils.ExtractAmount(message) > 0.0
  }

  /** The reply to a verified caller's message once its intent is known. */
  function ReplyFor(message: string, intent: string, user: Option<Banking.User>, account: Option<Banking.Account>,
                    recipient: Recipient, askLlm: (string, string) -> string, fmt: Format): (r: string)
  {
    if intent == Llm.MakeTransfer then TransferReply(message, account, recipient, fmt)
    else if intent == Llm.CheckBalance then
      if account.None? then NoAccountReply else BalanceReply(account.value, fmt)
    else askLlm(message, Context(user, account, fmt))
  }

  /** The reply to a transfer request. */
  function TransferReply(message: string, account: Option<Banking.Account>, recipient: Recipient, fmt: Format): (r: string) {
    if account.None? then NoAccountReply
    else
      var amount := AssistantUtils.ExtractAmount(message);
      if amount <= 0.0 then NoAmountReply
      else match Banking.TransferError(account, amount, recipient.name, recipient.iban)
        case Some(e) => e
        case None => TransferDoneReply(amount, account.value.(balance := account.value.balance - amount), fmt)
  }

  /** The accounts and the transaction log after a verified caller's turn. */
  function LedgerAfter(accounts: map<string, Banking.Account>, transactions: seq<Banking.Transaction>,
                       userId: string, intent: string, account: Option<Banking.Account>, message: string,
                       recipient: Recipient, now: int): (r: (map<string, Banking.Account>, seq<Banking.Transaction>))
  {
    var amount := AssistantUtils.ExtractAmount(message);
    if TransferAttempted(intent, account, message)
       && Banking.TransferError(account, amount, recipient.name, recipient.iban).None?
    then (accounts[userId := account.value.(balance := account.value.balance - amount)],
          transactions + [Banking.Transaction(userId, recipient.name, recipient.iban, recipient.title, amount, now)])
    else (accounts, transactions)
  }

  /** A transfer request without an amount is not sent to the ledger. */
  lemma TransferWithoutAmount(message: string, account: Banking.Account, recipient: Recipient, fmt: Format)
    requires AssistantUtils.ExtractAmount(message) == 0.0
    ensures TransferReply(message, Some(account), recipient, fmt) == NoAmountReply
  {
  }

  /** A transfer the ledger refuses is answered with the ledger's error message. */
  lemma TransferRefused(message: string, amount: real, account: Banking.Account, recipient: Recipient, fmt: Format)
    requires amount == AssistantUtils.ExtractAmount(message) && amount > 0.0
    requires Banking.TransferError(Some(account), amount, recipient.name, recipient.iban).Some?
    ensures TransferReply(message, Some(account), recipient, fmt)
      == Banking.TransferError(Some(account), amount, recipient.name, recipient.iban).value
  {
  }

  /** A transfer the ledger accepts is confirmed with the new balance. */
  lemma TransferConfirmed(message: string, amount: real, account: Banking.Account, recipient: Recipient, fmt: Format)
    requires amount == AssistantUtils.ExtractAmount(message) && amount > 0.0
    requires Banking.TransferError(Some(account), amount, recipient.name, recipient.iban).None?
    ensures TransferReply(message, Some(account), recipient, fmt)
      == TransferDoneReply(amount, account.(balance := account.balance - amount), fmt)
  {
  }

  /** Of the ledger's checks, only funds, name and IBAN can refuse a request that reached it. */
  lemma LedgerRefusals(account: Banking.Account, amount: real, recipient: Recipient)
    requires amount > 0.0
    ensures var e := Banking.TransferError(Some(account), amount, recipient.name, recipient.iban);
      e.Some? ==> e.value in {Banking.InsufficientFundsError, Banking.MissingNameError, Banking.MissingIbanError}
  {
  }

  // ---------------------------------------------------------------------
  // The module state and the two mutators
  // ---------------------------------------------------------------------

  /** The module-level dictionaries of app/assistant.py, a missing caller reading as 0 or empty. */
  class Assistant {
    var authStep: map<string, int>
    var authFailures: map<string, int>
    /** `conversation_history` with `_store_history` */
    const conversations: AssistantUtils.ConversationStore

    constructor ()
      ensures authStep == map[] && authFailures == map[]
      ensures fresh(conversations) && conversations.history == map[]
    {
      authStep := map[];
      authFailures := map[];
      conversations := new AssistantUtils.ConversationStore();
    }

    function State(userId: string): (r: LegacyState)
      reads this
    {
      LegacyState(if userId in authStep then authStep[userId] else 0,
                  if userId in authFailures then authFailures[userId] else 0)
    }

    /** `authenticate_step`, as `AuthenticateSpec` describes it; other callers are untouched. */
    method AuthenticateStep(message: string, user: Option<Banking.User>, userId: string) returns (t: Turn)
      modifies this
      ensures (State(userId), t) == AuthenticateSpec(old(State(userId)), user, message)
      ensures forall v :: v != userId ==> State(v) == old(State(v))
    {
      var msg := RemoveSpaces(Lower(message));
      var s := State(userId);
      if s.failures >= MaxFailures {
        return Reply(LockedOut, AuthFailed);
      }
      if s.step == 0 {
        if user.None? {
          return Raised(AttributeError);
        }
        if Contains(msg, RemoveSpaces(Lower(user.value.name))) {
          authStep := authStep[userId := 1];
          return Reply(AskPesel, AuthContinue);
        }
        authFailures := authFailures[userId := s.failures + 1];
        return Reply(RepeatName, AuthContinue);
      }
      if s.step == 1 {
        if user.None? {
          return Raised(AttributeError);
        }
        if Contains(msg, Last(user.value.pesel, 4)) {
          authStep := authStep[userId := 2];
          return Reply(AskPin, AuthContinue);
        }
        authFailures := authFailures[userId := s.failures + 1];
        return Reply(RepeatPesel, AuthContinue);
      }
      if s.step == 2 {
        if user.None? {
          return Raised(AttributeError);
        }
        if Contains(msg, user.value.pinCode) {
          authStep := authStep[userId := 3];
          return Reply(Verified, AuthSuccess);
        }
        authFailures := authFailures[userId := s.failures + 1];
        return Reply(RepeatPin, AuthContinue);
      }
      return Reply(UnexpectedState, AuthFailed);
    }

    /**
     * `process_message`, with `detect_intent` called with the message alone
     * and `perform_transfer` given a recipient. An unverified caller gets
     * exactly `authenticate_step`'s answer, and nothing else happens. A
     * verified caller's message is classified; the ledger is touched only by
     * a transfer request with an account and a positive amount; and exactly
     * one exchange, the message with its reply, is added to the history.
     */
    method ProcessMessage(message: string, userId: string, ledger: Banking.Ledger,
                          intentModel: string -> Llm.Completion, askLlm: (string, string) -> string,
                          fmt: Format, recipient: Recipient, now: int)
      returns (t: Turn)
      modifies this, conversations, ledger`accounts, ledger`transactions
      ensures
        var user := old(ledger.GetUser(userId));
        old(State(userId)).step < 3 ==>
          && (State(userId), t) == AuthenticateSpec(old(State(userId)), user, message)
          && conversations.history == old(conversations.history)
          && ledger.accounts == old(ledger.accounts) && ledger.transactions == old(ledger.transactions)
      ensures
        var user := old(ledger.GetUser(userId));
        var account := old(ledger.GetAccountForUser(userId));
        var intent := Llm.DetectIntent(intentModel(message));
        old(State(userId)).step >= 3 ==>
          && t == Reply(ReplyFor(message, intent, user, account, recipient, askLlm, fmt), intent)
          && conversations.history
             == old(conversations.history)[userId := AssistantUtils.Appended(old(conversations.HistoryOf(userId)), message, t.text)]
          && authStep == old(authStep) && authFailures == old(authFailures)
      ensures
        var account := old(ledger.GetAccountForUser(userId));
        var intent := Llm.DetectIntent(intentModel(message));
        old(State(userId)).step >= 3 ==>
          (ledger.accounts, ledger.transactions)
          == LedgerAfter(old(ledger.accounts), old(ledger.transactions), userId, intent, account, message, recipient, now)
      ensures forall v :: v != userId ==> State(v) == old(State(v))
      ensures old(conversations.Valid()) ==> conversations.Valid()
    {
      var user := ledger.GetUser(userId);
      var account := ledger.GetAccountForUser(userId);

      if State(userId).step < 3 {
        t := AuthenticateStep(message, user, userId);
        return;
      }

      var intent := Llm.DetectIntent(intentModel(message));
      var reply := Answer(message, userId, ledger, intent, user, account, askLlm, fmt, recipient, now);
      reply := conversations.StoreHistory(userId, message, reply);
      t := Reply(reply, intent);
    }
  }

  /**
   * The intent branches of `process_message` for a verified caller: the
   * reply is `ReplyFor`'s, and the ledger moves exactly when a transfer
   * request with an account and a positive amount passes its checks.
   */
  method Answer(message: string, userId: string, ledger: Banking.Ledger, intent: string,
                user: Option<Banking.User>, account: Option<Banking.Account>,
                askLlm: (string, string) -> string, fmt: Format, recipient: Recipient, now: int)
    returns (reply: string)
    requires account == ledger.GetAccountForUser(userId)
    modifies ledger`accounts, ledger`transactions
    ensures reply == ReplyFor(message, intent, user, account, recipient, askLlm, fmt)
    ensures (ledger.accounts, ledger.transactions)
      == LedgerAfter(old(ledger.accounts), old(ledger.transactions), userId, intent, account, message, recipient, now)
  {
    if intent == Llm.MakeTransfer {
      reply := AnswerTransfer(message, userId, ledger, account, fmt, recipient, now);
      return;
    }
    if intent == Llm.CheckBalance {
      if account.None? {
        return NoAccountReply;
      }
      return BalanceReply(account.value, fmt);
    }
    return askLlm(message, Context(user, account, fmt));
  }

  /** The transfer branch: no account, no amount, or the ledger's answer. */
  method AnswerTransfer(message: string, userId: string, ledger: Banking.Ledger, account: Option<Banking.Account>,
                        fmt: Format, recipient: Recipient, now: int)
    returns (reply: string)
    requires account == ledger.GetAccountForUser(userId)
    modifies ledger`accounts, ledger`transactions
    ensures reply == TransferReply(message, account, recipient, fmt)
    ensures (ledger.accounts, ledger.transactions)
      == LedgerAfter(old(ledger.accounts), old(ledger.transactions), userId, Llm.MakeTransfer, account, message, recipient, now)
  {
    if account.None? {
      return NoAccountReply;
    }
    var amount := AssistantUtils.ExtractAmount(message);
    if amount <= 0.0 {
      return NoAmountReply;
    }
    reply := SubmitTransfer(message, userId, ledger, account.value, amount, fmt, recipient, now);
  }

  /** The call into the ledger, for a request with an account and a positive amount. */
  method SubmitTransfer(message: string, userId: string, ledger: Banking.Ledger, account: Banking.Account, amount: real,
                        fmt: Format, recipient: Recipient, now: int)
    returns (reply: string)
    requires Some(account) == ledger.GetAccountForUser(userId)
    requires amount == AssistantUtils.ExtractAmount(message) && amount > 0.0
    modifies ledger`accounts, ledger`transactions
    ensures reply == TransferReply(message, Some(account), recipient, fmt)
    ensures (ledger.accounts, ledger.transactions)
      == LedgerAfter(old(ledger.accounts), old(ledger.transactions), userId, Llm.MakeTransfer, Some(account), message, recipient, now)
  {
    var updated := ledger.PerformTransfer(userId, amount, recipient.name, recipient.iban, recipient.title, now);
    match updated
    case Failure(err) =>
      TransferRefused(message, amount, account, recipient, fmt);
      return err;
    case Success(acct) =>
      TransferConfirmed(message, amount, account, recipient, fmt);
      return TransferDoneReply(amount, acct, fmt);
  }

  // ---------------------------------------------------------------------
  // The router as written
  // ---------------------------------------------------------------------

  /**
   * `process_message` as written, for a verified caller: `detect_intent` is
   * called with the message and the history although it takes the message
   * alone, so the call raises before any branch runs.
   */
  function ProcessMessageAsWritten(s: LegacyState, user: Option<Banking.User>, message: string): (r: (LegacyState, Turn))
    ensures s.step < 3 ==> r == AuthenticateSpec(s, user, message)
  {
    if s.step < 3 then AuthenticateSpec(s, user, message)
    else (s, Raised(TypeError))
  }

  /** As written, no verified caller is ever answered. */
  lemma VerifiedCallerNeverServedAsWritten(s: LegacyState, user: Option<Banking.User>, message: string)
    requires s.step >= 3
    ensures ProcessMessageAsWritten(s, user, message).1 == Raised(TypeError)
  {
  }

  /**
   * The transfer branch as written, even with the intent known:
   * `perform_transfer(db, user_id, amount)` lacks the recipient name, IBAN
   * and title, and the `TypeError` is not the `ValueError` the branch catches.
   */
  function TransferTurnAsWritten(message: string, account: Option<Banking.Account>): (t: Turn)
    ensures account.None? ==> t == Reply(NoAccountReply, Llm.MakeTransfer)
  {
    if account.None? then Reply(NoAccountReply, Llm.MakeTransfer)
    else if AssistantUtils.ExtractAmount(message) <= 0.0 then Reply(NoAmountReply, Llm.MakeTransfer)
    else Raised(TypeError)
  }

  /** "100" from a caller with an account raises instead of moving money. */
  lemma TransferRaisesAsWritten(account: Banking.Account)
    ensures TransferTurnAsWritten("100", Some(account)) == Raised(TypeError)
  {
    AssistantUtils.ExtractAmountWhole();
  }

  /** With the recipient supplied, the same request reaches the ledger. */
  lemma TransferReachesLedger(account: Banking.Account)
    ensures TransferAttempted(Llm.MakeTransfer, Some(account), "100")
  {
    AssistantUtils.ExtractAmountWhole();
  }
}
