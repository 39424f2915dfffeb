# Banking assistant core, modelled in Dafny

This project models the core of a Polish/English banking phone and text assistant. A caller proves who they are, then asks the assistant to move money, tell their balance or answer something else. The model covers these parts:

- **Ledger** (`Banking`, app/banking.py). It holds users, one account per user, saved contacts and the transaction log. Its operations resolve a spoken recipient phrase to a saved contact, run the checked transfer and list a user's outgoing transfers newest first, optionally limited.
- **Intent classifier post-processing** (`Llm`, `LlmAliases`, app/llm.py). The model's raw answer is stripped, lower-cased and mapped onto `make_transfer`, `check_balance` or `other`, including two Polish aliases. A failed call falls back to `other`.
- **Helpers** (`AssistantUtils`, app/assistant_utils.py):
  - the bounded per-user conversation history (20 entries);
  - the amount parser `extract_amount` (`\d+[,.]?\d*` on the message without spaces, a comma read as the decimal point);
  - the history-limit parser;
  - the pending-transfer record.
- **Voice check** (`VoiceAuth`, app/voice_auth.py and its `/auth/voice` route). It is a per-caller stepper over name, last four ID digits and PIN. One attempt counter is shared by all three steps, and the third strike hangs up and starts the caller over.
- **Text assistant** (`Assistant`, app/assistant.py). It has its own three-step check, under which three failures lock a caller out for good. It also has the per-turn router for verified callers.
- **Credential gateway** (`AuthService`, app/auth_service.py). It checks credentials against its own user table, issues a session token and resolves `Authorization: Bearer <token>`. It also fills in the `user_id` of a proxied chat payload.
- **Token registry** (`AuthState`, app/auth_state.py).

`Text` holds the Python string operations the core uses: `lower`, `strip`, `replace(" ", "")`, `in` on strings, the `isdigit` filter and `s[-n:]`. `Wrappers` holds `Option` and `Result`.

State owned by objects is modelled as Dafny classes:

- the module-level dictionaries of app/assistant.py (`Assistant.Assistant`);
- `VoiceAuthenticator`;
- `conversation_history` (`AssistantUtils.ConversationStore`);
- the database (`Banking.Ledger`);
- `SESSIONS` (`AuthService.Gateway`);
- `VALID_TOKENS` (`AuthState.TokenRegistry`).

Each state-changing method is tied to a pure function of the old state: `Transition`, `AuthenticateSpec`, `Appended`, `TransferError`, `LedgerAfter`. The properties are proved about those functions.

Three facts about the code shape the model:

- The voice check's attempt counter is not cleared when a step succeeds (`AttemptsCountMismatches`): it counts the strikes of the whole conversation, modulo the hangup.
- The ID and PIN steps keep only the last four digits spoken, so a longer digit string whose last four digits match is accepted (`IdSuffixMatch`, `PinSuffixMatch`). A PIN longer than four characters can never be matched (`LongPinNeverMatches`).
- The router in app/assistant.py has no confirmation step: it calls the ledger directly (see Findings). `PendingTransfer` is modelled as the record it is.

## Model

| member | source | states |
|---|---|---|
| Text.StripPadded | app/llm.py:53 | Whitespace added on either side of a string does not change what `strip()` leaves |
| Text.LowerStrip | app/llm.py:53 | Lower-casing and stripping commute, so `content.strip().lower()` is the same as lower-casing first |
| Banking.ContactsOf | app/banking.py:31-32 | Every contact selected belongs to the user, and every contact of the user is selected |
| Banking.IndexOf | app/banking.py:47-54 | The index found is the first whose lower-cased field equals the key; none is found exactly when no contact's field does |
| Banking.IndexOfFirst | app/banking.py:47-49 | A match with no match before it is the one the search returns |
| Banking.ResolveSpec | app/banking.py:21-56 | The contact returned is one of the user's own; an empty or all-blank phrase, a user without contacts, or a missing or empty answer from the matcher gives no contact; otherwise the result's nickname or full name is the answer stripped and lower-cased; when any nickname matches, the result is the first contact in list order whose nickname does; only when none does, the first whose full name does, or nothing |
| Banking.ResolveContact | app/banking.py:21-56 | The early-return searches (nickname first, then full name) return exactly the contact `ResolveSpec` describes |
| Banking.FindByField | app/banking.py:47-54 | The loop over the contacts returns the first contact whose lower-cased field is the chosen label, or nothing |
| Banking.TransferChecks | app/banking.py:71-86 | A transfer passes exactly when the account exists, the amount is positive, the balance covers it and name and IBAN are given; the first failing check, in the order account, amount, funds, name, IBAN, names the error; a passed transfer never overdraws |
| Banking.SentByAppend | app/banking.py:88-97 | Logging a transaction adds its amount to its sender's total sent and to nobody else's |
| Banking.FromSender | app/banking.py:114-116 | The selection holds only the user's transactions, each as often as in the log, and no other |
| Banking.Insert | app/banking.py:117 | Inserting adds exactly the one transaction |
| Banking.InsertKeepsOrder | app/banking.py:117 | Inserting into a newest-first history keeps it newest first |
| Banking.SortNewestFirst | app/banking.py:117 | The result is ordered newest first and is a permutation of the input |
| Banking.Take | app/banking.py:120-121 | A limit keeps a prefix of length min(limit, size); no limit keeps everything; order is kept |
| Banking.GetTransactionsForUser | app/banking.py:105-123 | Only the user's own transfers, newest first, at most `limit` of them (exactly min(limit, count)), a prefix of the full sorted history |
| Banking.HistoryIsOwnTransfers | app/banking.py:110-116 | The history is a sub-multiset of the user's outgoing transfers, and all of them when no limit is given |
| Banking.LimitKeepsNewest | app/banking.py:112-121 | Any transfer the limit leaves out is no newer than every transfer it keeps |
| Banking.Ledger.constructor | app/banking.py:11-18 | A database whose users are stored under their id and accounts under their owner's id is a valid ledger |
| Banking.Ledger.GetUser | app/banking.py:11-13 | The user is found exactly when the id is stored, and it is the stored record; in a valid ledger it carries the id looked up |
| Banking.Ledger.GetAccountForUser | app/banking.py:16-18 | The account is found exactly when the user has one, and it is that account; in a valid ledger it belongs to the user looked up |
| Banking.Ledger.PerformTransfer | app/banking.py:59-102 | On a failed check nothing changes and the check's message is returned; otherwise the balance drops by the amount and exactly this transaction is appended; balance plus total sent is preserved for every user; no balance goes negative |
| Llm.NormalizeIntent | app/llm.py:52-65 | The intent is always one of the three; the table's entry for the stripped, lower-cased answer, `other` for anything it does not list |
| Llm.DetectIntent | app/llm.py:12-70 | Always one of the three intents; a raised call or missing content gives `other` |
| Llm.NormalizeIgnoresPadding | app/llm.py:53 | Whitespace around the model's answer does not change the intent |
| Llm.NormalizeIgnoresCase | app/llm.py:53-55 | Answers differing only in letter case give the same intent |
| LlmAliases.TransferAlias | app/llm.py:61 | The Polish answer `przelew` reads as `make_transfer` |
| LlmAliases.BalanceAlias | app/llm.py:62 | The Polish answer `saldo` reads as `check_balance` |
| VoiceAuth.Cleaned | app/voice_auth.py:26-29 | The cleaned utterance holds no space |
| VoiceAuth.SpokenDigits | app/voice_auth.py:27-28 | Only digits: the last min(4, n) of the n digits spoken, in order |
| VoiceAuth.IdSuffixMatch | app/voice_auth.py:27-28 | For an ID of at least four digits, the ID step matches exactly when at least four digits were spoken and the last four are the ID's last four |
| VoiceAuth.PinSuffixMatch | app/voice_auth.py:27-28 | For a four-character PIN, the PIN step matches exactly when at least four digits were spoken and the last four are the PIN |
| VoiceAuth.LongPinNeverMatches | app/voice_auth.py:28 | A PIN longer than four characters is never matched |
| VoiceAuth.Retry | app/voice_auth.py:98-106 | A strike adds one attempt and repeats the question; the third hangs up and starts the caller over |
| VoiceAuth.Transition | app/voice_auth.py:25-88 | The step moves on by one exactly when the utterance holds the credential it asks for; otherwise a strike (or a hangup on the third); an authenticated caller is redirected without change; a hangup happens exactly on a third strike; a matching PIN redirects with the success message |
| VoiceAuth.TransitionValid | app/voice_auth.py:14-18 | The step stays in 0..3 and the attempt counter below 3 |
| VoiceAuth.StepMovesByOne | app/voice_auth.py:51-88 | The step stays, moves forward by exactly one (keeping the attempts), or goes back to the start on a hangup |
| VoiceAuth.NextIsTransition | app/voice_auth.py:25-47 | The state after one utterance is the step function of whether that utterance held the current step's credential |
| VoiceAuth.AttemptsCountMismatches | app/voice_auth.py:98-104 | After any conversation the attempt counter is the number of strikes of the whole conversation modulo 3: success never clears it |
| VoiceAuth.StepNeedsCredentials | app/voice_auth.py:36-43 | Reaching step k from the start needs utterances holding the credentials of steps 0..k-1, said in that order |
| VoiceAuth.AuthenticatedOnlyWithCredentials | app/voice_auth.py:79-85 | An authenticated caller said the name, then the ID digits, then the PIN, in three distinct utterances in that order |
| VoiceAuth.CredentialsAuthenticate | app/voice_auth.py:51-88 | Name, then ID digits, then PIN, each said once, take a new caller to step 3 with the success redirect, and no strike |
| VoiceAuth.ThreeStrikes | app/voice_auth.py:98-106 | Three unrecognised names from the start give two re-prompts and then a hangup back to the start |
| VoiceAuth.VoiceAuthenticator.constructor | app/voice_auth.py:16-18 | Both dictionaries start empty |
| VoiceAuth.VoiceAuthenticator.Reset | app/voice_auth.py:20-23 | This caller's step and attempts are zeroed; nobody else's entries change |
| VoiceAuth.VoiceAuthenticator.Handle | app/voice_auth.py:25-47 | This caller's new state and the directive are the transition's; no other caller's state changes |
| VoiceAuth.VoiceAuthenticator.HandleNameStep | app/voice_auth.py:51-64 | The name step: on a match step 1 and the ID question, otherwise a retry |
| VoiceAuth.VoiceAuthenticator.HandleIdStep | app/voice_auth.py:66-77 | The ID step: on a match step 2 and the PIN question, otherwise a retry |
| VoiceAuth.VoiceAuthenticator.HandlePinStep | app/voice_auth.py:79-88 | The PIN step: on a match step 3 and the redirect with the success message, otherwise a retry |
| VoiceAuth.VoiceAuthenticator.HandleRetry | app/voice_auth.py:98-106 | One more attempt; the third hangs up and resets this caller only |
| VoiceAuth.AuthVoice | app/api/auth_voice.py:18-44 | A request without speech resets the caller and asks for the name; any other request is one `handle` step; other callers are untouched |
| AssistantUtils.Appended | app/assistant_utils.py:14-24 | The message then the reply are appended, and only the newest 20 entries are kept, in order |
| AssistantUtils.AppendedAlternates | app/assistant_utils.py:20-23 | Trimming drops whole exchanges, so the history keeps alternating caller, assistant from its first entry |
| AssistantUtils.ConversationStore.StoreHistory | app/assistant_utils.py:14-24 | The reply is returned unchanged; only this user's history changes, to `Appended`; the bound and the alternation are kept (also the verbatim copy at app/assistant.py:24-30) |
| AssistantUtils.AmountMatch | app/assistant_utils.py:35 | There is a match exactly when the text holds a digit; it is a non-empty range of the text |
| AssistantUtils.AmountMatchNone | app/assistant_utils.py:35-37 | No match exactly when no character is a digit |
| AssistantUtils.AmountMatchMatches | app/assistant_utils.py:35 | The range matched is a whole match of `\d+[,.]?\d*` and no digit comes before it |
| AssistantUtils.AmountMatchLongest | app/assistant_utils.py:35 | No longer range from the same start matches the pattern: the match is greedy, as the regular expression's |
| AssistantUtils.ExtractAmount | app/assistant_utils.py:27-41 | The amount is never negative, and it is 0.0 when the message without spaces has no digit (also the verbatim copy at app/assistant.py:33-40) |
| AssistantUtils.AmountOf | app/assistant_utils.py:35-39 | A message made of a whole part, one separator, a fraction and a non-digit rest reads as whole plus fraction |
| AssistantUtils.AmountOfWhole | app/assistant_utils.py:31 | A message that is only a numeral reads as its value |
| AssistantUtils.ExtractAmountWhole | app/assistant_utils.py:31 | "100" reads as 100 |
| AssistantUtils.ExtractAmountDecimalComma | app/assistant_utils.py:32 | "100,50" reads as 100.5 |
| AssistantUtils.ExtractAmountDecimalPoint | app/assistant_utils.py:33 | "100.50" reads as 100.5 |
| AssistantUtils.ExtractAmountOneSeparator | app/assistant_utils.py:35-39 | Only one separator is read: "1,000.50" reads as 1.0 |
| AssistantUtils.ExtractAmountNoDigits | app/assistant_utils.py:36-37 | A message without digits reads as 0.0 |
| AssistantUtils.ExtractHistoryLimit | app/assistant_utils.py:53-71 | The default when there is no number, when its digit run is longer than the 4300 digits `int()` converts (the `ValueError` branch), or when it is 0; otherwise the first number capped at the maximum; with a default in 1..max the result is in 1..max |
| AssistantUtils.HistoryLimitOf | app/assistant_utils.py:59-71 | A count after digit-free text is taken, 0 or a count of more than 4300 digits meaning 3, capped at 10 |
| AssistantUtils.HistoryLimitFive | app/assistant_utils.py:56 | "show last 5" asks for 5 |
| AssistantUtils.HistoryLimitCapped | app/assistant_utils.py:71 | "show 99" is capped at 10 |
| AssistantUtils.HistoryLimitZero | app/assistant_utils.py:68-69 | "show 0" falls back to the default 3 |
| AssistantUtils.HistoryLimitDefault | app/assistant_utils.py:57-61 | Without a number the default 3 applies |
| AssistantUtils.NewPendingTransfer | app/assistant_utils.py:77-86 | The record holds the given data and the stage defaults to 0 |
| Assistant.AuthenticateSpec | app/assistant.py:46-110 | A locked-out caller is refused whatever they say; without a user record the step raises; a message holding the expected text moves the step on by one (success at the PIN); any other adds a failure; an unknown step is reported |
| Assistant.AuthenticateMonotone | app/assistant.py:46-108 | Neither the step nor the failure count ever goes down |
| Assistant.LegacyRunMonotone | app/assistant.py:19 | Over a whole conversation failures are never cleared and the step never goes back |
| Assistant.LockoutIsPermanent | app/assistant.py:50-55 | Once three failures are reached nothing changes the caller's state again |
| Assistant.FailuresSurviveSuccess | app/assistant.py:60-73 | A failure followed by a success leaves the failure counted |
| Assistant.TransferWithoutAmount | app/assistant.py:137-143 | A transfer request without an amount is answered with the amount prompt |
| Assistant.TransferRefused | app/assistant.py:145-149 | A transfer the ledger refuses is answered with the ledger's message |
| Assistant.TransferConfirmed | app/assistant.py:151-156 | A transfer the ledger accepts is confirmed with the debited account |
| Assistant.LedgerRefusals | app/assistant.py:137-149 | With a positive amount only the funds, name and IBAN checks can refuse |
| Assistant.Assistant.constructor | app/assistant.py:11-19 | All dictionaries start empty |
| Assistant.Assistant.AuthenticateStep | app/assistant.py:46-110 | The caller's new state and turn are `AuthenticateSpec`'s; no other caller changes |
| Assistant.Assistant.ProcessMessage | app/assistant.py:116-180 | An unverified caller gets the check's answer and nothing else changes; a verified caller's reply follows the classified intent, exactly one exchange is stored, and the ledger changes only for a passing transfer request |
| Assistant.Answer | app/assistant.py:131-180 | The reply per intent, and the ledger moves only on a passing transfer |
| Assistant.AnswerTransfer | app/assistant.py:132-156 | No account, no amount, or the ledger's answer, and the ledger's new state |
| Assistant.SubmitTransfer | app/assistant.py:145-156 | The ledger's error message or the confirmation, with the ledger changed exactly as a transfer describes |
| Assistant.ProcessMessageAsWritten | app/assistant.py:124-129 | An unverified caller still gets the check's answer |
| Assistant.VerifiedCallerNeverServedAsWritten | app/assistant.py:129 | As written, every verified caller's turn raises `TypeError` |
| Assistant.TransferTurnAsWritten | app/assistant.py:132-149 | As written, a caller without an account is told so |
| Assistant.TransferRaisesAsWritten | app/assistant.py:146-147 | As written, "100" from a caller with an account raises instead of moving money |
| Assistant.TransferReachesLedger | app/assistant.py:146 | With the recipient supplied, the same request reaches the ledger |
| AuthService.VerifyUser | app/auth_service.py:50-60 | Refused for an unknown user; accepted exactly when the ID digits and PIN are equal and the stored name lower-cased equals the answer lower-cased and stripped |
| AuthService.VerifyIgnoresPadding | app/auth_service.py:58-59 | Whitespace around the maiden name answer does not change the verdict |
| AuthService.VerifyIgnoresCase | app/auth_service.py:58-59 | Nor does its letter case |
| AuthService.VerifyNeedsDigits | app/auth_service.py:56 | Wrong ID digits are refused whatever else is right |
| AuthService.TokenOf | app/auth_service.py:70-73 | A token is read exactly from a header starting with `Bearer `; it is the stripped rest |
| AuthService.GetUserIdFromToken | app/auth_service.py:63-78 | 401 without a Bearer prefix; 401 for an unknown token or an empty user id; otherwise the session's user id, one of the sessions' values |
| AuthService.LoginRoundTrip | app/auth_service.py:85-86 | A token issued for a user, presented as `Bearer <token>`, resolves to that user |
| AuthService.NoBearerRefused | app/auth_service.py:70-71 | Any header without the Bearer prefix is refused whatever the sessions |
| AuthService.Gateway.constructor | app/auth_service.py:32 | No session exists at the start |
| AuthService.Gateway.Authenticate | app/auth_service.py:80-93 | Bad credentials are refused with 401 and no session; good ones open exactly one session, for the requested user, under the token, and return it with the welcome message |
| AuthService.WithUserId | app/auth_service.py:102-103 | The payload gains `user_id` only when it has none; every key of the caller's payload keeps its value |
| AuthState.TokenRegistry.constructor | app/auth_state.py:3 | The registry starts empty |
| AuthState.TokenRegistry.IsTokenValid | app/auth_state.py:10-11 | Valid exactly when registered |
| AuthState.TokenRegistry.AddToken | app/auth_state.py:6-7 | The token becomes valid; no other token's validity changes |
| AuthState.AddTokenTwice | app/auth_state.py:6-7 | Calling `add_token` twice with the same token leaves the registry as one call does |
| AuthState.ValidOnlyIfAdded | app/auth_state.py:3-11 | After a series of additions a token is valid exactly when it was before or was added |

## Left out

- Unicode semantics: `lower()`, `strip()`, `isdigit()` and `\d` are modelled on ASCII letters, ASCII digits and Python's ASCII-range whitespace. Non-ASCII case mappings, digits and spaces are not modelled.
- Floating point: amounts and balances are exact decimals (`real`), so rounding of `float` is not modelled. `format_amount_pln` and the `:.2f` formatting are left out; the formatting is a parameter of the replies.
- Telephony markup: the TwiML objects are modelled as an abstract `Directive` (ask, hang up, redirect), and the log `print`s are left out.
- Foreign calls are parameters: the intent model's completion, `ask_llm`, `match_contact_label`, the clock stamp of a transaction and `secrets.token_urlsafe`.
- The SQL engine: the database is in-memory maps and sequences. `scalar_one_or_none` is modelled as at most one account per user (a map), and the error for several rows is not modelled.
- `defaultdict` materialising a key on read: a missing caller reads as 0 or empty, but the read does not insert the key.
- Banking.GetTransactionsForUser: the limit is a natural number. A negative SQL `LIMIT` is not modelled.
- Banking.ResolveSpec: the matcher's answer is taken as given. app/banking.py:8 imports `match_contact_label` from app/llm.py, which does not define it, so importing app/banking.py (and app/assistant.py through it) fails as written. The model takes the matcher as a parameter, as if it existed.
- Banking.Ledger.PerformTransfer: `recipient_name` is a string, so the `None` it may receive from a caller is read as empty.
- VoiceAuth.AuthVoice: takes a user record. A missing user, which makes the route's `handle` fail, is not modelled, and neither is the route's `BACKEND_USER_ID` (app/config.py does not define it).
- The `ValueError` branch of `extract_amount` cannot be reached once the pattern matched: `float()` accepts every such token. The `ValueError` branch of `extract_history_limit` is modelled with CPython's default limit of 4300 digits for `int()` (Python 3.11 and later); older interpreters have no such limit.
- The gateway's duplicate `FastAPI` instance, the CORS middleware and the forwarding of the proxied chat through `httpx` (with its error relay) are left out; only the payload's `user_id` default is modelled.
- The other routes (app/api/*.py other than `/auth/voice`), the seed data and the command-line helpers are not part of this model. The gateway user table and the assistant's seeded user do not agree; each is modelled as its own.
- There is no transfer-confirmation flow or recipient extraction in app/assistant.py, so neither is modelled. The router's `Recipient` is a parameter.

## Findings

| source | as written | input that shows it | evidently intended | confidence | as-written member | corrected member |
|---|---|---|---|---|---|---|
| app/assistant.py:129 | `detect_intent(message, history)`, while app/llm.py:12 takes the message alone | any message from a caller whose step is 3 | classify the message alone, then route on the intent | high; not executed | Assistant.VerifiedCallerNeverServedAsWritten | Assistant.Assistant.ProcessMessage |
| app/assistant.py:146 | `perform_transfer(db, user_id, amount)`, while app/banking.py:59-66 needs the recipient name, IBAN and title; the resulting `TypeError` is not caught | "100" from a verified caller with an account, intent `make_transfer` | pass the recipient data so that the ledger's checks and transaction run | high; not executed | Assistant.TransferRaisesAsWritten | Assistant.SubmitTransfer |
