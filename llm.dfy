/**
 * Post-processing of the intent classifier (app/llm.py, detect_intent).
 * The chat-completion request itself is a foreign call: its outcome is
 * an input here, either the message content the provider returned
 * (possibly none) or the fact that the call raised.
 */
module Llm {
  import opened Wrappers
  import opened Text

  /** What the provider call produced. */
  datatype Completion = Raised | Completed(content: Option<string>)

  const MakeTransfer := "make_transfer"
  const CheckBalance := "check_balance"
  const OtherIntent := "other"

  /** The closed vocabulary `detect_intent` answers with. */
  const Intents: set<string> := {MakeTransfer, CheckBalance, OtherIntent}

  /** The mapping applied to the model's stripped, lower-cased answer, with its Polish aliases. */
  const IntentTable: map<string, string> := map[
    "make_transfer" := MakeTransfer,
    "check_balance" := CheckBalance,
    "other" := OtherIntent,
    "przelew" := MakeTransfer,
    "saldo" := CheckBalance
  ]

  /** The answer as the table looks it up: stripped, then lower-cased. */
  function Key(content: string): (r: string) {
    Lower(Strip(content))
  }

  /** The table entry for the normalised answer, `other` for anything it does not list. */
  function NormalizeIntent(content: string): (r: string)
    ensures r in Intents
    ensures Key(content) in IntentTable ==> r == IntentTable[Key(content)]
    ensures Key(content) !in IntentTable ==> r == OtherIntent
  {
    var key := Key(content);
    if key in IntentTable then IntentTable[key] else OtherIntent
  }

  /** The intent for one classifier call; a call that raised fails closed to `other`. */
  function DetectIntent(c: Completion): (r: string)
    ensures r in Intents
    ensures c.Raised? ==> r == OtherIntent
    ensures c.Completed? && c.content.None? ==> r == OtherIntent
  {
    match c
    case Raised => OtherIntent
    case Completed(content) => NormalizeIntent(content.GetOr(""))
  }

  /** Whitespace the model puts around its answer does not change the intent. */
  lemma NormalizeIgnoresPadding(content: string, pre: string, post: string)
    requires AllSpace(pre) && AllSpace(post)
    ensures NormalizeIntent(pre + content + post) == NormalizeIntent(content)
  {
    StripPadded(pre, content, post);
  }

  /** Two answers that differ only in letter case give the same intent. */
  lemma NormalizeIgnoresCase(a: string, b: string)
    requires Lower(a) == Lower(b)
    ensures NormalizeIntent(a) == NormalizeIntent(b)
  {
    LowerStrip(a);
    LowerStrip(b);
  }

  /** An answer with no surrounding whitespace and no capital letter is its own key. */
  lemma OwnKey(content: string)
    requires content != [] && !IsSpace(content[0]) && !IsSpace(content[|content| - 1])
    requires forall i :: 0 <= i < |content| ==> !('A' <= content[i] <= 'Z')
    ensures Key(content) == content
  {
    StripUnpadded(content);
    LowerNoUpper(content);
  }

  /** An answer that is already its own key is looked up as it stands. */
  lemma KnownKey(content: string)
    requires Key(content) == content && content in IntentTable
    ensures NormalizeIntent(content) == IntentTable[content]
  {
  }

  lemma AliasEntries()
    ensures "przelew" in IntentTable && IntentTable["przelew"] == MakeTransfer
    ensures "saldo" in IntentTable && IntentTable["saldo"] == CheckBalance
  {
  }
}

/** The two Polish answers the classifier's table accepts. */
module LlmAliases {
  import opened Text
  import opened Llm

  /** `przelew` is its own lookup key. */
  lemma TransferAliasKey()
    ensures Key("przelew") == "przelew"
  {
    OwnKey("przelew");
  }

  /** `przelew` maps onto `make_transfer`. */
  lemma TransferAlias()
    ensures NormalizeIntent("przelew") == MakeTransfer
  {
    TransferAliasKey();
    AliasEntries();
    KnownKey("przelew");
  }

  /** `saldo` is its own lookup key. */
  lemma BalanceAliasKey()
    ensures Key("saldo") == "saldo"
  {
    OwnKey("saldo");
  }

  /** `saldo` maps onto `check_balance`. */
  lemma BalanceAlias()
    ensures NormalizeIntent("saldo") == CheckBalance
  {
    BalanceAliasKey();
    AliasEntries();
    KnownKey("saldo");
  }
}
