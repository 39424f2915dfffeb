/**
 * The conversation helpers of app/assistant_utils.py: the bounded per-user
 * history, the amount and history-limit parsers, and the pending-transfer
 * record. app/assistant.py carries verbatim copies of `_store_history` and
 * `extract_amount`; both are modelled by the definitions here.
 */
module AssistantUtils {
  import opened Wrappers
  import opened Text

  // ---------------------------------------------------------------------
  // Conversation history
  // ---------------------------------------------------------------------

  datatype Role = UserRole | AssistantRole

  /** `("user" | "assistant", text)` */
  datatype Entry = Entry(role: Role, text: string)

  /** Entries kept per user: ten user-assistant exchanges. */
  const HistoryCap: nat := 20

  /**
   * A user's history after one exchange is stored: the caller's message and
   * the reply appended in that order, then only the newest `HistoryCap`
   * entries kept.
   */
  function Appended(h: seq<Entry>, userMsg: string, reply: string): (r: seq<Entry>)
    ensures |r| == Min(|h| + 2, HistoryCap)
    ensures r[|r| - 2] == Entry(UserRole, userMsg) && r[|r| - 1] == Entry(AssistantRole, reply)
    ensures r == (h + [Entry(UserRole, userMsg), Entry(AssistantRole, reply)])[|h| + 2 - |r|..]
    ensures |h| + 2 <= HistoryCap ==> r == h + [Entry(UserRole, userMsg), Entry(AssistantRole, reply)]
  {
    var full := h + [Entry(UserRole, userMsg), Entry(AssistantRole, reply)];
    if |full| > HistoryCap then full[|full| - HistoryCap..] else full
  }

  /** Entries alternate user, assistant, user, ... and come in whole exchanges. */
  ghost predicate Alternating(h: seq<Entry>) {
    |h| % 2 == 0 &&
    forall i :: 0 <= i < |h| ==> h[i].role == (if i % 2 == 0 then UserRole else AssistantRole)
  }

  /** Trimming drops whole exchanges, so the roles keep alternating from a user entry. */
  lemma AppendedAlternates(h: seq<Entry>, userMsg: string, reply: string)
    requires Alternating(h)
    ensures Alternating(Appended(h, userMsg, reply))
  {
    var full := h + [Entry(UserRole, userMsg), Entry(AssistantRole, reply)];
    ExchangeAlternates(h, userMsg, reply);
    var r := Appended(h, userMsg, reply);
    assert r == full[|full| - |r|..];
    SuffixAlternates(full, |full| - |r|);
  }

  lemma ExchangeAlternates(h: seq<Entry>, userMsg: string, reply: string)
    requires Alternating(h)
    ensures Alternating(h + [Entry(UserRole, userMsg), Entry(AssistantRole, reply)])
  {
    var full := h + [Entry(UserRole, userMsg), Entry(AssistantRole, reply)];
    forall i | 0 <= i < |full|
      ensures full[i].role == (if i % 2 == 0 then UserRole else AssistantRole)
    {
      if i < |h| {
        assert full[i] == h[i];
      }
    }
  }

  /** Dropping an even number of entries from the front keeps the alternation. */
  lemma SuffixAlternates(h: seq<Entry>, d: nat)
    requires Alternating(h) && d <= |h| && d % 2 == 0
    ensures Alternating(h[d..])
  {
    var r := h[d..];
    forall i | 0 <= i < |r|
      ensures r[i].role == (if i % 2 == 0 then UserRole else AssistantRole)
    {
      assert r[i] == h[i + d];
      assert (i + d) % 2 == i % 2;
    }
  }

  /** `conversation_history`: the per-user histories, a missing user reading as empty. */
  class ConversationStore {
    var history: map<string, seq<Entry>>

    ghost predicate Valid()
      reads this
    {
      forall u :: u in history ==> |history[u]| <= HistoryCap && Alternating(history[u])
    }

    constructor ()
      ensures history == map[] && Valid()
    {
      history := map[];
    }

    function HistoryOf(userId: string): (r: seq<Entry>)
      reads this
    {
      if userId in history then history[userId] else []
    }

    /**
     * `store_history`: appends the exchange to this user's history only and
     * hands the reply back unchanged.
     */
    method StoreHistory(userId: string, userMsg: string, reply: string) returns (r: string)
      modifies this
      ensures r == reply
      ensures history == old(history)[userId := Appended(old(HistoryOf(userId)), userMsg, reply)]
      ensures old(Valid()) ==> Valid()
    {
      var h := HistoryOf(userId);
      if old(Valid()) {
        AppendedAlternates(h, userMsg, reply);
      }
      history := history[userId := Appended(h, userMsg, reply)];
      return reply;
    }
  }

  // ---------------------------------------------------------------------
  // Number parsing shared by the two parsers
  // ---------------------------------------------------------------------

  /** Where the first digit is. */
  function FirstDigit(s: string): (r: Option<nat>)
    ensures r.Some? ==> r.value < |s| && IsDigit(s[r.value])
    ensures r.Some? ==> forall k :: 0 <= k < r.value ==> !IsDigit(s[k])
    ensures r.None? ==> forall k :: 0 <= k < |s| ==> !IsDigit(s[k])
  {
    if s == [] then None
    else if IsDigit(s[0]) then Some(0)
    else match FirstDigit(s[1..])
      case None => None
      case Some(i) => Some(i + 1)
  }

  /** The longest run of digits `s` starts with (`\d+` / `\d*`, greedy). */
  function DigitRun(s: string): (r: string)
    ensures r <= s && AllDigits(r)
    ensures |r| == |s| || !IsDigit(s[|r|])
  {
    if s != [] && IsDigit(s[0]) then [s[0]] + DigitRun(s[1..]) else []
  }

  /** No run of digits at the start of `u` is longer than `DigitRun(u)`. */
  lemma {:induction false} DigitRunLongest(u: string, k: nat)
    requires k <= |u|
    ensures AllDigits(u[..k]) ==> k <= |DigitRun(u)|
    decreases k
  {
    if k > 0 && AllDigits(u[..k]) {
      assert IsDigit(u[..k][0]);
      assert u[1..][..k - 1] == u[..k][1..];
      DigitRunLongest(u[1..], k - 1);
    }
  }

  function DigitValue(c: char): (r: nat)
    requires IsDigit(c)
  {
    c as int - '0' as int
  }

  /** The value of a decimal numeral, as `int()` reads it. */
  function NatValue(ds: string): (r: nat)
    requires AllDigits(ds)
  {
    if ds == [] then 0 else NatValue(ds[..|ds| - 1]) * 10 + DigitValue(ds[|ds| - 1])
  }

  function Pow10(n: nat): (r: nat)
    ensures r >= 1
  {
    if n == 0 then 1 else 10 * Pow10(n - 1)
  }

  // ---------------------------------------------------------------------
  // extract_amount
  // ---------------------------------------------------------------------

  predicate IsSeparator(c: char) {
    c == ',' || c == '.'
  }

  /** Text the pattern `\d+[,.]?\d*` matches as a whole. */
  ghost predicate AmountPattern(t: string) {
    exists k :: 1 <= k <= |t| && AllDigits(t[..k]) && (k == |t| || (IsSeparator(t[k]) && AllDigits(t[k + 1..])))
  }

  /**
   * Where `re.search(r"(\d+[,.]?\d*)", s)` matches, as a half-open range:
   * it starts at the first digit, takes every digit that follows, then at
   * most one separator and the digits after it.
   */
  function AmountMatch(s: string): (r: Option<(nat, nat)>)
    ensures r.None? <==> FirstDigit(s).None?
    ensures r.Some? ==> r.value.0 < r.value.1 <= |s|
  {
    match FirstDigit(s)
    case None => None
    case Some(i) => Some((i, MatchEnd(s, i)))
  }

  /** Where a match starting at the digit `s[i]` ends. */
  function MatchEnd(s: string, i: nat): (e: nat)
    requires i < |s| && IsDigit(s[i])
    ensures i < i + |DigitRun(s[i..])| <= e <= |s|
  {
    assert IsDigit(s[i..][0]);
    var j := i + |DigitRun(s[i..])|;
    if j < |s| && IsSeparator(s[j]) then j + 1 + |DigitRun(s[j + 1..])| else j
  }

  /** There is a match exactly when the text holds a digit. */
  lemma AmountMatchNone(s: string)
    ensures AmountMatch(s).None? <==> forall k :: 0 <= k < |s| ==> !IsDigit(s[k])
  {
  }

  /** The match in terms of its digit runs: the whole part, then an optional separator and fraction. */
  lemma AmountMatchShape(s: string, i: nat, e: nat)
    requires AmountMatch(s) == Some((i, e))
    ensures i < |s| && IsDigit(s[i]) && forall k :: 0 <= k < i ==> !IsDigit(s[k])
    ensures var j := i + |DigitRun(s[i..])|;
      j <= |s| && i < j <= e
      && if j < |s| && IsSeparator(s[j]) then e == j + 1 + |DigitRun(s[j + 1..])| else e == j
  {
    assert FirstDigit(s) == Some(i);
  }

  /** The match is a whole match of the pattern and starts at the first digit. */
  lemma AmountMatchMatches(s: string, i: nat, e: nat)
    requires AmountMatch(s) == Some((i, e))
    ensures AmountPattern(s[i..e])
    ensures forall k :: 0 <= k < i ==> !IsDigit(s[k])
  {
    AmountMatchShape(s, i, e);
    var j := i + |DigitRun(s[i..])|;
    if j < |s| && IsSeparator(s[j]) {
      SeparatedMatches(s, i, e);
    } else {
      WholeMatches(s, i, e);
    }
  }

  lemma WholeMatches(s: string, i: nat, e: nat)
    requires i < e <= |s| && e == i + |DigitRun(s[i..])|
    ensures AmountPattern(s[i..e])
  {
    var t := s[i..e];
    assert t[..|t|] == DigitRun(s[i..]);
    PatternAt(t, |t|);
  }

  lemma SeparatedMatches(s: string, i: nat, e: nat)
    requires i <= |s|
    requires var j := i + |DigitRun(s[i..])|;
      i < j < |s| && IsSeparator(s[j]) && e == j + 1 + |DigitRun(s[j + 1..])| && e <= |s|
    ensures AmountPattern(s[i..e])
  {
    var w := DigitRun(s[i..]);
    var j := i + |w|;
    var t := s[i..e];
    assert t[..|w|] == w;
    assert t[|w|] == s[j];
    assert t[|w| + 1..] == DigitRun(s[j + 1..]);
    PatternAt(t, |w|);
  }

  /** A witness for `AmountPattern`: where the whole part ends. */
  lemma PatternAt(t: string, k: nat)
    requires 1 <= k <= |t| && AllDigits(t[..k])
    requires k == |t| || (IsSeparator(t[k]) && AllDigits(t[k + 1..]))
    ensures AmountPattern(t)
  {
  }

  /** A prefix `u[..k]` of a candidate `u = s[i..n]` that is all digits cannot end the pattern there. */
  lemma AmountCandidateFails(s: string, i: nat, e: nat, n: nat, k: nat)
    requires AmountMatch(s) == Some((i, e))
    requires e < n <= |s| && 1 <= k <= n - i
    requires AllDigits(s[i..n][..k])
    ensures !(k == n - i || (IsSeparator(s[i..n][k]) && AllDigits(s[i..n][k + 1..])))
  {
    AmountMatchShape(s, i, e);
    var u := s[i..n];
    var w := DigitRun(s[i..]);
    var j := i + |w|;
    assert u[..k] == s[i..][..k];
    DigitRunLongest(s[i..], k);
    if k < |w| {
      CandidateInsideRun(s, i, n, k);
    } else if IsSeparator(s[j]) {
      CandidateAfterSeparator(s, i, e, n, k);
    } else {
      assert u[k] == s[j];
    }
  }

  /** Inside the whole part the next character is a digit, not a separator. */
  lemma CandidateInsideRun(s: string, i: nat, n: nat, k: nat)
    requires i <= n <= |s| && k < |DigitRun(s[i..])| && k < n - i
    ensures !IsSeparator(s[i..n][k])
  {
    var w := DigitRun(s[i..]);
    assert s[i..n][k] == s[i..][k] == w[k];
    assert IsDigit(w[k]);
  }

  /** After the separator the digits end where the match ends, before `n`. */
  lemma CandidateAfterSeparator(s: string, i: nat, e: nat, n: nat, k: nat)
    requires i <= n <= |s| && k == |DigitRun(s[i..])| && i + k < n
    requires e == i + k + 1 + |DigitRun(s[i + k + 1..])| && e < n
    ensures !AllDigits(s[i..n][k + 1..])
  {
    var j := i + k;
    assert s[i..n][k + 1..] == s[j + 1..][..n - j - 1];
    DigitRunLongest(s[j + 1..], n - j - 1);
  }

  /**
   * The match is the regular expression's: no match can start further left
   * (every match starts with a digit, see `AmountMatchMatches`), and no
   * match starting there is longer.
   */
  lemma AmountMatchLongest(s: string, i: nat, e: nat)
    requires AmountMatch(s) == Some((i, e))
    ensures forall n :: e < n <= |s| ==> !AmountPattern(s[i..n])
  {
    forall n | e < n <= |s|
      ensures !AmountPattern(s[i..n])
    {
      forall k | 1 <= k <= |s[i..n]| && AllDigits(s[i..n][..k])
        ensures !(k == |s[i..n]| || (IsSeparator(s[i..n][k]) && AllDigits(s[i..n][k + 1..])))
      {
        AmountCandidateFails(s, i, e, n, k);
      }
    }
  }

  /** `float(token.replace(",", "."))` for a token the pattern matched, as an exact decimal. */
  function DecimalValue(t: string): (r: real)
    ensures r >= 0.0
  {
    var whole := DigitRun(t);
    var fraction := if |whole| < |t| then DigitRun(t[|whole| + 1..]) else [];
    NatValue(whole) as real + FractionValue(fraction)
  }

  /** Digits after the decimal point: `0.d1d2...`. */
  function FractionValue(ds: string): (r: real)
    requires AllDigits(ds)
    ensures 0.0 <= r
  {
    var n := NatValue(ds) as real;
    var p := Pow10(|ds|) as real;
    assert n / p >= 0.0 by { DivNonNegative(n, p); }
    n / p
  }

  lemma DivNonNegative(x: real, y: real)
    requires x >= 0.0 && y > 0.0
    ensures x / y >= 0.0
  {
    assert x / y * y == x;
  }

  /**
   * `extract_amount`: the value of the first number in the message once its
   * spaces are removed, a comma read as the decimal point; 0.0 when there is
   * no digit.
   */
  function ExtractAmount(message: string): (r: real)
    ensures r >= 0.0
    ensures (forall k :: 0 <= k < |RemoveSpaces(message)| ==> !IsDigit(RemoveSpaces(message)[k])) ==> r == 0.0
  {
    var s := RemoveSpaces(message);
    match AmountMatch(s)
    case None => 0.0
    case Some((i, e)) => DecimalValue(s[i..e])
  }

  lemma {:induction false} RemoveSpacesNone(s: string)
    requires ' ' !in s
    ensures RemoveSpaces(s) == s
    decreases |s|
  {
    if s != [] {
      assert ' ' !in s[1..] by { assert forall k :: 0 <= k < |s[1..]| ==> s[1..][k] == s[k + 1]; }
      RemoveSpacesNone(s[1..]);
      assert s == [s[0]] + s[1..];
    }
  }

  /** The digit run of digits followed by something else is those digits. */
  lemma {:induction false} DigitRunOf(d: string, rest: string)
    requires AllDigits(d) && (rest == [] || !IsDigit(rest[0]))
    ensures DigitRun(d + rest) == d
    decreases |d|
  {
    if d == [] {
      assert d + rest == rest;
    } else {
      assert (d + rest)[1..] == d[1..] + rest;
      assert AllDigits(d[1..]) by { assert forall k :: 0 <= k < |d[1..]| ==> d[1..][k] == d[k + 1]; }
      DigitRunOf(d[1..], rest);
      assert d == [d[0]] + d[1..];
    }
  }

  /** Where the amount is in a message with no spaces made of a whole part, a separator, a fraction and what follows. */
  lemma AmountMatchOf(whole: string, sep: char, fraction: string, rest: string)
    requires |whole| >= 1 && AllDigits(whole) && IsSeparator(sep) && AllDigits(fraction)
    requires rest == [] || !IsDigit(rest[0])
    ensures AmountMatch(whole + [sep] + fraction + rest) == Some((0, |whole| + 1 + |fraction|))
  {
    var m := whole + [sep] + fraction + rest;
    assert m[0..] == whole + ([sep] + fraction + rest);
    DigitRunOf(whole, [sep] + fraction + rest);
    FractionRun(whole, sep, fraction, rest);
    AmountMatchFrom(m, |whole|, |fraction|);
  }

  lemma FractionRun(whole: string, sep: char, fraction: string, rest: string)
    requires AllDigits(fraction) && (rest == [] || !IsDigit(rest[0]))
    ensures var m := whole + [sep] + fraction + rest;
      m[|whole|] == sep && |DigitRun(m[|whole| + 1..])| == |fraction|
  {
    var m := whole + [sep] + fraction + rest;
    assert m[|whole| + 1..] == fraction + rest;
    DigitRunOf(fraction, rest);
  }

  /** A match read off from the digit runs of a message that starts with a digit. */
  lemma AmountMatchFrom(m: string, w: nat, f: nat)
    requires m != [] && IsDigit(m[0]) && |DigitRun(m[0..])| == w < |m| && IsSeparator(m[w])
    requires |DigitRun(m[w + 1..])| == f
    ensures AmountMatch(m) == Some((0, w + 1 + f))
  {
    assert FirstDigit(m) == Some(0);
  }

  /** The value of a token made of a whole part, a separator and a fraction. */
  lemma DecimalValueOf(whole: string, sep: char, fraction: string)
    requires AllDigits(whole) && IsSeparator(sep) && AllDigits(fraction)
    ensures DecimalValue(whole + [sep] + fraction) == NatValue(whole) as real + FractionValue(fraction)
  {
    var t := whole + [sep] + fraction;
    assert t == whole + ([sep] + fraction);
    DigitRunOf(whole, [sep] + fraction);
    assert t[|whole| + 1..] == fraction + [];
    DigitRunOf(fraction, []);
  }

  lemma AmountOf(whole: string, sep: char, fraction: string, rest: string)
    requires |whole| >= 1 && AllDigits(whole) && IsSeparator(sep) && AllDigits(fraction)
    requires rest == [] || !IsDigit(rest[0])
    requires ' ' !in whole + [sep] + fraction + rest
    ensures ExtractAmount(whole + [sep] + fraction + rest) == NatValue(whole) as real + FractionValue(fraction)
  {
    var m := whole + [sep] + fraction + rest;
    RemoveSpacesNone(m);
    AmountMatchOf(whole, sep, fraction, rest);
    assert m[0..|whole| + 1 + |fraction|] == whole + [sep] + fraction;
    DecimalValueOf(whole, sep, fraction);
  }

  /** A message that is a whole number and nothing else. */
  lemma AmountOfWhole(whole: string)
    requires |whole| >= 1 && AllDigits(whole)
    ensures ExtractAmount(whole) == NatValue(whole) as real
  {
    assert ' ' !in whole by { assert forall k :: 0 <= k < |whole| ==> IsDigit(whole[k]); }
    RemoveSpacesNone(whole);
    assert IsDigit(whole[0]);
    assert whole[0..] == whole + [];
    DigitRunOf(whole, []);
    assert whole[0..|whole|] == whole + [];
    assert DigitRun(whole) == whole;
  }

  lemma ExtractAmountWhole()
    ensures ExtractAmount("100") == 100.0
  {
    assert NatValue("100") == 100 by {
      assert "100"[..2] == "10" && "10"[..1] == "1" && "1"[..0] == "";
    }
    AmountOfWhole("100");
  }

  lemma OneHundredAndAHalf()
    ensures NatValue("100") == 100
    ensures FractionValue("50") == 0.5
  {
    assert "100"[..2] == "10" && "10"[..1] == "1" && "1"[..0] == "";
    assert NatValue("50") == 50 by {
      assert "50"[..1] == "5" && "5"[..0] == "";
    }
    assert Pow10(2) == 100;
  }

  /** A decimal comma reads as the decimal point. */
  lemma ExtractAmountDecimalComma()
    ensures ExtractAmount("100,50") == 100.5
  {
    OneHundredAndAHalf();
    assert "100" + [','] + "50" + "" == "100,50";
    AmountOf("100", ',', "50", "");
  }

  lemma ExtractAmountDecimalPoint()
    ensures ExtractAmount("100.50") == 100.5
  {
    OneHundredAndAHalf();
    assert "100" + ['.'] + "50" + "" == "100.50";
    AmountOf("100", '.', "50", "");
  }

  /** Only one separator is read: "1,000.50" parses as 1.0. */
  lemma ExtractAmountOneSeparator()
    ensures ExtractAmount("1,000.50") == 1.0
  {
    OneSeparatorParts();
    AmountOf("1", ',', "000", ".50");
  }

  lemma OneSeparatorParts()
    ensures "1" + [','] + "000" + ".50" == "1,000.50"
    ensures NatValue("1") == 1 && FractionValue("000") == 0.0
    ensures AllDigits("1") && AllDigits("000") && !IsDigit(".50"[0])
    ensures ' ' !in "1,000.50"
  {
    assert NatValue("1") == 1 by { assert "1"[..0] == ""; }
    assert NatValue("000") == 0 by {
      assert "000"[..2] == "00" && "00"[..1] == "0" && "0"[..0] == "";
    }
  }

  /** A message without digits asks for no amount. */
  lemma ExtractAmountNoDigits()
    ensures ExtractAmount("send money") == 0.0
  {
    SendMoneyHasNoDigit();
    NoDigitAmount("send money");
  }

  lemma SendMoneyHasNoDigit()
    ensures forall k :: 0 <= k < |"send money"| ==> !IsDigit("send money"[k])
  {
  }

  lemma NoDigitAmount(s: string)
    requires forall k :: 0 <= k < |s| ==> !IsDigit(s[k])
    ensures ExtractAmount(s) == 0.0
  {
    NoDigitsRemoveSpaces(s);
  }

  lemma {:induction false} NoDigitsRemoveSpaces(s: string)
    requires forall k :: 0 <= k < |s| ==> !IsDigit(s[k])
    ensures forall k :: 0 <= k < |RemoveSpaces(s)| ==> !IsDigit(RemoveSpaces(s)[k])
    decreases |s|
  {
    if s != [] {
      assert forall k :: 0 <= k < |s[1..]| ==> s[1..][k] == s[k + 1];
      NoDigitsRemoveSpaces(s[1..]);
    }
  }

  // ---------------------------------------------------------------------
  // extract_history_limit
  // ---------------------------------------------------------------------

  /**
   * The longest numeral `int()` converts: CPython (from 3.11, and 3.10.7)
   * raises `ValueError` on a decimal string of more digits than this.
   */
  const IntMaxStrDigits: nat := 4300

  /**
   * `extract_history_limit`: the first run of digits as a count; `default`
   * when there is none, when `int()` refuses it as too long, or when it is
   * 0, otherwise capped at `maxLimit`.
   */
  function ExtractHistoryLimit(message: string, default: int, maxLimit: int): (r: int)
    ensures FirstDigit(message).None? ==> r == default
    ensures FirstDigit(message).Some? ==>
      var run := DigitRun(message[FirstDigit(message).value..]);
      |run| > IntMaxStrDigits ==> r == default
    ensures FirstDigit(message).Some? ==>
      var run := DigitRun(message[FirstDigit(message).value..]);
      var n := NatValue(run);
      |run| <= IntMaxStrDigits ==> r == if n == 0 then default else if n < maxLimit then n else maxLimit
    ensures 1 <= default <= maxLimit ==> 1 <= r <= maxLimit
  {
    match FirstDigit(message)
    case None => default
    case Some(i) =>
      var run := DigitRun(message[i..]);
      if |run| > IntMaxStrDigits then default
      else
        var n := NatValue(run);
        if n <= 0 then default
        else if n <= maxLimit then n else maxLimit
  }

  /** Text without digits in front of a message moves its first digit along. */
  lemma {:induction false} FirstDigitAfter(p: string, s: string)
    requires forall k :: 0 <= k < |p| ==> !IsDigit(p[k])
    ensures FirstDigit(p + s) == match FirstDigit(s) case None => None case Some(i) => Some(|p| + i)
    decreases |p|
  {
    if p == [] {
      assert p + s == s;
    } else {
      assert (p + s)[1..] == p[1..] + s;
      assert forall k :: 0 <= k < |p[1..]| ==> p[1..][k] == p[k + 1];
      FirstDigitAfter(p[1..], s);
    }
  }

  /** A count after a digit-free lead-in, with the defaults 3 and 10. */
  lemma HistoryLimitOf(lead: string, count: string)
    requires forall k :: 0 <= k < |lead| ==> !IsDigit(lead[k])
    requires AllDigits(count) && |count| >= 1
    ensures var n := NatValue(count);
      ExtractHistoryLimit(lead + count, 3, 10)
      == if |count| > IntMaxStrDigits || n == 0 then 3 else if n < 10 then n else 10
  {
    FirstDigitAfter(lead, count);
    assert (lead + count)[|lead|..] == count + [];
    DigitRunOf(count, []);
  }

  lemma HistoryLimitFive()
    ensures ExtractHistoryLimit("show last 5", 3, 10) == 5
  {
    assert NatValue("5") == 5 by { assert "5"[..0] == ""; }
    assert "show last " + "5" == "show last 5";
    HistoryLimitOf("show last ", "5");
  }

  /** A count above the maximum is capped. */
  lemma HistoryLimitCapped()
    ensures ExtractHistoryLimit("show 99", 3, 10) == 10
  {
    assert NatValue("99") == 99 by { assert "99"[..1] == "9" && "9"[..0] == ""; }
    assert "show " + "99" == "show 99";
    HistoryLimitOf("show ", "99");
  }

  /** A count of 0 falls back to the default. */
  lemma HistoryLimitZero()
    ensures ExtractHistoryLimit("show 0", 3, 10) == 3
  {
    assert NatValue("0") == 0 by { assert "0"[..0] == ""; }
    assert "show " + "0" == "show 0";
    HistoryLimitOf("show ", "0");
  }

  /** Without a number the default applies. */
  lemma HistoryLimitDefault()
    ensures ExtractHistoryLimit("show history", 3, 10) == 3
  {
    ShowHistoryHasNoDigit();
    NoDigitLimit("show history", 3, 10);
  }

  lemma ShowHistoryHasNoDigit()
    ensures forall k :: 0 <= k < |"show history"| ==> !IsDigit("show history"[k])
  {
  }

  lemma NoDigitLimit(s: string, default: int, maxLimit: int)
    requires forall k :: 0 <= k < |s| ==> !IsDigit(s[k])
    ensures ExtractHistoryLimit(s, default, maxLimit) == default
  {
  }

  // ---------------------------------------------------------------------
  // Pending transfers
  // ---------------------------------------------------------------------

  /** A transfer waiting for confirmation; stage 1 is the first question, 2 the final one. */
  datatype PendingTransfer = PendingTransfer(
    userId: string, amount: real, recipientName: string, recipientIban: string,
    title: string, currency: string, confirmationStage: int)

  /** The dataclass called without a stage: the stage defaults to 0. */
  function NewPendingTransfer(userId: string, amount: real, recipientName: string, recipientIban: string,
                              title: string, currency: string): (p: PendingTransfer)
    ensures p.confirmationStage == 0
    ensures p.userId == userId && p.amount == amount && p.recipientName == recipientName
    ensures p.recipientIban == recipientIban && p.title == title && p.currency == currency
  {
    PendingTransfer(userId, amount, recipientName, recipientIban, title, currency, 0)
  }

  /** `pending_transfers`: keyed by user id, so at most one per user. */
  type PendingTransfers = map<string, PendingTransfer>
}
