/**
 * The ledger rules of app/banking.py over an in-memory database: users,
 * one account per user, saved contacts and the transaction log.
 * Amounts and balances are exact decimals (`real`).
 */
module Banking {
  import opened Wrappers
  import opened Text

  datatype User = User(id: string, name: string, pesel: string, pinCode: string, phone: string)

  datatype Account = Account(id: string, userId: string, iban: string, balance: real, currency: string)

  datatype Contact = Contact(userId: string, nickname: string, fullName: string, iban: string, defaultTitle: string)

  datatype Transaction = Transaction(
    senderId: string, recipientName: string, recipientIban: string,
    title: string, amount: real, timestamp: int)

  /** What the contact matcher is shown of each contact. */
  datatype ContactLabel = ContactLabel(nickname: string, fullName: string)

  /** `match_contact_label(label, contact_dicts)`: a foreign call; its answer is taken as given. */
  type Matcher = (string, seq<ContactLabel>) -> Option<string>

  // ---------------------------------------------------------------------
  // resolve_contact
  // ---------------------------------------------------------------------

  /** The contacts a user saved, in database order. */
  function ContactsOf(contacts: seq<Contact>, userId: string): (r: seq<Contact>)
    ensures forall i :: 0 <= i < |r| ==> r[i] in contacts && r[i].userId == userId
    ensures forall c :: c in contacts && c.userId == userId ==> c in r
  {
    if contacts == [] then []
    else (if contacts[0].userId == userId then [contacts[0]] else []) + ContactsOf(contacts[1..], userId)
  }

  function Labels(cs: seq<Contact>): (r: seq<ContactLabel>)
    ensures |r| == |cs|
  {
    seq(|cs|, i requires 0 <= i < |cs| => ContactLabel(cs[i].nickname, cs[i].fullName))
  }

  datatype Field = Nickname | FullName

  function FieldOf(c: Contact, f: Field): (r: string) {
    match f
    case Nickname => c.nickname
    case FullName => c.fullName
  }

  /** The first contact whose field, lower-cased, equals `key`. */
  function IndexOf(cs: seq<Contact>, f: Field, key: string): (r: Option<nat>)
    ensures r.Some? ==> r.value < |cs| && Lower(FieldOf(cs[r.value], f)) == key
    ensures r.Some? ==> forall j :: 0 <= j < r.value ==> Lower(FieldOf(cs[j], f)) != key
    ensures r.None? ==> forall j :: 0 <= j < |cs| ==> Lower(FieldOf(cs[j], f)) != key
  {
    if cs == [] then None
    else if Lower(FieldOf(cs[0], f)) == key then Some(0)
    else match IndexOf(cs[1..], f, key)
      case None => None
      case Some(i) => Some(i + 1)
  }

  /** A match with no match before it is the one `IndexOf` finds. */
  lemma IndexOfFirst(cs: seq<Contact>, f: Field, key: string, i: nat)
    requires i < |cs| && Lower(FieldOf(cs[i], f)) == key
    requires forall j :: 0 <= j < i ==> Lower(FieldOf(cs[j], f)) != key
    ensures IndexOf(cs, f, key) == Some(i)
  {
  }

  /**
   * The contact `resolve_contact` returns: nothing for an empty label, a user
   * without contacts or an empty answer from the matcher; otherwise the first
   * contact whose nickname is the answer (case-insensitively), else the first
   * whose full name is.
   */
  function ResolveSpec(contacts: seq<Contact>, userId: string, phrase: Option<string>, matcher: Matcher): (r: Option<Contact>)
    ensures r.Some? ==> r.value in contacts && r.value.userId == userId
    ensures Strip(phrase.GetOr("")) == [] ==> r.None?
    ensures ContactsOf(contacts, userId) == [] ==> r.None?
    ensures var lbl := Strip(phrase.GetOr("")); var mine := ContactsOf(contacts, userId);
      lbl != [] && mine != [] ==>
        var chosen := matcher(lbl, Labels(mine));
        (chosen.None? || chosen.value == [] ==> r.None?)
        && (chosen.Some? && chosen.value != [] ==>
              var key := Lower(Strip(chosen.value));
              && (r.Some? ==> Lower(r.value.nickname) == key || Lower(r.value.fullName) == key)
              && ((exists i :: 0 <= i < |mine| && Lower(mine[i].nickname) == key) ==>
                    r.Some? && Lower(r.value.nickname) == key)
              && (IndexOf(mine, Nickname, key).Some? ==> r == Some(mine[IndexOf(mine, Nickname, key).value]))
              && (IndexOf(mine, Nickname, key).None? && IndexOf(mine, FullName, key).Some? ==>
                    r == Some(mine[IndexOf(mine, FullName, key).value]))
              && (IndexOf(mine, Nickname, key).None? && IndexOf(mine, FullName, key).None? ==> r.None?))
  {
    var lbl := Strip(phrase.GetOr(""));
    var mine := ContactsOf(contacts, userId);
    if lbl == [] || mine == [] then None
    else
      var chosen := matcher(lbl, Labels(mine));
      if chosen.None? || chosen.value == [] then None
      else
        var key := Lower(Strip(chosen.value));
        match IndexOf(mine, Nickname, key)
        case Some(i) => Some(mine[i])
        case None =>
          match IndexOf(mine, FullName, key)
          case Some(j) => Some(mine[j])
          case None => None
  }

  /** `resolve_contact`: the two early-return searches over the user's contacts. */
  method ResolveContact(contacts: seq<Contact>, userId: string, phrase: Option<string>, matcher: Matcher)
    returns (r: Option<Contact>)
    ensures r == ResolveSpec(contacts, userId, phrase, matcher)
  {
    var lbl := Strip(phrase.GetOr(""));
    if lbl == [] {
      return None;
    }
    var mine := ContactsOf(contacts, userId);
    if mine == [] {
      return None;
    }
    var chosen := matcher(lbl, Labels(mine));
    if chosen.None? || chosen.value == [] {
      return None;
    }
    var key := Lower(Strip(chosen.value));
    r := FindByField(mine, Nickname, key);
    if r.Some? {
      return;
    }
    r := FindByField(mine, FullName, key);
  }

  /** One of the two searches: the first contact whose field, lower-cased, is `key`. */
  method FindByField(mine: seq<Contact>, f: Field, key: string) returns (r: Option<Contact>)
    ensures r == match IndexOf(mine, f, key) case Some(i) => Some(mine[i]) case None => None
  {
    var i := 0;
    while i < |mine|
      invariant 0 <= i <= |mine|
      invariant forall j :: 0 <= j < i ==> Lower(FieldOf(mine[j], f)) != key
    {
      if Lower(FieldOf(mine[i], f)) == key {
        IndexOfFirst(mine, f, key, i);
        return Some(mine[i]);
      }
      i := i + 1;
    }
    return None;
  }

  // ---------------------------------------------------------------------
  // perform_transfer
  // ---------------------------------------------------------------------

  const NoAccountError := "No account found for this user."
  const NonPositiveError := "Transfer amount must be positive."
  const InsufficientFundsError := "Insufficient funds on the account."
  const MissingNameError := "Recipient name is missing."
  const MissingIbanError := "Recipient IBAN is missing."

  /** The `ValueError` message `perform_transfer` raises, checked in the source's order. */
  function TransferError(account: Option<Account>, amount: real, recipientName: string, recipientIban: string): (r: Option<string>)
  {
    if account.None? then Some(NoAccountError)
    else if amount <= 0.0 then Some(NonPositiveError)
    else if account.value.balance < amount then Some(InsufficientFundsError)
    else if recipientName == [] then Some(MissingNameError)
    else if recipientIban == [] then Some(MissingIbanError)
    else None
  }

  /** Total amount a user has sent, over the transaction log. */
  function SentBy(txs: seq<Transaction>, userId: string): (r: real) {
    if txs == [] then 0.0
    else (if txs[0].senderId == userId then txs[0].amount else 0.0) + SentBy(txs[1..], userId)
  }

  lemma {:induction false} SentByAppend(txs: seq<Transaction>, t: Transaction, userId: string)
    ensures SentBy(txs + [t], userId) == SentBy(txs, userId) + (if t.senderId == userId then t.amount else 0.0)
    decreases |txs|
  {
    if txs == [] {
      assert txs + [t] == [t];
      assert [t][1..] == [];
    } else {
      assert (txs + [t])[1..] == txs[1..] + [t];
      SentByAppend(txs[1..], t, userId);
    }
  }

  /**
   * A transfer is accepted exactly when every check passes; which error
   * wins when several fail follows the source's order.
   */
  lemma TransferChecks(account: Option<Account>, amount: real, name: string, iban: string)
    ensures TransferError(account, amount, name, iban).None? <==>
      account.Some? && amount > 0.0 && account.value.balance >= amount && name != [] && iban != []
    ensures account.None? ==> TransferError(account, amount, name, iban) == Some(NoAccountError)
    ensures account.Some? && amount <= 0.0 ==> TransferError(account, amount, name, iban) == Some(NonPositiveError)
    ensures account.Some? && amount > 0.0 && account.value.balance < amount ==>
      TransferError(account, amount, name, iban) == Some(InsufficientFundsError)
    ensures account.Some? && amount > 0.0 && account.value.balance >= amount && name == [] ==>
      TransferError(account, amount, name, iban) == Some(MissingNameError)
    ensures account.Some? && amount > 0.0 && account.value.balance >= amount && name != [] && iban == [] ==>
      TransferError(account, amount, name, iban) == Some(MissingIbanError)
    ensures TransferError(account, amount, name, iban).None? ==> account.value.balance - amount >= 0.0
  {
  }

  // ---------------------------------------------------------------------
  // get_transactions_for_user
  // ---------------------------------------------------------------------

  /** `WHERE sender_id = user_id`, in log order. */
  function FromSender(txs: seq<Transaction>, userId: string): (r: seq<Transaction>)
    ensures forall t :: t in r ==> t.senderId == userId
    ensures forall t :: multiset(r)[t] == if t.senderId == userId then multiset(txs)[t] else 0
  {
    if txs == [] then []
    else
      assert txs == [txs[0]] + txs[1..];
      (if txs[0].senderId == userId then [txs[0]] else []) + FromSender(txs[1..], userId)
  }

  ghost predicate NewestFirst(s: seq<Transaction>) {
    forall i, j :: 0 <= i < j < |s| ==> s[i].timestamp >= s[j].timestamp
  }

  /** A transaction no older than the head of an ordered history can go in front of it. */
  lemma ConsNewestFirst(x: Transaction, s: seq<Transaction>)
    requires NewestFirst(s) && (s != [] ==> x.timestamp >= s[0].timestamp)
    ensures NewestFirst([x] + s)
  {
    var r := [x] + s;
    forall i, j | 0 <= i < j < |r|
      ensures r[i].timestamp >= r[j].timestamp
    {
      if i == 0 && j > 1 {
        assert r[1] == s[0] && r[j] == s[j - 1];
      }
    }
  }

  /** Puts `t` in front of the first transaction that is not newer than it. */
  function Insert(t: Transaction, s: seq<Transaction>): (r: seq<Transaction>)
    ensures multiset(r) == multiset(s) + multiset{t}
    ensures |r| == |s| + 1 && (r[0] == t || (s != [] && r[0] == s[0]))
  {
    if s == [] || t.timestamp >= s[0].timestamp then [t] + s
    else
      assert s == [s[0]] + s[1..];
      [s[0]] + Insert(t, s[1..])
  }

  lemma TailNewestFirst(s: seq<Transaction>)
    requires s != [] && NewestFirst(s)
    ensures NewestFirst(s[1..])
  {
    forall i, j | 0 <= i < j < |s[1..]|
      ensures s[1..][i].timestamp >= s[1..][j].timestamp
    {
      assert s[1..][i] == s[i + 1] && s[1..][j] == s[j + 1];
    }
  }

  /** Inserting into a history ordered newest first keeps it ordered. */
  lemma {:induction false} InsertKeepsOrder(t: Transaction, s: seq<Transaction>)
    requires NewestFirst(s)
    ensures NewestFirst(Insert(t, s))
  {
    if s == [] || t.timestamp >= s[0].timestamp {
      ConsNewestFirst(t, s);
    } else {
      TailNewestFirst(s);
      InsertKeepsOrder(t, s[1..]);
      var rest := Insert(t, s[1..]);
      assert rest[0] == t || rest[0] == s[1];
      ConsNewestFirst(s[0], rest);
    }
  }

  /** `ORDER BY timestamp DESC`. */
  function SortNewestFirst(s: seq<Transaction>): (r: seq<Transaction>)
    ensures NewestFirst(r)
    ensures multiset(r) == multiset(s)
    ensures |r| == |s|
  {
    if s == [] then []
    else
      assert s == [s[0]] + s[1..];
      var rest := SortNewestFirst(s[1..]);
      InsertKeepsOrder(s[0], rest);
      Insert(s[0], rest)
  }

  /** Reordering keeps every element where it came from. */
  lemma PermutationMembers(s: seq<Transaction>, r: seq<Transaction>, i: nat)
    requires multiset(r) == multiset(s) && i < |r|
    ensures r[i] in s
  {
    assert r[i] in multiset(r);
  }

  /** `LIMIT n` when a limit is given. */
  function Take(s: seq<Transaction>, limit: Option<nat>): (r: seq<Transaction>)
    ensures r <= s
    ensures limit.None? ==> r == s
    ensures limit.Some? ==> |r| == Min(limit.value, |s|)
    ensures NewestFirst(s) ==> NewestFirst(r)
  {
    match limit
    case None => s
    case Some(n) => if n < |s| then s[..n] else s
  }

  /** `get_transactions_for_user`: the user's outgoing transfers, newest first, at most `limit` of them. */
  function GetTransactionsForUser(txs: seq<Transaction>, userId: string, limit: Option<nat>): (r: seq<Transaction>)
    ensures forall i :: 0 <= i < |r| ==> r[i].senderId == userId
    ensures NewestFirst(r)
    ensures limit.Some? ==> |r| == Min(limit.value, |FromSender(txs, userId)|)
    ensures r <= SortNewestFirst(FromSender(txs, userId))
  {
    var sorted := SortNewestFirst(FromSender(txs, userId));
    SortedSenders(txs, userId);
    TakeKeepsSenders(sorted, limit, userId);
    Take(sorted, limit)
  }

  lemma TakeKeepsSenders(s: seq<Transaction>, limit: Option<nat>, userId: string)
    requires forall i :: 0 <= i < |s| ==> s[i].senderId == userId
    ensures var r := Take(s, limit); forall i :: 0 <= i < |r| ==> r[i].senderId == userId
  {
    var r := Take(s, limit);
    assert forall i :: 0 <= i < |r| ==> r[i] == s[i];
  }

  /** Sorting the user's transfers keeps them the user's transfers. */
  lemma SortedSenders(txs: seq<Transaction>, userId: string)
    ensures var sorted := SortNewestFirst(FromSender(txs, userId));
      forall i :: 0 <= i < |sorted| ==> sorted[i].senderId == userId
  {
    var from := FromSender(txs, userId);
    var sorted := SortNewestFirst(from);
    forall i | 0 <= i < |sorted|
      ensures sorted[i].senderId == userId
    {
      PermutationMembers(from, sorted, i);
    }
  }

  /** The history holds only the user's own transfers, and all of them when no limit is given. */
  lemma HistoryIsOwnTransfers(txs: seq<Transaction>, userId: string, limit: Option<nat>)
    ensures multiset(GetTransactionsForUser(txs, userId, limit)) <= multiset(FromSender(txs, userId))
    ensures limit.None? ==> multiset(GetTransactionsForUser(txs, userId, limit)) == multiset(FromSender(txs, userId))
  {
    var sorted := SortNewestFirst(FromSender(txs, userId));
    var r := GetTransactionsForUser(txs, userId, limit);
    PrefixMultiset(sorted, |r|);
  }

  lemma PrefixOlder(s: seq<Transaction>, k: nat, t: Transaction, i: nat)
    requires NewestFirst(s) && i < k <= |s|
    requires t in multiset(s) - multiset(s[..k])
    ensures t.timestamp <= s[i].timestamp
  {
    PrefixMultiset(s, k);
    assert t in multiset(s[k..]);
    var m :| 0 <= m < |s[k..]| && s[k..][m] == t;
    assert s[k + m] == t;
  }

  lemma PrefixMultiset(s: seq<Transaction>, k: nat)
    requires k <= |s|
    ensures multiset(s) == multiset(s[..k]) + multiset(s[k..])
  {
    assert s == s[..k] + s[k..];
  }

  /** What a limit leaves out is never newer than what it keeps. */
  lemma LimitKeepsNewest(txs: seq<Transaction>, userId: string, limit: Option<nat>, t: Transaction, i: nat)
    requires i < |GetTransactionsForUser(txs, userId, limit)|
    requires t in multiset(FromSender(txs, userId)) - multiset(GetTransactionsForUser(txs, userId, limit))
    ensures t.timestamp <= GetTransactionsForUser(txs, userId, limit)[i].timestamp
  {
    var sorted := SortNewestFirst(FromSender(txs, userId));
    var r := GetTransactionsForUser(txs, userId, limit);
    PrefixOlder(sorted, |r|, t, i);
  }

  // ---------------------------------------------------------------------
  // The database
  // ---------------------------------------------------------------------

  class Ledger {
    var users: map<string, User>
    /** Accounts by the id of the user who owns them (`scalar_one_or_none`: at most one). */
    var accounts: map<string, Account>
    var contacts: seq<Contact>
    var transactions: seq<Transaction>

    /** Users are stored under their id, accounts under the id of their owner. */
    ghost predicate Valid()
      reads this
    {
      && (forall u :: u in users ==> users[u].id == u)
      && (forall u :: u in accounts ==> accounts[u].userId == u)
    }

    constructor (users: map<string, User>, accounts: map<string, Account>, contacts: seq<Contact>, transactions: seq<Transaction>)
      requires forall u :: u in users ==> users[u].id == u
      requires forall u :: u in accounts ==> accounts[u].userId == u
      ensures Valid()
      ensures this.users == users && this.accounts == accounts
      ensures this.contacts == contacts && this.transactions == transactions
    {
      this.users := users;
      this.accounts := accounts;
      this.contacts := contacts;
      this.transactions := transactions;
    }

    /** `get_user` */
    function GetUser(userId: string): (r: Option<User>)
      reads this
      ensures r.Some? <==> userId in users
      ensures r.Some? ==> r.value == users[userId]
      ensures Valid() && r.Some? ==> r.value.id == userId
    {
      if userId in users then Some(users[userId]) else None
    }

    /** `get_account_for_user` */
    function GetAccountForUser(userId: string): (r: Option<Account>)
      reads this
      ensures r.Some? <==> userId in accounts
      ensures r.Some? ==> r.value == accounts[userId]
      ensures Valid() && r.Some? ==> r.value.userId == userId
    {
      if userId in accounts then Some(accounts[userId]) else None
    }

    /** Balance plus everything already sent: what a transfer moves between the two. */
    function Holdings(userId: string): (r: real)
      reads this
      requires userId in accounts
    {
      accounts[userId].balance + SentBy(transactions, userId)
    }

    /**
     * `perform_transfer`: on any failed check nothing changes and the check's
     * message is the error; otherwise the sender's balance drops by the amount
     * and exactly one transaction with the given data is appended.
     */
    method PerformTransfer(userId: string, amount: real, recipientName: string, recipientIban: string,
                           title: string, now: int)
      returns (r: Result<Account, string>)
      modifies this`accounts, this`transactions
      ensures var e := TransferError(old(GetAccountForUser(userId)), amount, recipientName, recipientIban);
        if e.Some? then
          r == Failure(e.value) && accounts == old(accounts) && transactions == old(transactions)
        else
          && accounts == old(accounts)[userId := old(accounts[userId]).(balance := old(accounts[userId].balance) - amount)]
          && transactions == old(transactions) + [Transaction(userId, recipientName, recipientIban, title, amount, now)]
          && r == Success(accounts[userId])
      ensures r.Success? ==> r.value.balance >= 0.0
      ensures old(Valid()) ==> Valid()
      ensures forall u :: u in old(accounts) ==> u in accounts && Holdings(u) == old(Holdings(u))
    {
      var account := GetAccountForUser(userId);
      var e := TransferError(account, amount, recipientName, recipientIban);
      if e.Some? {
        return Failure(e.value);
      }
      var updated := account.value.(balance := account.value.balance - amount);
      var tx := Transaction(userId, recipientName, recipientIban, title, amount, now);
      forall u | u in accounts
        ensures SentBy(transactions + [tx], u) == SentBy(transactions, u) + (if u == userId then amount else 0.0)
      {
        SentByAppend(transactions, tx, u);
      }
      accounts := accounts[userId := updated];
      transactions := transactions + [tx];
      return Success(updated);
    }
  }

}
