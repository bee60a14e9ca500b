/**
 * Package `transaction`: double-entry accounting. A Transaction stages
 * Splits, each moving a signed amount into one Account, and commits them
 * only when they are non-empty, sum to zero and touch distinct Accounts.
 * Amounts are unbounded integers.
 */
module Ledger {
  import opened Wrappers
  import GoStrings
  import Properties

  /** The opaque identifier shared by the Splits of one committed Transaction. */
  type TransactionID = string

  /** One signed amount against one Account (possibly nil while staged). */
  datatype Split = Split(amount: int, account: Account?, transactionID: TransactionID)

  /** `NewSplit`: a Split not yet assigned to any Transaction. */
  function NewSplit(amount: int, account: Account?): (s: Split)
    ensures s.amount == amount && s.account == account && s.transactionID == ""
  {
    Split(amount, account, "")
  }

  /** The errors of `Account.Validate` and `Transaction.Valid`. */
  datatype Error = EmptyName | NoSplits | NonzeroTotal(total: int) | NilAccount | DuplicateAccount

  function Message(e: Error): string {
    match e
    case EmptyName => "Empty account name."
    case NoSplits => "No Splits in Transaction."
    case NonzeroTotal(t) => "Nonzero total: " + GoStrings.IntToString(t)
    case NilAccount => "Split with nil Account."
    case DuplicateAccount => "Multiple Splits for same Account."
  }

  // ---------------------------------------------------------------------
  // Specification of a batch of Splits
  // ---------------------------------------------------------------------

  function SumAmounts(s: seq<Split>): int {
    if |s| == 0 then 0 else SumAmounts(s[..|s| - 1]) + s[|s| - 1].amount
  }

  /** The non-nil Accounts the Splits reference. */
  function Targets(s: seq<Split>): set<Account> {
    if |s| == 0 then {} else Targets(s[..|s| - 1]) + AccountSet(s[|s| - 1].account)
  }

  function AccountSet(a: Account?): set<Account> {
    if a == null then {} else {a}
  }

  lemma {:induction false} TargetsMember(s: seq<Split>, a: Account)
    ensures a in Targets(s) <==> exists i :: 0 <= i < |s| && s[i].account == a
  {
    if |s| > 0 {
      var n := |s| - 1;
      TargetsMember(s[..n], a);
      if a in Targets(s[..n]) {
        var i :| 0 <= i < n && s[..n][i].account == a;
        assert s[i].account == a;
      } else if a != s[n].account {
        forall i | 0 <= i < |s| ensures s[i].account != a {
          if i < n { assert s[..n][i] == s[i]; }
        }
      }
    }
  }

  predicate NoNilAccounts(s: seq<Split>) {
    forall i :: 0 <= i < |s| ==> s[i].account != null
  }

  predicate DistinctAccounts(s: seq<Split>) {
    forall i, j :: 0 <= i < j < |s| ==> s[i].account != s[j].account
  }

  /**
   * The account check of `Valid`: the first Split, in order, whose Account
   * is nil or already seen decides the error.
   */
  function AccountError(s: seq<Split>): Option<Error> {
    if |s| == 0 then None
    else
      var prefix, last := s[..|s| - 1], s[|s| - 1];
      match AccountError(prefix)
      case Some(e) => Some(e)
      case None =>
        if last.account == null then Some(NilAccount)
        else if last.account in Targets(prefix) then Some(DuplicateAccount)
        else None
  }

  /** What `Valid` returns for staged Splits `splits` and running total `total`. */
  function Check(splits: seq<Split>, total: int): Option<Error> {
    if |splits| == 0 then Some(NoSplits)
    else if total != 0 then Some(NonzeroTotal(total))
    else AccountError(splits)
  }

  lemma SumAmountsAppend(s: seq<Split>, x: Split)
    ensures SumAmounts(s + [x]) == SumAmounts(s) + x.amount
  {
    assert (s + [x])[..|s|] == s;
  }

  lemma TargetsAppend(s: seq<Split>, x: Split)
    ensures Targets(s + [x]) == Targets(s) + AccountSet(x.account)
  {
    assert (s + [x])[..|s|] == s;
  }

  lemma {:induction false} AccountErrorNoneSound(s: seq<Split>)
    requires AccountError(s) == None
    ensures NoNilAccounts(s) && DistinctAccounts(s)
  {
    if |s| > 0 {
      var n := |s| - 1;
      var prefix := s[..n];
      AccountErrorNoneSound(prefix);
      TargetsMember(prefix, s[n].account);
      forall i, j | 0 <= i < j < |s| ensures s[i].account != s[j].account {
        assert s[i] == prefix[i];
        if j < n {
          assert s[j] == prefix[j];
        }
      }
      forall i | 0 <= i < |s| ensures s[i].account != null {
        if i < n {
          assert s[i] == prefix[i];
        }
      }
    }
  }

  lemma {:induction false} AccountErrorNoneComplete(s: seq<Split>)
    requires NoNilAccounts(s) && DistinctAccounts(s)
    ensures AccountError(s) == None
  {
    if |s| > 0 {
      var n := |s| - 1;
      var prefix := s[..n];
      forall i | 0 <= i < n ensures prefix[i].account != s[n].account && prefix[i].account != null {
        assert prefix[i] == s[i];
      }
      forall i, j | 0 <= i < j < n ensures prefix[i].account != prefix[j].account {
        assert prefix[i] == s[i] && prefix[j] == s[j];
      }
      AccountErrorNoneComplete(prefix);
      TargetsMember(prefix, s[n].account);
    }
  }

  /** The account check passes exactly when no Account is nil and no Account repeats. */
  lemma AccountErrorNone(s: seq<Split>)
    ensures AccountError(s) == None <==> NoNilAccounts(s) && DistinctAccounts(s)
  {
    if AccountError(s) == None {
      AccountErrorNoneSound(s);
    }
    if NoNilAccounts(s) && DistinctAccounts(s) {
      AccountErrorNoneComplete(s);
    }
  }

  /** Once the account check has failed, later Splits do not change its error. */
  lemma {:induction false} AccountErrorExtend(p: seq<Split>, q: seq<Split>)
    requires AccountError(p) != None
    ensures AccountError(p + q) == AccountError(p)
  {
    if |q| > 0 {
      var n := |q| - 1;
      AccountErrorExtend(p, q[..n]);
      var r := p + q;
      assert r[..|r| - 1] == p + q[..n];
      assert AccountError(r[..|r| - 1]) == AccountError(p);
    } else {
      assert p + q == p;
    }
  }

  /**
   * The first offending Split decides the error: when the Splits before
   * index `k` are non-nil and distinct, a nil Account at `k` is reported as
   * `NilAccount` and a repeated one as `DuplicateAccount`, whatever follows.
   */
  lemma AccountErrorFirst(s: seq<Split>, k: nat)
    requires k < |s|
    requires NoNilAccounts(s[..k]) && DistinctAccounts(s[..k])
    ensures s[k].account == null ==> AccountError(s) == Some(NilAccount)
    ensures s[k].account != null && s[k].account in Targets(s[..k]) ==> AccountError(s) == Some(DuplicateAccount)
    ensures s[k].account != null && s[k].account !in Targets(s[..k]) ==> AccountError(s[..k + 1]) == None
  {
    AccountErrorNone(s[..k]);
    var p := s[..k + 1];
    assert p[..k] == s[..k];
    if AccountError(p) != None {
      AccountErrorExtend(p, s[k + 1..]);
      assert p + s[k + 1..] == s;
    }
  }

  /**
   * The double-entry rule: `Valid` accepts exactly a non-empty batch whose
   * total is zero and whose Splits reference non-nil, pairwise distinct Accounts.
   */
  lemma CheckNone(splits: seq<Split>, total: int)
    ensures Check(splits, total) == None <==>
      |splits| > 0 && total == 0 && NoNilAccounts(splits) && DistinctAccounts(splits)
  {
    AccountErrorNone(splits);
  }

  /** `Valid`'s checks come in order: emptiness, then the total, then the Accounts. */
  lemma CheckOrder(splits: seq<Split>, total: int)
    ensures |splits| == 0 ==> Check(splits, total) == Some(NoSplits)
    ensures |splits| > 0 && total != 0 ==> Check(splits, total) == Some(NonzeroTotal(total))
    ensures |splits| > 0 && total == 0 ==>
      Check(splits, total) in {None, Some(NilAccount), Some(DuplicateAccount)}
  {
    if |splits| > 0 && total == 0 {
      AccountErrorKinds(splits);
    }
  }

  lemma {:induction false} AccountErrorKinds(s: seq<Split>)
    ensures AccountError(s) in {None, Some(NilAccount), Some(DuplicateAccount)}
  {
    if |s| > 0 {
      AccountErrorKinds(s[..|s| - 1]);
    }
  }

  /** The unbalanced-total message carries the total, as in "Nonzero total: -200". */
  lemma NonzeroTotalMessage(t: int)
    requires t != 0
    ensures Message(NonzeroTotal(t)) == "Nonzero total: " + GoStrings.IntToString(t)
    ensures GoStrings.Atoi(Message(NonzeroTotal(t))[15..]) == Some(t)
  {
    var m := Message(NonzeroTotal(t));
    assert m[15..] == GoStrings.IntToString(t);
    GoStrings.AtoiOfIntToString(t);
  }

  /** The message of transaction_test.go's unbalanced example. */
  lemma NonzeroTotalExample()
    ensures Message(NonzeroTotal(-200)) == "Nonzero total: -200"
  {
    assert GoStrings.NatToString(20) == "20";
    assert GoStrings.NatToString(200) == "200";
  }

  /** Balances of the Accounts the Splits reference, in Split order (0 for a nil Account). */
  ghost function Balances(s: seq<Split>): (r: seq<int>)
    reads Targets(s)
    ensures |r| == |s|
    ensures forall k :: 0 <= k < |s| ==> r[k] == (if s[k].account == null then 0 else s[k].account.total)
  {
    if |s| == 0 then []
    else
      var a := s[|s| - 1].account;
      Balances(s[..|s| - 1]) + [if a == null then 0 else a.total]
  }

  function SumInts(s: seq<int>): int {
    if |s| == 0 then 0 else SumInts(s[..|s| - 1]) + s[|s| - 1]
  }

  /** Adding amounts index by index adds their sums. */
  lemma {:induction false} SumOfShifted(before: seq<int>, s: seq<Split>, after: seq<int>)
    requires |before| == |s| == |after|
    requires forall k :: 0 <= k < |s| ==> after[k] == before[k] + s[k].amount
    ensures SumInts(after) == SumInts(before) + SumAmounts(s)
  {
    if |s| > 0 {
      var n := |s| - 1;
      SumOfShifted(before[..n], s[..n], after[..n]);
    }
  }

  // ---------------------------------------------------------------------
  // Accounts
  // ---------------------------------------------------------------------

  /** A JSON value, as far as an Account's representation needs. */
  datatype Json = JsonString(str: string) | JsonNumber(num: int)

  /**
   * A named bucket with a running total and the history of the Splits
   * committed to it.
   */
  class Account {
    var total: int
    var name: string
    var splits: seq<Split>

    /** The literal `&Account{Name: name}`. */
    constructor (name: string)
      ensures this.name == name && total == 0 && splits == []
    {
      this.name := name;
      total := 0;
      splits := [];
    }

    /** `Validate`: trim the name in place, then reject an empty one. */
    method Validate() returns (err: Option<Error>)
      modifies this`name
      ensures name == GoStrings.TrimSpace(old(name))
      ensures err == (if name == "" then Some(EmptyName) else None)
      ensures total == old(total) && splits == old(splits)
    {
      name := GoStrings.TrimSpace(name);
      if name == "" {
        return Some(EmptyName);
      }
      return None;
    }

    /** `MarshalJSON`: the two-entry map that is encoded. */
    function MarshalJSON(): (m: map<string, Json>)
      reads this
      ensures m.Keys == {"name", "total"}
      ensures m["name"] == JsonString(name) && m["total"] == JsonNumber(total)
    {
      map["name" := JsonString(name), "total" := JsonNumber(total)]
    }

    /** `Load`: apply each property of the stream in turn. */
    method Load(props: seq<Properties.Property>) returns (err: Option<Properties.LoadError>)
      requires Properties.WellTyped(props)
      modifies this`name, this`total
      ensures Properties.Loaded(Properties.Fields(name, total), err) ==
        Properties.LoadAll(props, Properties.Fields(old(name), old(total)))
      ensures splits == old(splits)
    {
      ghost var init := Properties.Fields(name, total);
      err := None;
      var i := 0;
      while i < |props|
        invariant 0 <= i <= |props|
        invariant Properties.WellTyped(props[..i])
        invariant Properties.Loaded(Properties.Fields(name, total), err) ==
          Properties.LoadAll(props[..i], init)
      {
        var p := props[i];
        assert props[..i + 1][..i] == props[..i];
        if p.name == "Name" {
          name := p.value.str;
        } else if p.name == "Total" {
          total := p.value.int64;
        } else {
          err := Some(Properties.UnexpectedProperty(p.name));
        }
        i := i + 1;
        Properties.PrefixWellTyped(props, i);
      }
      assert props[..i] == props;
    }

    /** `Save`: emit "Name" then "Total", then close the stream. */
    method Save() returns (props: seq<Properties.Property>, err: Option<Properties.LoadError>)
      ensures props == Properties.SavedProperties(Properties.Fields(name, total))
      ensures err == None
    {
      props := [];
      props := props + [Properties.Property("Name", Properties.StringValue(name))];
      props := props + [Properties.Property("Total", Properties.Int64Value(total))];
      err := None;
    }
  }

  /** A second `Validate` finds the name already trimmed: same name, same verdict. */
  method ValidateTwice(a: Account) returns (first: Option<Error>, second: Option<Error>)
    modifies a`name
    ensures a.name == GoStrings.TrimSpace(old(a.name))
    ensures second == first && a.total == old(a.total) && a.splits == old(a.splits)
  {
    first := a.Validate();
    var once := a.name;
    GoStrings.TrimSpaceIdempotent(old(a.name));
    second := a.Validate();
    assert a.name == once;
  }

  /** account_test.go's padded name trims to "trim whitespace". */
  lemma TrimExample()
    ensures GoStrings.TrimSpace("\ttrim whitespace   ") == "trim whitespace"
  {
    assert GoStrings.TrimLeftSpace("\ttrim whitespace   ") == "trim whitespace   " by {
      assert "\ttrim whitespace   "[1..] == "trim whitespace   ";
    }
    assert GoStrings.TrimRightSpace("trim whitespace   ") == "trim whitespace" by {
      assert "trim whitespace   "[..17] == "trim whitespace  ";
      assert "trim whitespace  "[..16] == "trim whitespace ";
      assert "trim whitespace "[..15] == "trim whitespace";
    }
  }

  /** The accepted names of account_test.go: one already trimmed, one padded. */
  method ValidateAccepts() returns (valid: Account, trimmed: Account, validErr: Option<Error>, trimmedErr: Option<Error>)
    ensures valid.name == "valid" && validErr == None
    ensures trimmed.name == "trim whitespace" && trimmedErr == None
  {
    GoStrings.TrimSpaceOfTrimmed("valid");
    valid := new Account("valid");
    validErr := valid.Validate();

    TrimExample();
    trimmed := new Account("\ttrim whitespace   ");
    trimmedErr := trimmed.Validate();
  }

  /** The rejected names of account_test.go and account_handler_test.go: empty and blank. */
  method ValidateRejects() returns (emptyErr: Option<Error>, blankErr: Option<Error>)
    ensures emptyErr == Some(EmptyName) && blankErr == Some(EmptyName)
  {
    var empty := new Account("");
    emptyErr := empty.Validate();

    GoStrings.TrimSpaceEmpty("  ");
    var blank := new Account("  ");
    blankErr := blank.Validate();
  }

  /** Two Accounts have the same representation exactly when their names and totals agree. */
  lemma MarshalJSONDetermines(a: Account, b: Account)
    ensures a.MarshalJSON() == b.MarshalJSON() <==> a.name == b.name && a.total == b.total
  {
    if a.MarshalJSON() == b.MarshalJSON() {
      assert a.MarshalJSON()["name"] == b.MarshalJSON()["name"];
      assert a.MarshalJSON()["total"] == b.MarshalJSON()["total"];
    }
  }

  /** The save-and-load round trip of account_pls_test.go. */
  method SaveThenLoad(saved: Account) returns (loaded: Account, err: Option<Properties.LoadError>)
    ensures loaded.name == saved.name && loaded.total == saved.total && loaded.splits == []
    ensures err == None
  {
    var props, saveErr := saved.Save();
    loaded := new Account("");
    err := loaded.Load(props);
    Properties.LoadOfSave(Properties.Fields(saved.name, saved.total), Properties.Fields("", 0));
  }

  // ---------------------------------------------------------------------
  // Transactions
  // ---------------------------------------------------------------------

  /** A staging area for Splits, with their running total. */
  class Transaction {
    var splits: seq<Split>
    var total: int

    /** The running total is the sum of the staged amounts. */
    ghost predicate Consistent()
      reads this
    {
      total == SumAmounts(splits)
    }

    /** The zero value `Transaction{}`. */
    constructor ()
      ensures splits == [] && total == 0 && Consistent()
    {
      splits := [];
      total := 0;
    }

    /** `AddSplit`: stage a copy of the Split; no validation here. */
    method AddSplit(split: Split)
      requires Consistent()
      modifies this
      ensures Consistent()
      ensures splits == old(splits) + [split] && total == old(total) + split.amount
    {
      SumAmountsAppend(splits, split);
      splits := splits + [split];
      total := total + split.amount;
    }

    /** `AddSplits`: `AddSplit` on each element, in order. */
    method AddSplits(ss: seq<Split>)
      requires Consistent()
      modifies this
      ensures Consistent()
      ensures splits == old(splits) + ss && total == old(total) + SumAmounts(ss)
    {
      var i := 0;
      while i < |ss|
        invariant 0 <= i <= |ss|
        invariant Consistent()
        invariant splits == old(splits) + ss[..i] && total == old(total) + SumAmounts(ss[..i])
      {
        ghost var done := ss[..i];
        assert ss[..i + 1] == done + [ss[i]];
        SumAmountsAppend(done, ss[i]);
        AddSplit(ss[i]);
        assert splits == old(splits) + (done + [ss[i]]);
        i := i + 1;
      }
      assert ss[..i] == ss;
    }

    /** `Valid`: report the first failing rule, changing nothing. */
    method Valid() returns (err: Option<Error>)
      ensures err == Check(splits, total)
    {
      if |splits| == 0 {
        return Some(NoSplits);
      }
      if total != 0 {
        return Some(NonzeroTotal(total));
      }
      var seen: set<Account> := {};
      var i := 0;
      while i < |splits|
        invariant 0 <= i <= |splits|
        invariant NoNilAccounts(splits[..i]) && DistinctAccounts(splits[..i])
        invariant seen == Targets(splits[..i])
      {
        var a := splits[i].account;
        AccountErrorFirst(splits, i);
        if a == null {
          return Some(NilAccount);
        }
        if a in seen {
          return Some(DuplicateAccount);
        }
        AccountErrorNone(splits[..i + 1]);
        assert splits[..i + 1] == splits[..i] + [splits[i]];
        TargetsAppend(splits[..i], splits[i]);
        seen := seen + {a};
        i := i + 1;
      }
      assert splits[..i] == splits;
      AccountErrorNone(splits);
      return None;
    }

    /** `clear`: drop the staged Splits and reset the total. */
    method Clear()
      modifies this
      ensures splits == [] && total == 0 && Consistent()
    {
      total := 0;
      splits := [];
    }

    /**
     * `Commit`: if `Valid` passes, stamp `xid` on a copy of every Split,
     * append it to its Account's history, add its amount to that Account's
     * total, and clear the Transaction. Otherwise nothing changes.
     */
    method Commit(xid: TransactionID) returns (err: Option<Error>)
      requires Consistent()
      modifies this, Targets(splits)`total, Targets(splits)`splits
      ensures Consistent()
      ensures err == Check(old(splits), old(total))
      ensures err != None ==> splits == old(splits) && total == old(total)
      ensures err != None ==> var s := old(splits);
        forall k :: 0 <= k < |s| && s[k].account != null ==>
          s[k].account.total == old(s[k].account.total) && s[k].account.splits == old(s[k].account.splits)
      ensures err == None ==> splits == [] && total == 0
      ensures err == None ==> NoNilAccounts(old(splits)) && DistinctAccounts(old(splits))
      ensures err == None ==> var s := old(splits);
        forall k :: 0 <= k < |s| ==>
          s[k].account.total == old(s[k].account.total) + s[k].amount &&
          s[k].account.splits == old(s[k].account.splits) + [s[k].(transactionID := xid)]
      ensures err == None ==> SumInts(Balances(old(splits))) == old(SumInts(Balances(splits)))
    {
      ghost var before := Balances(splits);
      err := Valid();
      if err != None {
        return;
      }
      CheckNone(splits, total);
      var ss := splits;
      assert Balances(ss) == before;
      PostSplits(ss, xid);
      ghost var posted := Balances(ss);
      Clear();
      assert Balances(ss) == posted;
    }
  }

  /**
   * The posting loop of `Transaction.Commit`: each Split, stamped with
   * `xid`, is appended to its Account's history and its amount added to
   * that Account's total. The Accounts are non-nil and distinct, so each
   * one is touched once.
   */
  method PostSplits(ss: seq<Split>, xid: TransactionID)
    requires NoNilAccounts(ss) && DistinctAccounts(ss)
    modifies Targets(ss)`total, Targets(ss)`splits
    ensures forall k :: 0 <= k < |ss| ==>
      ss[k].account.total == old(ss[k].account.total) + ss[k].amount &&
      ss[k].account.splits == old(ss[k].account.splits) + [ss[k].(transactionID := xid)]
    ensures SumInts(Balances(ss)) == old(SumInts(Balances(ss))) + SumAmounts(ss)
  {
    ghost var before := Balances(ss);
    var i := 0;
    while i < |ss|
      invariant 0 <= i <= |ss|
      invariant forall k :: 0 <= k < i ==>
        ss[k].account.total == old(ss[k].account.total) + ss[k].amount &&
        ss[k].account.splits == old(ss[k].account.splits) + [ss[k].(transactionID := xid)]
      invariant forall k :: i <= k < |ss| ==>
        ss[k].account.total == old(ss[k].account.total) && ss[k].account.splits == old(ss[k].account.splits)
    {
      var split := ss[i].(transactionID := xid);
      var a := split.account;
      TargetsMember(ss, a);
      a.splits := a.splits + [split];
      a.total := a.total + split.amount;
      i := i + 1;
    }
    SumOfShifted(before, ss, Balances(ss));
  }

  // ---------------------------------------------------------------------
  // Scenarios from transaction_test.go
  // ---------------------------------------------------------------------

  /**
   * The first half of ExampleTransaction: Salary -1000 and Checking 800 do
   * not balance, so Commit reports "Nonzero total: -200" and changes nothing.
   */
  method UnbalancedExample(xid: TransactionID)
    returns (err: Option<Error>, x: Transaction, salary: Account, checking: Account)
    ensures err == Some(NonzeroTotal(-200)) && Message(err.value) == "Nonzero total: -200"
    ensures salary.total == 0 && checking.total == 0
    ensures x.splits == [NewSplit(-1000, salary), NewSplit(800, checking)] && x.total == -200
  {
    salary := new Account("Salary");
    checking := new Account("Checking");
    x := new Transaction();
    var pair := [NewSplit(-1000, salary), NewSplit(800, checking)];
    TransferBatches(pair, pair[0]);
    x.AddSplits(pair);
    assert x.splits == pair;
    err := x.Commit(xid);
    NonzeroTotalExample();
  }

  /**
   * The staging of ExampleTransaction: Salary -1000 and Checking 800 added
   * together, then Savings 200 on its own.
   */
  method StageTransfer() returns (x: Transaction, salary: Account, checking: Account, savings: Account)
    ensures fresh(x) && fresh(salary) && fresh(checking) && fresh(savings)
    ensures salary != checking && salary != savings && checking != savings
    ensures x.Consistent() && x.total == 0
    ensures x.splits == [NewSplit(-1000, salary), NewSplit(800, checking), NewSplit(200, savings)]
    ensures salary.splits == [] && checking.splits == [] && savings.splits == []
    ensures salary.total == 0 && checking.total == 0 && savings.total == 0
  {
    salary := new Account("Salary");
    checking := new Account("Checking");
    savings := new Account("Savings");
    x := new Transaction();
    var pair := [NewSplit(-1000, salary), NewSplit(800, checking)];
    var last := NewSplit(200, savings);
    TransferBatches(pair, last);
    x.AddSplits(pair);
    assert x.splits == pair;
    x.AddSplit(last);
    assert x.splits == pair + [last];
  }

  /**
   * The second half of ExampleTransaction: with Savings 200 added the
   * Splits balance and Commit posts all three under one transaction ID.
   */
  method TransferExample(xid: TransactionID)
    returns (err: Option<Error>, salary: Account, checking: Account, savings: Account)
    ensures err == None
    ensures salary.total == -1000 && checking.total == 800 && savings.total == 200
    ensures |salary.splits| == |checking.splits| == |savings.splits| == 1
    ensures salary.splits[0].transactionID == checking.splits[0].transactionID == savings.splits[0].transactionID == xid
  {
    var x;
    x, salary, checking, savings := StageTransfer();
    var staged := x.splits;
    TransferBatches(staged[..2], staged[2]);
    assert staged == staged[..2] + [staged[2]];
    ThreeWayBalanced(staged);
    err := x.Commit(xid);
    assert staged[0].account == salary && staged[1].account == checking && staged[2].account == savings;
  }

  /**
   * Committing twice: a failed Commit changes nothing, so a second one fails
   * the same way; a successful Commit clears the Transaction, so a second
   * one finds no Splits and changes nothing.
   */
  method CommitAgain(x: Transaction, xid: TransactionID) returns (first: Option<Error>, second: Option<Error>)
    requires x.Consistent()
    modifies x, Targets(x.splits)`total, Targets(x.splits)`splits
    ensures first == Check(old(x.splits), old(x.total))
    ensures first != None ==> second == first && x.splits == old(x.splits) && x.total == old(x.total)
    ensures first != None ==> var s := old(x.splits);
      forall k :: 0 <= k < |s| && s[k].account != null ==>
        s[k].account.total == old(s[k].account.total) && s[k].account.splits == old(s[k].account.splits)
    ensures first == None ==> second == Some(NoSplits) && x.splits == [] && x.total == 0
    ensures first == None ==> NoNilAccounts(old(x.splits)) && DistinctAccounts(old(x.splits))
    ensures first == None ==> var s := old(x.splits);
      forall k :: 0 <= k < |s| ==>
        s[k].account.total == old(s[k].account.total) + s[k].amount &&
        s[k].account.splits == old(s[k].account.splits) + [s[k].(transactionID := xid)]
  {
    first := x.Commit(xid);
    second := x.Commit(xid);
  }

  /** Three Splits over three distinct Accounts that sum to zero pass `Valid`. */
  lemma ThreeWayBalanced(s: seq<Split>)
    requires |s| == 3 && s[0].account != null && s[1].account != null && s[2].account != null
    requires s[0].account != s[1].account && s[0].account != s[2].account && s[1].account != s[2].account
    ensures Check(s, 0) == None
  {
    CheckNone(s, 0);
  }

  /** The batches of the transfer scenario: two Splits, then a third. */
  lemma TransferBatches(pair: seq<Split>, last: Split)
    requires |pair| == 2
    ensures SumAmounts(pair) == pair[0].amount + pair[1].amount
    ensures Targets(pair) == AccountSet(pair[0].account) + AccountSet(pair[1].account)
    ensures SumAmounts(pair + [last]) == pair[0].amount + pair[1].amount + last.amount
    ensures Targets(pair + [last]) == Targets(pair) + AccountSet(last.account)
  {
    assert pair == [pair[0]] + [pair[1]];
    assert [] + [pair[0]] == [pair[0]];
    SumAmountsAppend([pair[0]], pair[1]);
    SumAmountsAppend([], pair[0]);
    TargetsAppend([pair[0]], pair[1]);
    TargetsAppend([], pair[0]);
    SumAmountsAppend(pair, last);
    TargetsAppend(pair, last);
  }

  /** The three rejections of the account check, and the empty Transaction. */
  method RejectionExamples(a: Account, b: Account)
    returns (empty: Option<Error>, nilAccount: Option<Error>, duplicate: Option<Error>)
    ensures empty == Some(NoSplits)
    ensures nilAccount == Some(NilAccount)
    ensures duplicate == Some(DuplicateAccount)
  {
    var x := new Transaction();
    empty := x.Valid();

    var y := new Transaction();
    y.AddSplits([NewSplit(4, null), NewSplit(-4, a)]);
    AccountErrorFirst(y.splits, 0);
    nilAccount := y.Valid();

    var z := new Transaction();
    z.AddSplits([NewSplit(4, a), NewSplit(2, b), NewSplit(-6, a)]);
    var s := z.splits;
    assert z.total == 0 by {
      assert s[..2][..1] == [s[0]] && s[..2] == [s[0], s[1]];
      assert SumAmounts(s) == SumAmounts([s[0], s[1]]) + s[2].amount;
    }
    if a == b {
      TargetsMember(s[..1], b);
      assert s[..1][0].account == b;
      AccountErrorFirst(s, 1);
    } else {
      TargetsMember(s[..2], a);
      assert s[..2][0].account == a && s[..2][1].account == b;
      AccountErrorFirst(s, 2);
    }
    duplicate := z.Valid();
  }
}
