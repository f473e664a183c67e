/**
 * The username suggestions built from the device's accounts: the accounts
 * whose name is email-shaped, mapped to their names and collected into a set.
 * Whether a name is email-shaped is decided by the platform's email pattern,
 * which stays uninterpreted: every function here takes it as `isEmail`.
 */
module AccountSuggestions {

  /** An account registered on the device. */
  datatype Account = Account(name: string, accountType: string)

  /** The accounts whose name the email pattern matches, in their original order. */
  function FilterEmail(accounts: seq<Account>, isEmail: string -> bool): (kept: seq<Account>)
    ensures |kept| <= |accounts|
    ensures forall a :: a in kept ==> a in accounts && isEmail(a.name)
    ensures forall a :: a in accounts && isEmail(a.name) ==> a in kept
  {
    if accounts == [] then []
    else if isEmail(accounts[0].name) then [accounts[0]] + FilterEmail(accounts[1..], isEmail)
    else FilterEmail(accounts[1..], isEmail)
  }

  /** The account names, one per account. */
  function Names(accounts: seq<Account>): (names: seq<string>)
    ensures |names| == |accounts|
    ensures forall x :: x in names <==> exists a :: a in accounts && a.name == x
  {
    if accounts == [] then []
    else
      var rest := Names(accounts[1..]);
      assert forall a :: a in accounts[1..] ==> a in accounts;
      [accounts[0].name] + rest
  }

  /** The distinct elements of a sequence. */
  function ToSet(names: seq<string>): (distinct: set<string>)
    ensures |distinct| <= |names|
    ensures forall x :: x in distinct <==> x in names
  {
    if names == [] then {}
    else
      var rest := ToSet(names[1..]);
      assert |{names[0]} + rest| <= 1 + |rest| by {
        if names[0] in rest { assert {names[0]} + rest == rest; }
      }
      {names[0]} + rest
  }

  /**
   * The suggestion set: a name is in it exactly when some account has that
   * name and the name is email-shaped; duplicates collapse, so there are never
   * more suggestions than accounts.
   */
  function EmailSet(accounts: seq<Account>, isEmail: string -> bool): (emails: set<string>)
    ensures |emails| <= |accounts|
    ensures forall x :: x in emails <==> isEmail(x) && exists a :: a in accounts && a.name == x
  {
    ToSet(Names(FilterEmail(accounts, isEmail)))
  }

  /**
   * Two email-shaped accounts and one that is not: exactly the two email
   * names are suggested.
   */
  lemma EmailSetOfMixedAccounts(isEmail: string -> bool, kind: string)
    requires isEmail("a@x.com") && isEmail("b@x.com") && !isEmail("not-an-email")
    ensures EmailSet([Account("a@x.com", kind), Account("not-an-email", kind), Account("b@x.com", kind)], isEmail)
            == {"a@x.com", "b@x.com"}
  {
    var a, n, b := Account("a@x.com", kind), Account("not-an-email", kind), Account("b@x.com", kind);
    assert [a, n, b][1..] == [n, b] && [n, b][1..] == [b] && [b][1..] == [];
    assert FilterEmail([a, n, b], isEmail) == [a, b];
    assert [a, b][1..] == [b];
    assert Names([a, b]) == ["a@x.com", "b@x.com"];
    assert ["a@x.com", "b@x.com"][1..] == ["b@x.com"];
    assert ToSet(["a@x.com", "b@x.com"]) == {"a@x.com", "b@x.com"};
  }

  /** The same names in any order, with any repetition, give the same suggestions. */
  lemma EmailSetIgnoresOrderAndRepeats(accounts: seq<Account>, others: seq<Account>, isEmail: string -> bool)
    requires forall a :: a in accounts <==> a in others
    ensures EmailSet(accounts, isEmail) == EmailSet(others, isEmail)
  {
  }
}
