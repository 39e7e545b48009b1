/** Input validators shared by the services: each answers `None` when the
    value is acceptable and the message to show otherwise. Amounts are in
    hundredths. */
module Validation {
  import opened Wrappers
  import opened Text

  const MinDeposit: int := 1_000_00
  const MaxDeposit: int := 1_000_000_00
  const MinWithdrawal: int := 1_000_00

  const NameMin: nat := 4
  const NameMax: nat := 16
  const PassMin: nat := 4
  const PassMax: nat := 16
  const NamePatternDescription: string := "letters only numbers only (a-z, A-Z, 0-9)"
  const PassPatternDescription: string := "letters and numbers only (a-z, A-Z, 0-9)"

  function IsValidDeposit(val: int): (r: Option<string>)
    ensures r.None? <==> MinDeposit <= val <= MaxDeposit
    ensures r.Some? ==> StartsWith(r.value, "Invalid amount [")
  {
    if MinDeposit <= val <= MaxDeposit then None
    else Some("Invalid amount [" + MoneyText(val) + "]. Min/max deposit is " + MoneyText(MinDeposit) + "/" + MoneyText(MaxDeposit))
  }

  /** Withdrawals have a lower bound only. */
  function IsValidWithdrawal(val: int): (r: Option<string>)
    ensures r.None? <==> val >= MinWithdrawal
    ensures r.Some? ==> StartsWith(r.value, "Invalid amount [")
  {
    if val >= MinWithdrawal then None
    else Some("Invalid amount [" + MoneyText(val) + "]. Min withdrawal is " + MoneyText(MinWithdrawal))
  }

  predicate IsAlnum(c: char)
  {
    'a' <= c <= 'z' || 'A' <= c <= 'Z' || '0' <= c <= '9'
  }

  predicate AllAlnum(s: string)
  {
    forall i :: 0 <= i < |s| ==> IsAlnum(s[i])
  }

  /** Where a match of `^[a-zA-Z0-9]+` that runs `k` characters from the
      start may stop for `$`: at the end of the text, or just before a
      newline that ends it (the .NET meaning of `$` without multiline). */
  predicate MatchEndsAt(s: string, k: nat)
  {
    && 1 <= k <= |s|
    && AllAlnum(s[..k])
    && (k == |s| || (k == |s| - 1 && s[k] == '\n'))
  }

  /** `Regex.IsMatch(s, "^[a-zA-Z0-9]+$")`. */
  predicate MatchesAlnumPattern(s: string)
  {
    exists k: nat | k <= |s| :: MatchEndsAt(s, k)
  }

  /** The pattern holds exactly of a non-empty run of letters and digits,
      optionally followed by a single final newline. */
  lemma AlnumPatternShape(s: string)
    ensures MatchesAlnumPattern(s) <==>
      (|s| >= 1 && AllAlnum(s)) || (|s| >= 2 && s[|s| - 1] == '\n' && AllAlnum(s[..|s| - 1]))
  {
    if |s| >= 1 && AllAlnum(s) {
      assert s[..|s|] == s;
      assert MatchEndsAt(s, |s|);
    } else if |s| >= 2 && s[|s| - 1] == '\n' && AllAlnum(s[..|s| - 1]) {
      assert MatchEndsAt(s, |s| - 1);
    }
    if MatchesAlnumPattern(s) {
      var k: nat :| MatchEndsAt(s, k);
      if k == |s| {
        assert s[..k] == s;
      }
    }
  }

  /** A name is accepted when it is non-empty, 4 to 16 characters long
      and matches the pattern. */
  function IsValidName(val: string): (r: Option<string>)
    ensures r.None? ==> NameMin <= |val| <= NameMax && MatchesAlnumPattern(val)
    ensures r.Some? ==> StartsWith(r.value, "Invalid Name format [")
  {
    if |val| > 0 && NameMin <= |val| <= NameMax && MatchesAlnumPattern(val) then None
    else Some("Invalid Name format [" + val + "]. Must be " + NatToString(NameMin) + "-" + NatToString(NameMax) + " " + NamePatternDescription)
  }

  /** A password follows the same length and character rule as a name. */
  function IsValidPass(val: string): (r: Option<string>)
    ensures r.None? <==> IsValidName(val).None?
    ensures r.Some? ==> StartsWith(r.value, "Invalid Password format [")
  {
    if |val| > 0 && PassMin <= |val| <= PassMax && MatchesAlnumPattern(val) then None
    else Some("Invalid Password format [" + val + "]. Must be " + NatToString(PassMin) + "-" + NatToString(PassMax) + " " + PassPatternDescription)
  }

  /** A name is accepted exactly when it is 4 to 16 characters of letters
      and digits, where the last of them may instead be a newline. */
  lemma NameAcceptance(val: string)
    ensures IsValidName(val).None? <==>
      && NameMin <= |val| <= NameMax
      && (AllAlnum(val) || (val[|val| - 1] == '\n' && AllAlnum(val[..|val| - 1])))
  {
    AlnumPatternShape(val);
  }

  /** Because of the final-newline rule, three letters and a newline pass
      the four-character minimum. */
  lemma ThreeLettersAndNewlinePass()
    ensures IsValidName("abc\n").None?
  {
    assert MatchEndsAt("abc\n", 3) by {
      assert "abc\n"[..3] == "abc";
    }
  }
}
