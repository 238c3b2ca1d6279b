/** The two number policies side by side: the strict validator of Tgchecker/client.py
    rejects what it does not like, the lenient cleaner of telegram_checker.py repairs it.
    A number the validator accepts with at most one leading `+` is left unchanged by the
    cleaner. They differ on accepted numbers with repeated `+`, and on every rejected number
    that holds a digit: the cleaner returns an optional `+` and the digits, so it collapses
    repeated `+`, keeps a short number and drops other characters. A number with no digit
    is refused by both. */
module Policies {
  import opened Wrappers
  import opened Text
  import TgClient
  import Checker

  /** On a number the strict validator accepts, the cleaner keeps one `+` (if there was any)
      and the digits. */
  lemma {:induction false} CleanOfStrictNumber(s: string)
    requires TgClient.ValidNumber(s)
    ensures Checker.CleanPhoneNumber(s) == (if s[0] == '+' then "+" else "") + LStripPlus(s)
  {
    StrictNumberStripped(s);
    StrictNumberDigits(s);
    Checker.CleanUnfold(s);
  }

  /** A strictly valid number carries no surrounding whitespace. */
  lemma {:induction false} StrictNumberStripped(s: string)
    requires TgClient.ValidNumber(s)
    ensures Strip(s) == s
  {
    LStripPlusShape(s);
    var d := LStripPlus(s);
    assert s[|s| - 1] == d[|d| - 1];
    assert s[0] == '+' || s[0] == d[0];
    StripUnchanged(s);
  }

  /** The digits of a strictly valid number are what is left after its plus signs. */
  lemma {:induction false} StrictNumberDigits(s: string)
    requires TgClient.ValidNumber(s)
    ensures Digits(s) == LStripPlus(s) && LStripPlus(s) != []
  {
    LStripPlusShape(s);
    var d := LStripPlus(s);
    var p := s[..|s| - |d|];
    assert s == p + d;
    PlusHasNoDigits(p);
    DigitsAppend(p, d);
    DigitsOfDigits(d);
  }

  lemma {:induction false} PlusHasNoDigits(p: string)
    requires AllPlus(p)
    ensures Digits(p) == []
  {
    if p != [] {
      PlusHasNoDigits(p[1..]);
    }
  }

  /** A strictly valid number with at most one leading `+` is a fixed point of the cleaner. */
  lemma {:induction false} StrictSingleAgrees(s: string)
    requires TgClient.PrepareNumbers(TgClient.Single(s)).Success?
    requires |s| < 2 || s[1] != '+'
    ensures Checker.CleanPhoneNumber(s) == s
  {
    assert TgClient.ValidNumber(s);
    CleanOfStrictNumber(s);
    if s[0] == '+' {
      assert s[..1] == "+";
      LStripPlusStopsAt(s, 1);
    } else {
      assert s[..0] == [];
      LStripPlusStopsAt(s, 0);
    }
  }

  /** A number without a digit is refused by both: the validator rejects it, and the
      cleaner leaves nothing, so `check_number` raises `ValueError`. */
  lemma {:induction false} BothRefuseNoDigit(s: string)
    requires !HasDigit(s)
    ensures TgClient.PrepareNumbers(TgClient.Single(s)).Failure?
    ensures Checker.CleanPhoneNumber(s) == []
  {
    Checker.CleanEmptyIff(s);
    DigitsEmptyIff(s);
    if TgClient.ValidNumber(s) {
      StrictNumberDigits(s);
    }
  }

  /** A number the validator rejects but that holds a digit is still cleaned to a non-empty
      number that `check_number` sends. */
  lemma {:induction false} RejectedWithDigitIsCleaned(s: string)
    requires TgClient.PrepareNumbers(TgClient.Single(s)).Failure?
    requires HasDigit(s)
    ensures Checker.CleanPhoneNumber(s) != []
  {
    Checker.CleanEmptyIff(s);
  }

  /** Repeated plus signs are passed through unchanged by the validator ... */
  lemma StrictKeepsRepeatedPlus()
    ensures TgClient.PrepareNumbers(TgClient.Single("++12345")) == Success("++12345")
  {
    TgClient.RepeatedPlusAccepted();
  }

  /** ... and collapsed to one by the cleaner. */
  lemma CleanCollapsesRepeatedPlus()
    ensures Checker.CleanPhoneNumber("++12345") == "+12345"
  {
    TgClient.RepeatedPlusAccepted();
    CleanOfStrictNumber("++12345");
    assert LStripPlus("++12345") == "12345";
  }

  /** A short number is rejected by the validator ... */
  lemma StrictRejectsShort()
    ensures TgClient.PrepareNumbers(TgClient.Single("123")) == Failure(TgClient.TooShort)
  {
    assert "123"[..0] == [];
    LStripPlusStopsAt("123", 0);
    assert TgClient.DigitsAfterPlus("123");
  }

  /** ... and kept by the cleaner. */
  lemma CleanKeepsShort()
    ensures Checker.CleanPhoneNumber("123") == "123"
  {
    Checker.CleanCanonical(false, "123");
    assert "" + "123" == "123";
  }

  /** A number with a letter is rejected by the validator (`TgClient.LetterNotDigits`) and
      repaired by the cleaner, which drops the letter. */
  lemma CleanRepairsLetter()
    ensures Checker.CleanPhoneNumber("12a45") == "1245"
  {
    var s := "12a45";
    assert IsDigit(s[0]);
    Checker.CleanKeepsDigits(s);
    StripUnchanged(s);
    assert s == [s[0]] + s[1..];
    Text.DigitsAppend([s[0]], s[1..]);
  }
}
