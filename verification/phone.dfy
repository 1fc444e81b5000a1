/**
 * `format_phone_number` (internal/domain/calling/retell_service.py): the
 * E.164-style number handed to the calling service.
 */
module Phone {
  import opened Text
  import opened Seqs

  /** Line 141: the characters a formatted number keeps. */
  predicate Dialable(c: char) {
    IsDigit(c) || c == '+'
  }

  /** Line 141: the input without every character that is neither a digit nor '+'. */
  function Cleaned(phone: string): string {
    Filter(phone, Dialable)
  }

  /**
   * `format_phone_number(phone)` (lines 127-147): "" for empty input;
   * otherwise the cleaned number as it is when it already starts with '+',
   * and with '+' put in front when it does not. A non-empty input never
   * formats to "", so the "invalid phone number" branch of
   * `make_retell_call` (line 191) cannot be taken.
   */
  function FormatPhoneNumber(phone: string): (r: string)
    ensures phone == "" ==> r == ""
    ensures phone != "" ==> r != [] && r[0] == '+'
    ensures phone != "" && StartsWith(Cleaned(phone), "+") ==> r == Cleaned(phone)
    ensures phone != "" && !StartsWith(Cleaned(phone), "+") ==> r == ['+'] + Cleaned(phone)
  {
    if phone == "" then ""
    else
      var cleaned := Cleaned(phone);
      if StartsWith(cleaned, "+") then cleaned else "+" + cleaned
  }

  /** Keeping every element of a list that is all kept changes nothing. */
  lemma {:induction false} FilterAllKept(s: string)
    requires forall i :: 0 <= i < |s| ==> Dialable(s[i])
    ensures Filter(s, Dialable) == s
  {
    if s != [] {
      FilterAllKept(s[1..]);
    }
  }

  /**
   * The formatted number holds exactly the digits and '+' signs of the input,
   * in their order, behind at most one added '+'.
   */
  lemma {:induction false} FormatKeepsDialable(phone: string, c: char)
    requires phone != ""
    ensures var r := FormatPhoneNumber(phone);
      && (forall i :: 0 <= i < |r| ==> Dialable(r[i]))
      && IsSubsequence(Cleaned(phone), phone)
      && (c in Cleaned(phone) <==> c in phone && Dialable(c))
  {
    FilterMembers(phone, Dialable, c);
    FilterIsSubsequence(phone, Dialable);
    var r := FormatPhoneNumber(phone);
    forall i | 0 <= i < |r|
      ensures Dialable(r[i])
    {
      var cleaned := Cleaned(phone);
      var d := r[i];
      assert d in r;
      if d != '+' {
        assert d in cleaned;
        FilterMembers(phone, Dialable, d);
      }
    }
  }

  /** Formatting a formatted number changes nothing. */
  lemma {:induction false} FormatIdempotent(phone: string)
    ensures FormatPhoneNumber(FormatPhoneNumber(phone)) == FormatPhoneNumber(phone)
  {
    if phone != "" {
      var r := FormatPhoneNumber(phone);
      FormatKeepsDialable(phone, '+');
      FilterAllKept(r);
      assert StartsWith(r, "+") by { assert r[..1] == [r[0]]; }
    }
  }
}
