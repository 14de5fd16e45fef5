/**
 * The phone shown on a client's list entry:
 * `phone.replace(/(\d{2})(\d{5})(\d{4})/, '($1) $2-$3')`, a single, non-global
 * regular-expression replacement.
 */
module ClientListItem {
  import opened Common
  import Seqs

  /** `\d`: an ASCII decimal digit. */
  predicate IsDigit(c: char) {
    '0' <= c <= '9'
  }

  /** The digits of a string, in order. */
  function Digits(s: string): string {
    Seqs.Filter(s, IsDigit)
  }

  /** The pattern matches at `i`: eleven consecutive digits start there. */
  predicate RunAt(s: string, i: int) {
    0 <= i && i + 11 <= |s| && forall k :: i <= k < i + 11 ==> IsDigit(s[k])
  }

  /** The leftmost position at or after `from` where the pattern matches, as the regex engine scans. */
  function LeftmostRun(s: string, from: nat): (r: Option<nat>)
    ensures r.Some? ==> from <= r.value && RunAt(s, r.value) && forall j :: from <= j < r.value ==> !RunAt(s, j)
    ensures r.None? ==> forall j :: from <= j ==> !RunAt(s, j)
    decreases |s| - from
  {
    if from + 11 > |s| then None
    else if RunAt(s, from) then Some(from)
    else LeftmostRun(s, from + 1)
  }

  /** The replacement for a match at `i`: "(DD) DDDDD-DDDD". */
  function Rewrite(s: string, i: nat): (r: string)
    requires RunAt(s, i)
    ensures |r| == 15
    ensures r[0] == '(' && r[3] == ')' && r[4] == ' ' && r[10] == '-'
    ensures r[1..3] == s[i..i + 2] && r[5..10] == s[i + 2..i + 7] && r[11..] == s[i + 7..i + 11]
  {
    "(" + s[i..i + 2] + ") " + s[i + 2..i + 7] + "-" + s[i + 7..i + 11]
  }

  /** The formatted phone: the leftmost run of eleven digits rewritten, everything else kept verbatim. */
  function FormatPhone(phone: string): (r: string)
    ensures LeftmostRun(phone, 0).None? ==> r == phone
    ensures LeftmostRun(phone, 0).Some? ==>
              var i := LeftmostRun(phone, 0).value;
              && |r| == |phone| + 4
              && r[..i] == phone[..i]
              && r[i + 15..] == phone[i + 11..]
              && r[i..i + 15] == Rewrite(phone, i)
  {
    match LeftmostRun(phone, 0)
    case None => phone
    case Some(i) => phone[..i] + Rewrite(phone, i) + phone[i + 11..]
  }

  /** Digits distribute over concatenation. */
  lemma DigitsAppend(a: string, b: string)
    ensures Digits(a + b) == Digits(a) + Digits(b)
  {
    Seqs.FilterAppend(a, b, IsDigit);
  }

  /** The rewrite adds only punctuation: the rewritten text has the same digits as the eleven it replaces. */
  lemma RewriteDigits(s: string, i: nat)
    requires RunAt(s, i)
    ensures Digits(Rewrite(s, i)) == s[i..i + 11]
  {
    var a, b, c := s[i..i + 2], s[i + 2..i + 7], s[i + 7..i + 11];
    Seqs.FilterKeepsAll(a, IsDigit);
    Seqs.FilterKeepsAll(b, IsDigit);
    Seqs.FilterKeepsAll(c, IsDigit);
    Seqs.FilterDropsAll("(", IsDigit);
    Seqs.FilterDropsAll(") ", IsDigit);
    Seqs.FilterDropsAll("-", IsDigit);
    DigitsAppend("(" + a + ") " + b + "-", c);
    DigitsAppend("(" + a + ") " + b, "-");
    DigitsAppend("(" + a + ") ", b);
    DigitsAppend("(" + a, ") ");
    DigitsAppend("(", a);
    assert s[i..i + 11] == a + b + c;
  }

  /** Formatting never adds, drops or reorders a digit. */
  lemma FormatPhoneKeepsDigits(phone: string)
    ensures Digits(FormatPhone(phone)) == Digits(phone)
  {
    match LeftmostRun(phone, 0)
    case None =>
    case Some(i) =>
      var pre, mid, post := phone[..i], phone[i..i + 11], phone[i + 11..];
      RewriteDigits(phone, i);
      Seqs.FilterKeepsAll(mid, IsDigit);
      DigitsAppend(pre + Rewrite(phone, i), post);
      DigitsAppend(pre, Rewrite(phone, i));
      assert phone == pre + mid + post;
      DigitsAppend(pre + mid, post);
      DigitsAppend(pre, mid);
  }

  /** A phone made of exactly eleven digits is rewritten as a whole. */
  lemma FormatPhoneElevenDigits(phone: string)
    requires RunAt(phone, 0) && |phone| == 11
    ensures FormatPhone(phone) == Rewrite(phone, 0)
  {
    assert LeftmostRun(phone, 0) == Some(0);
    assert phone[..0] == [] && phone[11..] == [];
  }

  /** Eleven digits given as their groups of 2, 5 and 4 are rewritten group by group. */
  lemma FormatPhoneOfGroups(a: string, b: string, c: string)
    requires |a| == 2 && |b| == 5 && |c| == 4
    requires forall k :: 0 <= k < |a + b + c| ==> IsDigit((a + b + c)[k])
    ensures FormatPhone(a + b + c) == "(" + a + ") " + b + "-" + c
  {
    var phone := a + b + c;
    assert RunAt(phone, 0);
    FormatPhoneElevenDigits(phone);
    assert phone[0..2] == a && phone[2..7] == b && phone[7..11] == c;
  }

  /** The example from the app's comment: "11999999999" becomes "(11) 99999-9999". */
  lemma FormatPhoneExample()
    ensures FormatPhone("11999999999") == "(11) 99999-9999"
  {
    assert "11999999999" == "11" + "99999" + "9999";
    FormatPhoneOfGroups("11", "99999", "9999");
    assert "(11) 99999-9999" == "(" + "11" + ") " + "99999" + "-" + "9999";
  }
}
