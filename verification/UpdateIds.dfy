/** The identifiers of channel update notifications, as text: `<channel>_<version>` for an update
    and `<channel>_<version>_closed` for the notification that a channel was closed. */
module UpdateIds {

  /** The decimal form of a version number. */
  function Decimal(n: nat): (s: string)
    ensures |s| > 0
    ensures forall i :: 0 <= i < |s| ==> '0' <= s[i] <= '9'
  {
    if n < 10 then [Digit(n)] else Decimal(n / 10) + [Digit(n % 10)]
  }

  function Digit(d: nat): (c: char)
    requires d < 10
    ensures '0' <= c <= '9' && c as int - '0' as int == d
  {
    '0' + d as char
  }

  /** The number a string of digits stands for. */
  function Value(s: string): int {
    if s == [] then 0 else 10 * Value(s[..|s| - 1]) + (s[|s| - 1] as int - '0' as int)
  }

  /** Reading back a printed version gives that version. */
  lemma {:induction false} ValueOfDecimal(n: nat)
    ensures Value(Decimal(n)) == n
  {
    if n >= 10 {
      ValueOfDecimal(n / 10);
      var s := Decimal(n);
      assert s[..|s| - 1] == Decimal(n / 10);
    } else {
      assert Value([]) == 0;
      assert Decimal(n)[..0] == [];
    }
  }

  function UpdateID(chID: string, version: nat): string {
    chID + "_" + Decimal(version)
  }

  /** A close notification is built from the version text of the channel info. */
  function CloseID(chID: string, version: string): string {
    chID + "_" + version + "_" + "closed"
  }

  /** Text that ends in an underscore and something without one can be split in one way only. */
  lemma LastUnderscore(ch1: string, d1: string, ch2: string, d2: string)
    requires ch1 + "_" + d1 == ch2 + "_" + d2
    requires '_' !in d1 && '_' !in d2
    ensures ch1 == ch2 && d1 == d2
  {
    var s := ch1 + "_" + d1;
    assert s[|ch1|] == '_' && s[|ch2|] == '_';
    assert forall i :: |ch1| < i < |s| ==> s[i] == d1[i - |ch1| - 1];
    assert forall i :: |ch2| < i < |s| ==> s[i] == d2[i - |ch2| - 1];
    assert |ch1| == |ch2|;
    assert ch1 == s[..|ch1|] == ch2;
    assert d1 == s[|ch1| + 1..] == d2;
  }

  /** An update identifier determines both the channel and the proposed version. */
  lemma UpdateIDInjective(ch1: string, v1: nat, ch2: string, v2: nat)
    requires UpdateID(ch1, v1) == UpdateID(ch2, v2)
    ensures ch1 == ch2 && v1 == v2
  {
    LastUnderscore(ch1, Decimal(v1), ch2, Decimal(v2));
    ValueOfDecimal(v1);
    ValueOfDecimal(v2);
  }

  /** No update, of any channel, shares its identifier with a close notification. */
  lemma CloseIDIsNoUpdateID(ch1: string, version: string, ch2: string, v: nat)
    ensures CloseID(ch1, version) != UpdateID(ch2, v)
  {
    var c, u := CloseID(ch1, version), UpdateID(ch2, v);
    assert c[|c| - 1] == 'd';
    assert u[|u| - 1] == Decimal(v)[|Decimal(v)| - 1];
  }
}
