/**
 * Task ids travel through the queue and the event payloads as decimal text: FormatUint and
 * ParseUint of base 10. Equal scores are ordered by this text, so 10 comes before 9.
 */
module TaskKeys {
  import opened Wrappers
  import opened Model

  function Digit(d: nat): (c: char)
    requires d < 10
    ensures c as int == '0' as int + d
  {
    "0123456789"[d]
  }

  function DigitValue(c: char): Option<nat> {
    if '0' <= c <= '9' then Some(c as int - '0' as int) else None
  }

  function FormatUint(n: nat): (s: string)
    ensures |s| > 0
  {
    if n < 10 then [Digit(n)] else FormatUint(n / 10) + [Digit(n % 10)]
  }

  function ParseDigits(s: string): Option<nat> {
    if s == [] then Some(0)
    else match (ParseDigits(s[..|s| - 1]), DigitValue(s[|s| - 1]))
      case (Some(n), Some(d)) => Some(10 * n + d)
      case _ => None
  }

  /** Fails on empty text and on any character that is not a digit. */
  function ParseUint(s: string): Option<nat> {
    if s == [] then None else ParseDigits(s)
  }

  lemma DigitRoundTrip(d: nat)
    requires d < 10
    ensures DigitValue(Digit(d)) == Some(d)
  {
  }

  /** Every id that was ever enqueued is read back as itself. */
  lemma {:induction false} ParseFormat(n: nat)
    ensures ParseUint(FormatUint(n)) == Some(n)
  {
    if n < 10 {
      DigitRoundTrip(n);
      var s := FormatUint(n);
      assert s == [Digit(n)] && s[..|s| - 1] == [] && ParseDigits([]) == Some(0);
    } else {
      ParseFormat(n / 10);
      DigitRoundTrip(n % 10);
      var s := FormatUint(n);
      assert s[..|s| - 1] == FormatUint(n / 10);
    }
  }

  /** Go's `<` on strings. */
  predicate TextLess(a: string, b: string) {
    b != [] && (a == [] || a[0] < b[0] || (a[0] == b[0] && TextLess(a[1..], b[1..])))
  }

  lemma {:induction false} TextLessTrichotomy(a: string, b: string)
    ensures a == b || TextLess(a, b) || TextLess(b, a)
    ensures !(TextLess(a, b) && TextLess(b, a))
    ensures a == b ==> !TextLess(a, b)
  {
    if a != [] && b != [] {
      TextLessTrichotomy(a[1..], b[1..]);
      if a[0] == b[0] && a[1..] == b[1..] {
        assert a == [a[0]] + a[1..] && b == [b[0]] + b[1..];
      }
    }
  }

  /** At the first place where the texts differ, `a` has the smaller character or has come to its end. */
  lemma {:induction false} TextLessMeans(a: string, b: string)
    ensures TextLess(a, b) <==>
      exists k: nat :: k <= |a| && k < |b| && a[..k] == b[..k] && (k == |a| || a[k] < b[k])
  {
    if a != [] && b != [] {
      TextLessMeans(a[1..], b[1..]);
      if TextLess(a, b) {
        if a[0] < b[0] {
          assert a[..0] == b[..0];
        } else {
          var k: nat :| k <= |a[1..]| && k < |b[1..]| && a[1..][..k] == b[1..][..k] && (k == |a[1..]| || a[1..][k] < b[1..][k]);
          assert a[..k + 1] == [a[0]] + a[1..][..k] && b[..k + 1] == [b[0]] + b[1..][..k];
        }
      }
      if k: nat :| k <= |a| && k < |b| && a[..k] == b[..k] && (k == |a| || a[k] < b[k]) {
        if k > 0 {
          assert a[0] == a[..k][0] && b[0] == b[..k][0];
          assert a[1..][..k - 1] == a[..k][1..] && b[1..][..k - 1] == b[..k][1..];
        }
      }
    } else if b != [] {
      assert a[..0] == b[..0];
    }
  }

  /** Ten comes before nine. */
  lemma TenBeforeNine()
    ensures KeyLess(10, 9) && !KeyLess(9, 10) && FormatUint(10) == "10" && FormatUint(9) == "9"
  {
    assert FormatUint(1) == "1" && FormatUint(10) == "1" + "0";
  }

  lemma {:induction false} TextLessTransitive(a: string, b: string, c: string)
    requires TextLess(a, b) && TextLess(b, c)
    ensures TextLess(a, c)
  {
    if a != [] && a[0] == b[0] && b[0] == c[0] {
      TextLessTransitive(a[1..], b[1..], c[1..]);
    }
  }

  predicate KeyLess(a: TaskId, b: TaskId) {
    TextLess(FormatUint(a), FormatUint(b))
  }

  /** The text order is a strict total order on ids. */
  lemma KeyLessTotal(a: TaskId, b: TaskId)
    ensures a != b ==> KeyLess(a, b) != KeyLess(b, a)
    ensures !KeyLess(a, a)
    ensures KeyLess(a, b) ==> !KeyLess(b, a)
  {
    ParseFormat(a);
    ParseFormat(b);
    TextLessTrichotomy(FormatUint(a), FormatUint(b));
    TextLessTrichotomy(FormatUint(a), FormatUint(a));
  }

  lemma KeyLessTransitive(a: TaskId, b: TaskId, c: TaskId)
    requires KeyLess(a, b) && KeyLess(b, c)
    ensures KeyLess(a, c)
  {
    TextLessTransitive(FormatUint(a), FormatUint(b), FormatUint(c));
  }
}
