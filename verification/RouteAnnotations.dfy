/** The timeout annotations of a route, shared between the operator and a human
    (api/v1beta1/glance_webhook.go, SetDefaultRouteAnnotations). */
module RouteAnnotations {

  const HAPROXY := "haproxy.router.openshift.io/timeout"
  const FLAG := "api.glance.openstack.org/timeout"

  function Digit(d: nat): char
    requires d < 10
  {
    ('0' as int + d) as char
  }

  function Decimal(n: nat): string {
    (if n < 10 then "" else Decimal(n / 10)) + [Digit(n % 10)]
  }

  function Seconds(timeout: int): string {
    (if timeout < 0 then "-" + Decimal(-timeout) else Decimal(timeout)) + "s"
  }

  /** The HAProxy timeout is a human's unless the operator's flag carries the same value. */
  predicate HumanOwned(a: map<string, string>) {
    HAPROXY in a && !(FLAG in a && a[FLAG] == a[HAPROXY])
  }

  function Defaulted(a: map<string, string>, timeout: int): map<string, string> {
    if HumanOwned(a) then a - {FLAG} else a[FLAG := Seconds(timeout)][HAPROXY := Seconds(timeout)]
  }

  class Route {
    var annotations: map<string, string>

    method SetDefaultRouteAnnotations(timeout: int)
      modifies this
      ensures annotations == Defaulted(old(annotations), timeout)
    {
      var okGlance, okHaProxy := FLAG in annotations, HAPROXY in annotations;
      if !okGlance && okHaProxy {
        assert annotations - {FLAG} == annotations;
        return;
      }
      if okGlance && okHaProxy && annotations[FLAG] != annotations[HAPROXY] {
        annotations := annotations - {FLAG};
        return;
      }
      annotations := annotations[FLAG := Seconds(timeout)];
      annotations := annotations[HAPROXY := Seconds(timeout)];
    }
  }

  function Calls(a: map<string, string>, timeouts: seq<int>): map<string, string> {
    if timeouts == [] then a else Defaulted(Calls(a, timeouts[..|timeouts| - 1]), timeouts[|timeouts| - 1])
  }

  lemma KeysDiffer()
    ensures HAPROXY != FLAG
  {
    assert HAPROXY[0] != FLAG[0];
  }

  /** Over any sequence of operator calls a human's value survives and the flag goes away, while an absent
      or operator-owned value ends equal to the latest timeout; no other annotation is ever touched. */
  lemma {:induction false} CallsOutcome(a: map<string, string>, timeouts: seq<int>)
    requires timeouts != []
    ensures
      var r := Calls(a, timeouts);
      && HAPROXY in r
      && r - {HAPROXY, FLAG} == a - {HAPROXY, FLAG}
      && HumanOwned(r) == HumanOwned(a)
      && if HumanOwned(a) then FLAG !in r && r[HAPROXY] == a[HAPROXY]
         else FLAG in r && r[FLAG] == r[HAPROXY] == Seconds(timeouts[|timeouts| - 1])
  {
    KeysDiffer();
    if |timeouts| > 1 {
      CallsOutcome(a, timeouts[..|timeouts| - 1]);
    }
  }

  /** Repeating a call changes nothing. */
  lemma CallIdempotent(a: map<string, string>, timeout: int)
    ensures Defaulted(Defaulted(a, timeout), timeout) == Defaulted(a, timeout)
  {
    KeysDiffer();
  }

  predicate IsNumber(text: string) {
    text != "" && forall i :: 0 <= i < |text| ==> '0' <= text[i] <= '9'
  }

  /** Reads a number back. */
  function Value(digits: string): int {
    if digits == "" then 0 else 10 * Value(digits[..|digits| - 1]) + (digits[|digits| - 1] as int - '0' as int)
  }

  /** The digits are those of n, without a leading zero. */
  predicate Spells(digits: string, n: nat) {
    IsNumber(digits) && Value(digits) == n && (n > 0 ==> digits[0] != '0')
  }

  lemma ValueOfDigit(d: nat)
    requires d < 10
    ensures IsNumber([Digit(d)]) && Value([Digit(d)]) == d
  {
    assert [Digit(d)][..0] == "";
  }

  lemma ValueOfAppend(front: string, d: nat)
    requires IsNumber(front) && d < 10
    ensures IsNumber(front + [Digit(d)]) && Value(front + [Digit(d)]) == 10 * Value(front) + d
  {
    assert (front + [Digit(d)])[..|front|] == front;
  }

  lemma {:induction false} DecimalValue(n: nat)
    ensures Spells(Decimal(n), n)
  {
    if n < 10 {
      ValueOfDigit(n);
      assert Decimal(n) == [Digit(n)];
    } else {
      DecimalValue(n / 10);
      ValueOfAppend(Decimal(n / 10), n % 10);
      assert Decimal(n) == Decimal(n / 10) + [Digit(n % 10)];
    }
  }

  /** The operator writes a timeout as its decimal digits, none of them a leading zero, with a sign if it is
      negative, and an s: the number can be read back. */
  lemma SecondsSpelled(timeout: int) returns (digits: string)
    ensures Seconds(timeout) == (if timeout < 0 then "-" else "") + digits + "s"
    ensures Spells(digits, if timeout < 0 then -timeout else timeout)
  {
    if timeout < 0 {
      digits := Decimal(-timeout);
      DecimalValue(-timeout);
    } else {
      digits := Decimal(timeout);
      DecimalValue(timeout);
    }
  }
}
