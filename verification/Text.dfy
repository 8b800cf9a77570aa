/** The string operations of Go's `strings` package that the operator relies on, and the facts about
    them that the parser and the object names need. */
module Text {

  datatype Option<+T> = None | Some(value: T)

  /** Unicode White_Space, the class `strings.TrimSpace` removes. */
  predicate IsSpace(c: char) {
    var n := c as int;
    || 9 <= n <= 13 || n == 32 || n == 0x85 || n == 0xA0 || n == 0x1680
    || 0x2000 <= n <= 0x200a || n == 0x2028 || n == 0x2029 || n == 0x202f || n == 0x205f || n == 0x3000
  }

  /** In ASCII these are the tab, the line and page ends and the blank. */
  lemma AsciiSpace(c: char)
    requires c as int < 128
    ensures IsSpace(c) <==> c in {'\t', '\n', '\U{0B}', '\U{0C}', '\r', ' '}
  {
  }

  function TrimLeft(s: string): string {
    if s != "" && IsSpace(s[0]) then TrimLeft(s[1..]) else s
  }

  function TrimRight(s: string): string {
    if s != "" && IsSpace(s[|s| - 1]) then TrimRight(s[..|s| - 1]) else s
  }

  /** `strings.TrimSpace` */
  function TrimSpace(s: string): string {
    TrimRight(TrimLeft(s))
  }

  predicate AllSpace(s: string) {
    forall i :: 0 <= i < |s| ==> IsSpace(s[i])
  }

  predicate Trimmed(s: string) {
    s == "" || (!IsSpace(s[0]) && !IsSpace(s[|s| - 1]))
  }

  /** `strings.Split` with a one-character separator. */
  function Split(s: string, sep: char): (parts: seq<string>)
    ensures parts != []
  {
    if s == "" then [""]
    else
      var rest := Split(s[1..], sep);
      if s[0] == sep then [""] + rest else [[s[0]] + rest[0]] + rest[1..]
  }

  /** `strings.Join` with a one-character separator. */
  function Join(parts: seq<string>, sep: char): string
    requires parts != []
  {
    if |parts| == 1 then parts[0] else parts[0] + [sep] + Join(parts[1..], sep)
  }

  /** `strings.SplitN(s, sep, 2)`: the text before the first separator and, if there is one, after it. */
  function Cut(s: string, sep: char): (string, Option<string>) {
    if s == "" then ("", None)
    else if s[0] == sep then ("", Some(s[1..]))
    else
      var (before, after) := Cut(s[1..], sep);
      ([s[0]] + before, after)
  }

  /** `strings.ReplaceAll(s, " ", "")` */
  function RemoveSpaces(s: string): string {
    if s == "" then "" else (if s[0] == ' ' then "" else [s[0]]) + RemoveSpaces(s[1..])
  }

  predicate HasPrefix(s: string, prefix: string) {
    prefix <= s
  }

  /** `strings.TrimPrefix` */
  function TrimPrefix(s: string, prefix: string): string {
    if HasPrefix(s, prefix) then s[|prefix|..] else s
  }

  function TrimAll(parts: seq<string>): seq<string> {
    seq(|parts|, i requires 0 <= i < |parts| => TrimSpace(parts[i]))
  }

  // ----- Splitting -----

  lemma {:induction false} SplitFirst(a: string, sep: char, b: string)
    requires sep !in a
    ensures Split(a + [sep] + b, sep) == [a] + Split(b, sep)
  {
    if a == "" {
      assert a + [sep] + b == [sep] + b;
      assert ([sep] + b)[1..] == b;
    } else {
      SplitFirst(a[1..], sep, b);
      assert (a + [sep] + b)[1..] == a[1..] + [sep] + b;
      assert [a[0]] + a[1..] == a;
    }
  }

  lemma {:induction false} SplitNone(a: string, sep: char)
    requires sep !in a
    ensures Split(a, sep) == [a]
  {
    if a != "" {
      SplitNone(a[1..], sep);
      assert [a[0]] + a[1..] == a;
    }
  }

  /** Splitting undoes joining parts that do not contain the separator. */
  lemma {:induction false} SplitJoin(parts: seq<string>, sep: char)
    requires parts != []
    requires forall i :: 0 <= i < |parts| ==> sep !in parts[i]
    ensures Split(Join(parts, sep), sep) == parts
  {
    if |parts| == 1 {
      SplitNone(parts[0], sep);
    } else {
      SplitFirst(parts[0], sep, Join(parts[1..], sep));
      SplitJoin(parts[1..], sep);
    }
  }

  lemma SplitStep(first: char, sep: char, rest: seq<string>, c: char)
    requires rest != []
    ensures
      var n := |rest| - 1;
      var rest' := rest[..n] + [rest[n] + [c]];
      var parts := if first == sep then [""] + rest else [[first] + rest[0]] + rest[1..];
      parts[..|parts| - 1] + [parts[|parts| - 1] + [c]]
      == if first == sep then [""] + rest' else [[first] + rest'[0]] + rest'[1..]
  {
    if first != sep && |rest| == 1 {
      assert [first] + (rest[0] + [c]) == [first] + rest[0] + [c];
    }
  }

  lemma {:induction false} SplitSnoc(s: string, sep: char, c: char)
    requires c != sep
    ensures
      var parts := Split(s, sep);
      Split(s + [c], sep) == parts[..|parts| - 1] + [parts[|parts| - 1] + [c]]
  {
    if s == "" {
      assert s + [c] == [c] == [c] + "";
      assert [c][1..] == "";
      assert Split([c], sep) == [[c]];
    } else {
      SplitSnoc(s[1..], sep, c);
      assert (s + [c])[1..] == s[1..] + [c] && (s + [c])[0] == s[0];
      SplitStep(s[0], sep, Split(s[1..], sep), c);
    }
  }

  lemma {:induction false} CutAt(a: string, sep: char, b: string)
    requires sep !in a
    ensures Cut(a + [sep] + b, sep) == (a, Some(b))
  {
    if a == "" {
      assert a + [sep] + b == [sep] + b;
      assert ([sep] + b)[1..] == b;
    } else {
      CutAt(a[1..], sep, b);
      assert (a + [sep] + b)[1..] == a[1..] + [sep] + b;
      assert [a[0]] + a[1..] == a;
    }
  }

  // ----- Trimming -----

  lemma {:induction false} TrimLeftPad(pad: string, s: string)
    requires AllSpace(pad)
    ensures TrimLeft(pad + s) == TrimLeft(s)
  {
    if pad == "" {
      assert pad + s == s;
    } else {
      assert (pad + s)[1..] == pad[1..] + s;
      TrimLeftPad(pad[1..], s);
    }
  }

  lemma {:induction false} TrimRightPad(s: string, pad: string)
    requires AllSpace(pad)
    ensures TrimRight(s + pad) == TrimRight(s)
  {
    if pad == "" {
      assert s + pad == s;
    } else {
      var n := |pad| - 1;
      assert (s + pad)[..|s + pad| - 1] == s + pad[..n];
      TrimRightPad(s, pad[..n]);
    }
  }

  /** Trimming on the right stops at a character that is not white space. */
  lemma {:induction false} TrimRightKeeps(a: string, c: char, b: string)
    requires !IsSpace(c)
    ensures TrimRight(a + [c] + b) == a + [c] + TrimRight(b)
  {
    var s := a + [c] + b;
    if b == "" {
      assert s == a + [c];
    } else if IsSpace(b[|b| - 1]) {
      assert s[..|s| - 1] == a + [c] + b[..|b| - 1];
      TrimRightKeeps(a, c, b[..|b| - 1]);
    }
  }

  lemma {:induction false} TrimLeftSnoc(s: string, c: char)
    requires IsSpace(c)
    ensures TrimLeft(s + [c]) == if AllSpace(s) then "" else TrimLeft(s) + [c]
    ensures AllSpace(s) ==> TrimLeft(s) == ""
  {
    if s == "" {
      assert s + [c] == [c];
      assert [c][1..] == "";
    } else {
      assert (s + [c])[1..] == s[1..] + [c];
      TrimLeftSnoc(s[1..], c);
      assert AllSpace(s) <==> IsSpace(s[0]) && AllSpace(s[1..]) by {
        forall i | 1 <= i < |s| && AllSpace(s[1..]) ensures IsSpace(s[i]) {
          assert s[i] == s[1..][i - 1];
        }
      }
    }
  }

  lemma TrimSpaceSnoc(s: string, c: char)
    requires IsSpace(c)
    ensures TrimSpace(s + [c]) == TrimSpace(s)
  {
    TrimLeftSnoc(s, c);
    if !AllSpace(s) {
      TrimRightPad(TrimLeft(s), [c]);
    }
  }

  lemma TrimSpacePadded(left: string, s: string, right: string)
    requires AllSpace(left) && AllSpace(right) && Trimmed(s)
    ensures TrimSpace(left + s + right) == s
  {
    assert left + s + right == left + (s + right);
    TrimLeftPad(left, s + right);
    if s == "" {
      assert s + right == right + "";
      TrimLeftPad(right, "");
    } else {
      TrimRightPad(s, right);
    }
  }

  /** White space around a separated list does not change its trimmed entries. */
  lemma {:induction false} SplitTrimLeft(v: string, sep: char)
    requires !IsSpace(sep)
    ensures TrimAll(Split(TrimLeft(v), sep)) == TrimAll(Split(v, sep))
  {
    if v != "" && IsSpace(v[0]) {
      SplitTrimLeft(v[1..], sep);
      var rest := Split(v[1..], sep);
      assert [v[0]] + rest[0] == [v[0]] + rest[0];
      TrimLeftPad([v[0]], rest[0]);
      assert TrimSpace([v[0]] + rest[0]) == TrimSpace(rest[0]);
    }
  }

  lemma TrimLastSnoc(front: seq<string>, last: string, c: char)
    requires IsSpace(c)
    ensures TrimAll(front + [last + [c]]) == TrimAll(front + [last])
  {
    TrimSpaceSnoc(last, c);
  }

  lemma {:induction false} SplitTrimRight(v: string, sep: char)
    requires !IsSpace(sep)
    ensures TrimAll(Split(TrimRight(v), sep)) == TrimAll(Split(v, sep))
  {
    if v != "" && IsSpace(v[|v| - 1]) {
      var init, c := v[..|v| - 1], v[|v| - 1];
      assert v == init + [c];
      SplitTrimRight(init, sep);
      SplitSnoc(init, sep, c);
      var parts := Split(init, sep);
      TrimLastSnoc(parts[..|parts| - 1], parts[|parts| - 1], c);
      assert parts == parts[..|parts| - 1] + [parts[|parts| - 1]];
    }
  }

  // ----- Names joined with hyphens -----

  lemma SuffixInjective(a: string, b: string, suffix: string)
    requires a + suffix == b + suffix
    ensures a == b
  {
    assert |a| == |b|;
    assert a == (a + suffix)[..|a|] == (b + suffix)[..|b|] == b;
  }

  lemma LastHyphen(a: string, s: string)
    requires '-' !in s
    ensures (a + "-" + s)[|a|] == '-'
    ensures forall k :: |a| < k < |a + "-" + s| ==> (a + "-" + s)[k] != '-'
  {
    forall k | |a| < k < |a + "-" + s| ensures (a + "-" + s)[k] != '-' {
      assert (a + "-" + s)[k] == s[k - |a| - 1];
    }
  }

  /** A hyphen-free last part is recovered from a hyphenated name, however many hyphens the first has. */
  lemma HyphenInjective(a: string, s: string, b: string, t: string)
    requires '-' !in s && '-' !in t
    requires a + "-" + s == b + "-" + t
    ensures a == b && s == t
  {
    LastHyphen(a, s);
    LastHyphen(b, t);
    var x := a + "-" + s;
    assert |a| == |b|;
    assert a == x[..|a|] == b && s == x[|a| + 1..] == t;
  }
}
