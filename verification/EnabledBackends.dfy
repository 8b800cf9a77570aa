/** The parser that extracts the enabled stores from a raw service configuration
    (api/v1beta1/common_types.go, GetEnabledBackends). */
module EnabledBackends {
  import opened Text

  const KEY := "enabled_backends"

  function Lines(config: string): seq<string> {
    Split(config, '\n')
  }

  /** A configuration line as the parser sees it: the key with its spaces removed and, when the line has
      an `=`, the text after the first one. */
  function Tokens(line: string): (string, Option<string>) {
    var (before, after) := Cut(TrimSpace(line), '=');
    (RemoveSpaces(before), after)
  }

  /** The stores listed on a key line; None when the line has no `=` and the program indexes the missing
      half, which is a run-time panic. */
  function Entries(line: string): Option<seq<string>> {
    match Tokens(line).1
    case None => None
    case Some(value) => Some(TrimAll(Split(TrimSpace(value), ',')))
  }

  predicate IsKeyLine(line: string) {
    Tokens(line).0 == KEY
  }

  predicate HasKeyLine(config: string) {
    var lines := Lines(config);
    exists i :: 0 <= i < |lines| && IsKeyLine(lines[i])
  }

  function ParseLines(lines: seq<string>): Option<seq<string>> {
    if lines == [] then Some([])
    else
      var token := Tokens(lines[0]).0;
      if token == "" || HasPrefix(token, "#") then ParseLines(lines[1..])
      else if token == KEY then Entries(lines[0])
      else ParseLines(lines[1..])
  }

  /** What GetEnabledBackends returns for a configuration; None is a run-time panic. */
  function Parse(config: string): Option<seq<string>> {
    ParseLines(Lines(config))
  }

  lemma KeyShape()
    ensures KEY != "" && !HasPrefix(KEY, "#") && !IsSpace(KEY[0])
    ensures ' ' !in KEY && '=' !in KEY && '\n' !in KEY
  {
    assert KEY[0] == 'e';
  }

  ghost predicate FirstKeyLine(lines: seq<string>, i: nat) {
    && i < |lines|
    && IsKeyLine(lines[i])
    && forall j :: 0 <= j < i ==> !IsKeyLine(lines[j])
  }

  ghost predicate PanicsAt(lines: seq<string>, i: nat) {
    FirstKeyLine(lines, i) && Tokens(lines[i]).1 == None
  }

  method AppendTrimmed(before: seq<string>, tokens: seq<string>) returns (available: seq<string>)
    ensures available == before + TrimAll(tokens)
  {
    available := before;
    for i := 0 to |tokens|
      invariant available == before + TrimAll(tokens)[..i]
    {
      available := available + [TrimSpace(tokens[i])];
    }
  }

  method GetEnabledBackends(config: string) returns (backends: Option<seq<string>>)
    ensures backends == Parse(config)
  {
    var lines := Lines(config);
    var available: seq<string> := [];
    for n := 0 to |lines|
      invariant available == []
      invariant ParseLines(lines[n..]) == Parse(config)
    {
      assert lines[n..][0] == lines[n] && lines[n..][1..] == lines[n + 1..];
      var tokenLine := Cut(TrimSpace(lines[n]), '=');
      var token := RemoveSpaces(tokenLine.0);
      if token == "" || HasPrefix(token, "#") {
        continue;
      }
      if token == KEY {
        KeyShape();
        if tokenLine.1.None? {
          return None;
        }
        var backendToken := Split(TrimSpace(tokenLine.1.value), ',');
        available := AppendTrimmed(available, backendToken);
        assert [] + TrimAll(backendToken) == TrimAll(backendToken);
        assert Entries(lines[n]) == Some(available);
        return Some(available);
      }
    }
    return Some(available);
  }

  /** The first key line alone decides the result: comments, blank lines and other keys before it and
      everything after it are ignored. */
  lemma {:induction false} FirstKeyLineDecides(lines: seq<string>, i: nat)
    requires FirstKeyLine(lines, i)
    ensures ParseLines(lines) == Entries(lines[i])
  {
    if i == 0 {
      KeyShape();
    } else {
      assert !IsKeyLine(lines[0]);
      forall j | 0 <= j < i - 1 ensures !IsKeyLine(lines[1..][j]) {
        assert lines[1..][j] == lines[j + 1];
      }
      FirstKeyLineDecides(lines[1..], i - 1);
    }
  }

  lemma {:induction false} NoKeyLine(lines: seq<string>)
    requires forall j :: 0 <= j < |lines| ==> !IsKeyLine(lines[j])
    ensures ParseLines(lines) == Some([])
  {
    if lines != [] {
      assert !IsKeyLine(lines[0]);
      forall j | 0 <= j < |lines| - 1 ensures !IsKeyLine(lines[1..][j]) {
        assert lines[1..][j] == lines[j + 1];
      }
      NoKeyLine(lines[1..]);
    }
  }

  lemma {:induction false} FindKeyLine(lines: seq<string>) returns (i: nat)
    ensures i <= |lines|
    ensures if i < |lines| then FirstKeyLine(lines, i)
            else forall j :: 0 <= j < |lines| ==> !IsKeyLine(lines[j])
  {
    i := 0;
    while i < |lines| && !IsKeyLine(lines[i])
      invariant i <= |lines|
      invariant forall j :: 0 <= j < i ==> !IsKeyLine(lines[j])
    {
      i := i + 1;
    }
  }

  /** The result is the empty list exactly when no line has the key, and the parser panics exactly when
      the first line with the key has no `=`. */
  lemma EmptyAndPanicExactly(config: string)
    ensures Parse(config) == Some([]) <==> !HasKeyLine(config)
    ensures Parse(config) == None <==> exists i: nat :: PanicsAt(Lines(config), i)
  {
    var lines := Lines(config);
    var i := FindKeyLine(lines);
    if i < |lines| {
      FirstKeyLineDecides(lines, i);
      assert Parse(config) == None <==> PanicsAt(lines, i);
      if j: nat :| PanicsAt(lines, j) {
        assert IsKeyLine(lines[i]) && IsKeyLine(lines[j]);
        assert j == i;
      }
    } else {
      NoKeyLine(lines);
    }
  }

  lemma {:induction false} RemoveSpacesPad(s: string, pad: string)
    requires ' ' !in s
    requires forall i :: 0 <= i < |pad| ==> pad[i] == ' '
    ensures RemoveSpaces(s + pad) == s
  {
    if s != "" {
      assert (s + pad)[1..] == s[1..] + pad;
      RemoveSpacesPad(s[1..], pad);
    } else if pad != "" {
      assert s + pad == pad && "" + pad[1..] == pad[1..];
      RemoveSpacesPad("", pad[1..]);
    }
  }

  function KeyLine(left: string, keyPad: string, value: string): string {
    left + (KEY + keyPad + "=" + value)
  }

  lemma LineTokens(left: string, key: string, keyPad: string, value: string)
    requires AllSpace(left)
    requires key != "" && !IsSpace(key[0]) && ' ' !in key && '=' !in key
    requires forall i :: 0 <= i < |keyPad| ==> keyPad[i] == ' '
    ensures Tokens(left + (key + keyPad + "=" + value)) == (key, Some(TrimRight(value)))
  {
    var k := key + keyPad;
    TrimLeftPad(left, k + "=" + value);
    assert (k + "=" + value)[0] == key[0];
    TrimRightKeeps(k, '=', value);
    CutAt(k, '=', TrimRight(value));
    RemoveSpacesPad(key, keyPad);
  }

  lemma KeyLineTokens(left: string, keyPad: string, value: string)
    requires AllSpace(left)
    requires forall i :: 0 <= i < |keyPad| ==> keyPad[i] == ' '
    ensures Tokens(KeyLine(left, keyPad, value)) == (KEY, Some(TrimRight(value)))
  {
    KeyShape();
    LineTokens(left, KEY, keyPad, value);
  }

  function Padded(entries: seq<string>, pads: seq<(string, string)>): seq<string>
    requires |pads| == |entries|
  {
    seq(|entries|, i requires 0 <= i < |entries| => pads[i].0 + entries[i] + pads[i].1)
  }

  ghost predicate Blank(s: string) {
    AllSpace(s) && '\n' !in s && ',' !in s
  }

  lemma JoinAvoids(parts: seq<string>, sep: char, c: char)
    requires parts != [] && c != sep
    requires forall i :: 0 <= i < |parts| ==> c !in parts[i]
    ensures c !in Join(parts, sep)
  {
  }

  lemma ValueRoundTrip(entries: seq<string>, pads: seq<(string, string)>)
    requires entries != [] && |pads| == |entries|
    requires forall i :: 0 <= i < |entries| ==> Trimmed(entries[i]) && ',' !in entries[i]
    requires forall i :: 0 <= i < |pads| ==> Blank(pads[i].0) && Blank(pads[i].1)
    ensures TrimAll(Split(TrimSpace(TrimRight(Join(Padded(entries, pads), ','))), ',')) == entries
  {
    var padded := Padded(entries, pads);
    var value := Join(padded, ',');
    SplitTrimRight(value, ',');
    SplitTrimLeft(TrimRight(value), ',');
    SplitTrimRight(TrimLeft(TrimRight(value)), ',');
    SplitJoin(padded, ',');
    forall i | 0 <= i < |entries| ensures TrimSpace(padded[i]) == entries[i] {
      TrimSpacePadded(pads[i].0, entries[i], pads[i].1);
    }
  }

  lemma KeyLineOneLine(left: string, keyPad: string, entries: seq<string>, pads: seq<(string, string)>)
    requires Blank(left) && forall i :: 0 <= i < |keyPad| ==> keyPad[i] == ' '
    requires entries != [] && |pads| == |entries|
    requires forall i :: 0 <= i < |entries| ==> '\n' !in entries[i]
    requires forall i :: 0 <= i < |pads| ==> Blank(pads[i].0) && Blank(pads[i].1)
    ensures '\n' !in KeyLine(left, keyPad, Join(Padded(entries, pads), ','))
  {
    KeyShape();
    JoinAvoids(Padded(entries, pads), ',', '\n');
  }

  lemma KeyLineEntries(left: string, keyPad: string, entries: seq<string>, pads: seq<(string, string)>)
    requires Blank(left) && forall i :: 0 <= i < |keyPad| ==> keyPad[i] == ' '
    requires entries != [] && |pads| == |entries|
    requires forall i :: 0 <= i < |entries| ==> Trimmed(entries[i]) && ',' !in entries[i]
    requires forall i :: 0 <= i < |pads| ==> Blank(pads[i].0) && Blank(pads[i].1)
    ensures IsKeyLine(KeyLine(left, keyPad, Join(Padded(entries, pads), ',')))
    ensures Entries(KeyLine(left, keyPad, Join(Padded(entries, pads), ','))) == Some(entries)
  {
    KeyLineTokens(left, keyPad, Join(Padded(entries, pads), ','));
    ValueRoundTrip(entries, pads);
  }

  lemma FirstKeyLineAfter(before: seq<string>, line: string, after: seq<string>)
    requires forall i :: 0 <= i < |before| ==> !IsKeyLine(before[i])
    requires IsKeyLine(line)
    ensures FirstKeyLine(before + [line] + after, |before|)
  {
    var lines := before + [line] + after;
    forall j | 0 <= j < |before| ensures !IsKeyLine(lines[j]) {
      assert lines[j] == before[j];
    }
  }

  lemma AppendAvoids(a: seq<string>, b: seq<string>, c: char)
    requires forall i :: 0 <= i < |a| ==> c !in a[i]
    requires forall i :: 0 <= i < |b| ==> c !in b[i]
    ensures forall i :: 0 <= i < |a + b| ==> c !in (a + b)[i]
  {
    forall i | 0 <= i < |a + b| ensures c !in (a + b)[i] {
      if i < |a| {
        assert (a + b)[i] == a[i];
      } else {
        assert (a + b)[i] == b[i - |a|];
      }
    }
  }

  lemma SplitLines(before: seq<string>, line: string, after: seq<string>)
    requires forall i :: 0 <= i < |before| ==> '\n' !in before[i]
    requires '\n' !in line
    requires forall i :: 0 <= i < |after| ==> '\n' !in after[i]
    ensures Split(Join(before + [line] + after, '\n'), '\n') == before + [line] + after
  {
    AppendAvoids(before, [line], '\n');
    AppendAvoids(before + [line], after, '\n');
    SplitJoin(before + [line] + after, '\n');
  }

  lemma KeyLineWithin(before: seq<string>, line: string, after: seq<string>)
    requires forall i :: 0 <= i < |before| ==> '\n' !in before[i] && !IsKeyLine(before[i])
    requires '\n' !in line && IsKeyLine(line)
    requires forall i :: 0 <= i < |after| ==> '\n' !in after[i]
    ensures Parse(Join(before + [line] + after, '\n')) == Entries(line)
  {
    SplitLines(before, line, after);
    FirstKeyLineAfter(before, line, after);
    FirstKeyLineDecides(before + [line] + after, |before|);
  }

  /** Printing a list of stores on a key line and parsing the configuration gives the list back, whatever
      the padding, the preceding lines with other keys and the following text, further key lines included. */
  lemma RoundTrip(before: seq<string>, left: string, keyPad: string, entries: seq<string>,
                  pads: seq<(string, string)>, after: seq<string>)
    requires forall i :: 0 <= i < |before| ==> '\n' !in before[i] && !IsKeyLine(before[i])
    requires forall i :: 0 <= i < |after| ==> '\n' !in after[i]
    requires Blank(left) && forall i :: 0 <= i < |keyPad| ==> keyPad[i] == ' '
    requires entries != [] && |pads| == |entries|
    requires forall i :: 0 <= i < |entries| ==> Trimmed(entries[i]) && ',' !in entries[i] && '\n' !in entries[i]
    requires forall i :: 0 <= i < |pads| ==> Blank(pads[i].0) && Blank(pads[i].1)
    ensures
      var line := KeyLine(left, keyPad, Join(Padded(entries, pads), ','));
      Parse(Join(before + [line] + after, '\n')) == Some(entries)
  {
    var line := KeyLine(left, keyPad, Join(Padded(entries, pads), ','));
    KeyLineOneLine(left, keyPad, entries, pads);
    KeyLineEntries(left, keyPad, entries, pads);
    KeyLineWithin(before, line, after);
  }
}
