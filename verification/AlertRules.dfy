/** The printer of the custom rules (internal/controller/alertrules.go) and the two
    scanners that read alert names back from it (there and in internal/alertreceiver/handler.go). */
module AlertRules {

  datatype UserAlert = UserAlert(alertName: string, alertRule: string, groupName: string)

  const PREFIX := "alert:"
  const INDENT := "    "
  const NAME_HEADER := "  - name: "
  const RULES_HEADER := "    rules:"
  const GROUPS_HEADER := "groups:"
  const NO_GROUPS := "groups: []"

  // ---------------------------------------------------------------- scanning

  predicate Blank(c: char) { c == ' ' || c == '\t' }

  function SkipBlanks(s: string): string {
    if s != "" && Blank(s[0]) then SkipBlanks(s[1..]) else s
  }

  predicate StartsAlert(line: string) { PREFIX <= line }

  /** What follows the first "alert:" that anything follows. */
  function AlertName(line: string): string {
    if line == "" then ""
    else if StartsAlert(line) && SkipBlanks(line[|PREFIX|..]) != "" then SkipBlanks(line[|PREFIX|..])
    else AlertName(line[1..])
  }

  /** The length of the first line. */
  function LineEnd(s: string): (n: nat)
    ensures n <= |s|
    ensures '\n' !in s[..n] && (n < |s| ==> s[n] == '\n')
  {
    if s == "" || s[0] == '\n' then 0 else
      assert s[..1 + LineEnd(s[1..])] == [s[0]] + s[1..][..LineEnd(s[1..])];
      1 + LineEnd(s[1..])
  }

  function NameOfLine(line: string): set<string> {
    if AlertName(line) == "" then {} else {AlertName(line)}
  }

  /** The alert names on the lines of a text. */
  function Scan(s: string): set<string>
    decreases |s|
  {
    if s == "" then {}
    else
      var n := LineEnd(s);
      NameOfLine(s[..n]) + (if n == |s| then {} else Scan(s[n + 1..]))
  }

  class Names {
    var names: set<string>

    constructor ()
      ensures names == {}
    {
      names := {};
    }

    method AddName(line: string)
      modifies this
      ensures names == old(names) + NameOfLine(line)
    {
      var name := ExtractAlertName(line);
      if name != "" {
        names := names + {name};
      }
    }

    /** parseAlertNamesFromString of the controller. */
    method ParseAlertNamesFromString(input: string)
      modifies this
      ensures names == old(names) + Scan(input)
    {
      var i := 0;
      ghost var found := {};
      while i < |input|
        invariant 0 <= i <= |input| + 1
        invariant found + ScanFrom(input, i) == Scan(input)
        invariant names == old(names) + found
      {
        var j := EndOfLine(input, i);
        var line := input[i..j];
        AddName(line);
        found := found + NameOfLine(line);
        i := j + 1;
      }
    }
  }

  /** The inner loop of both scanners. */
  method EndOfLine(input: string, i: nat) returns (j: nat)
    requires i < |input|
    ensures i <= j <= |input| && (j < |input| ==> input[j] == '\n') && '\n' !in input[i..j]
    ensures ScanFrom(input, i) == NameOfLine(input[i..j]) + ScanFrom(input, j + 1)
  {
    j := i;
    while j < |input| && input[j] != '\n'
      invariant i <= j <= |input|
      invariant forall k :: i <= k < j ==> input[k] != '\n'
    {
      j := j + 1;
    }
    NextLine(input, i, j);
  }

  /** The names on the lines from position `i` on. */
  function ScanFrom(s: string, i: nat): (r: set<string>)
    ensures i == 0 ==> r == Scan(s)
  {
    assert s[0..] == s;
    if i < |s| then Scan(s[i..]) else {}
  }

  lemma NextLine(s: string, i: nat, j: nat)
    requires i < |s| && i <= j <= |s| && '\n' !in s[i..j] && (j < |s| ==> s[j] == '\n')
    ensures ScanFrom(s, i) == NameOfLine(s[i..j]) + ScanFrom(s, j + 1)
  {
    var rest := s[i..];
    assert rest[..j - i] == s[i..j];
    FirstLine(rest, j - i);
    if j < |s| { assert rest[j - i + 1..] == s[j + 1..]; }
  }

  lemma {:induction false} FirstLine(s: string, n: nat)
    requires n <= |s| && '\n' !in s[..n] && (n < |s| ==> s[n] == '\n')
    ensures LineEnd(s) == n
  {
    if n > 0 {
      assert s[0] == s[..n][0] && s[1..][..n - 1] == s[..n][1..];
      FirstLine(s[1..], n - 1);
    }
  }

  /** extractAlertName of the controller. */
  method ExtractAlertName(line: string) returns (name: string)
    ensures name == AlertName(line)
  {
    var k := 0;
    while k < |line|
      invariant 0 <= k <= |line|
      invariant AlertName(line[k..]) == AlertName(line)
    {
      if k + |PREFIX| <= |line| && line[k..k + |PREFIX|] == PREFIX {
        assert StartsAlert(line[k..]);
        var rest := line[k + |PREFIX|..];
        var start := 0;
        while start < |rest| && Blank(rest[start])
          invariant 0 <= start <= |rest|
          invariant SkipBlanks(rest[start..]) == SkipBlanks(rest)
        {
          start := start + 1;
        }
        name := rest[start..];
        if |name| > 0 {
          return;
        }
      } else {
        NotAt(line, k);
      }
      k := k + 1;
    }
    name := "";
  }

  lemma NotAt(line: string, k: nat)
    requires k <= |line|
    ensures StartsAlert(line[k..]) <==> k + |PREFIX| <= |line| && line[k..k + |PREFIX|] == PREFIX
  {
    if k + |PREFIX| <= |line| {
      assert line[k..][..|PREFIX|] == line[k..k + |PREFIX|];
    }
  }

  lemma {:induction false} TooShort(line: string)
    requires |line| < |PREFIX|
    ensures AlertName(line) == ""
  {
    if line != "" { TooShort(line[1..]); }
  }

  /** extractAlertName of the receiver, whose loop ends earlier. */
  method ExtractAlertNameForReceiver(line: string) returns (name: string)
    ensures name == AlertName(line)
  {
    var k := 0;
    while k + |PREFIX| <= |line|
      invariant 0 <= k <= |line|
      invariant AlertName(line[k..]) == AlertName(line)
    {
      NotAt(line, k);
      if line[k..k + |PREFIX|] == PREFIX {
        var rest := line[k + |PREFIX|..];
        var start := 0;
        while start < |rest| && Blank(rest[start])
          invariant 0 <= start <= |rest|
          invariant SkipBlanks(rest[start..]) == SkipBlanks(rest)
        {
          start := start + 1;
        }
        assert line[k..][|PREFIX|..] == rest;
        if |rest[start..]| > 0 {
          return rest[start..];
        }
      }
      k := k + 1;
    }
    TooShort(line[k..]);
    name := "";
  }

  /** parseAlertNamesFromRulesYAML of the receiver: a second scanner, the same names. */
  method ParseAlertNamesFromRulesYAML(input: string) returns (names: set<string>)
    ensures names == Scan(input)
  {
    names := {};
    var i := 0;
    while i < |input|
      invariant 0 <= i <= |input| + 1
      invariant names + ScanFrom(input, i) == Scan(input)
    {
      var j := EndOfLine(input, i);
      var name := ExtractAlertNameForReceiver(input[i..j]);
      if name != "" {
        names := names + {name};
      }
      i := j + 1;
    }
  }

  // ---------------------------------------------------------------- printing

  /** unicode.IsSpace. */
  predicate Space(c: char) {
    || c == ' ' || '\t' <= c <= '\r'
    || c == '\U{85}' || c == '\U{A0}' || c == '\U{1680}' || '\U{2000}' <= c <= '\U{200A}'
    || c == '\U{2028}' || c == '\U{2029}' || c == '\U{202F}' || c == '\U{205F}' || c == '\U{3000}'
  }

  function TrimSpace(s: string): string {
    if s == "" then ""
    else if Space(s[0]) then TrimSpace(s[1..])
    else if Space(s[|s| - 1]) then TrimSpace(s[..|s| - 1])
    else s
  }

  /** Every newline is followed by an indentation. */
  function Indented(s: string): string {
    if s == "" then "" else (if s[0] == '\n' then "\n" + INDENT else [s[0]]) + Indented(s[1..])
  }

  function EffectiveGroup(a: UserAlert, lower: string -> string): string {
    if a.groupName == "" then "telco-user-" + lower(a.alertName) else a.groupName
  }

  function Group(a: UserAlert, lower: string -> string): string {
    Lines3(NAME_HEADER + EffectiveGroup(a, lower), RULES_HEADER, INDENT + Indented(TrimSpace(a.alertRule)))
  }

  function Lines3(a: string, b: string, c: string): string {
    a + "\n" + b + "\n" + c + "\n"
  }

  function Groups(alerts: seq<UserAlert>, lower: string -> string): string {
    if alerts == [] then "" else Group(alerts[0], lower) + Groups(alerts[1..], lower)
  }

  function Rules(alerts: seq<UserAlert>, lower: string -> string): string {
    if alerts == [] then NO_GROUPS + "\n" else GROUPS_HEADER + "\n" + Groups(alerts, lower)
  }

  method BuildCustomRulesYAML(alerts: seq<UserAlert>, lower: string -> string) returns (content: string)
    ensures content == Rules(alerts, lower)
  {
    if |alerts| == 0 {
      return NO_GROUPS + "\n";
    }
    content := GROUPS_HEADER + "\n";
    var i := 0;
    while i < |alerts|
      invariant 0 <= i <= |alerts|
      invariant content + Groups(alerts[i..], lower) == Rules(alerts, lower)
    {
      var groupName := alerts[i].groupName;
      if groupName == "" {
        groupName := "telco-user-" + lower(alerts[i].alertName);
      }
      var indented := Indented(TrimSpace(alerts[i].alertRule));
      var group := Lines3(NAME_HEADER + groupName, RULES_HEADER, INDENT + indented);
      AddGroup(content, group, alerts[i..], lower);
      content := content + group;
      i := i + 1;
    }
    assert content + "" == content;
  }

  lemma AddGroup(content: string, group: string, alerts: seq<UserAlert>, lower: string -> string)
    requires alerts != [] && group == Group(alerts[0], lower)
    ensures content + Groups(alerts, lower) == content + group + Groups(alerts[1..], lower)
  {
  }

  // ---------------------------------------------------------------- the scanners read what was printed

  lemma {:induction false} ScanJoin(a: string, b: string)
    ensures Scan(a + "\n" + b) == Scan(a) + Scan(b)
    decreases |a|
  {
    var s := a + "\n" + b;
    var n := LineEnd(a);
    assert s[..n] == a[..n];
    if n == |a| {
      FirstLine(s, n);
      assert s[n + 1..] == b;
      assert a[..n] == a;
      assert AlertName("") == "";
    } else {
      FirstLine(s, n);
      assert s[n + 1..] == a[n + 1..] + "\n" + b;
      ScanJoin(a[n + 1..], b);
    }
  }

  /** A piece of text that can be put before a line without changing its alert name. */
  ghost predicate Harmless(p: string) {
    && '\n' !in p
    && forall k :: 0 <= k < |p| && p[k] == 'a' ==> k + 1 < |p| && p[k + 1] != 'l'
  }

  lemma StartsMeans(line: string)
    requires StartsAlert(line)
    ensures |line| > 1 && line[0] == 'a' && line[1] == 'l'
  {
    assert line[..|PREFIX|] == PREFIX;
    assert line[0] == PREFIX[0] && line[1] == PREFIX[1];
  }

  lemma {:induction false} HarmlessPrefix(p: string, line: string)
    requires Harmless(p)
    ensures AlertName(p + line) == AlertName(line)
    decreases |p|
  {
    if p == "" {
      assert p + line == line;
    } else {
      var all := p + line;
      assert all[1..] == p[1..] + line;
      if StartsAlert(all) { StartsMeans(all); }
      HarmlessPrefix(p[1..], line);
    }
  }

  lemma ScanLine(line: string)
    requires '\n' !in line
    ensures Scan(line) == NameOfLine(line)
  {
    FirstLine(line, |line|);
    assert line[..|line|] == line;
    assert AlertName("") == "";
  }

  lemma ScanPrefixedLine(p: string, line: string)
    requires Harmless(p) && '\n' !in line
    ensures Scan(p + line) == Scan(line)
  {
    HarmlessPrefix(p, line);
    ScanLine(line);
    ScanLine(p + line);
  }

  lemma ScanPrefix(p: string, s: string)
    requires Harmless(p)
    ensures Scan(p + s) == Scan(s)
  {
    var n := LineEnd(s);
    ScanPrefixedLine(p, s[..n]);
    if n == |s| {
      assert s[..n] == s;
    } else {
      SplitAt(p, s, n);
      ScanJoin(s[..n], s[n + 1..]);
      ScanJoin(p + s[..n], s[n + 1..]);
    }
  }

  lemma SplitAt(p: string, s: string, n: nat)
    requires n < |s| && s[n] == '\n'
    ensures s == s[..n] + "\n" + s[n + 1..]
    ensures p + s == p + s[..n] + "\n" + s[n + 1..]
  {
  }

  lemma {:induction false} IndentLine(s: string)
    requires '\n' !in s
    ensures Indented(s) == s
  {
    if s != "" { IndentLine(s[1..]); }
  }

  lemma {:induction false} IndentJoin(a: string, b: string)
    ensures Indented(a + b) == Indented(a) + Indented(b)
  {
    if a == "" {
      assert a + b == b;
    } else {
      assert (a + b)[1..] == a[1..] + b;
      IndentJoin(a[1..], b);
    }
  }

  /** Indentation neither adds nor loses a name. */
  lemma {:induction false} ScanIndented(s: string)
    ensures Scan(Indented(s)) == Scan(s)
    decreases |s|
  {
    var n := LineEnd(s);
    if n == |s| {
      assert s[..n] == s;
      IndentLine(s);
    } else {
      var line, rest := s[..n], s[n + 1..];
      assert s == line + "\n" + rest;
      ScanJoin(line, rest);
      IndentSplit(line, rest);
      ScanJoin(line, INDENT + Indented(rest));
      HeadersHarmless();
      ScanPrefix(INDENT, Indented(rest));
      ScanIndented(rest);
    }
  }

  lemma IndentSplit(line: string, rest: string)
    requires '\n' !in line
    ensures Indented(line + "\n" + rest) == line + "\n" + (INDENT + Indented(rest))
  {
    IndentLine(line);
    var tail := "\n" + rest;
    assert line + "\n" + rest == line + tail;
    IndentJoin(line, tail);
    assert tail[0] == '\n' && tail[1..] == rest;
    assert Indented(tail) == "\n" + INDENT + Indented(rest);
  }

  lemma HeadersHarmless()
    ensures Harmless(INDENT) && Harmless(NAME_HEADER) && Harmless(RULES_HEADER)
    ensures Harmless(GROUPS_HEADER) && Harmless(NO_GROUPS)
  {
  }

  /** The names that an alert brings in: those of its group name and those of its rule. */
  function Brought(a: UserAlert, lower: string -> string): set<string> {
    Scan(EffectiveGroup(a, lower)) + Scan(TrimSpace(a.alertRule))
  }

  function BroughtByAll(alerts: seq<UserAlert>, lower: string -> string): set<string> {
    if alerts == [] then {} else Brought(alerts[0], lower) + BroughtByAll(alerts[1..], lower)
  }

  lemma TwoLines(p: string, c: string, d: string, rest: string)
    ensures p + c + d + rest == p + (c + d + rest)
  {
  }

  lemma Nested(a: string, b: string, c: string, rest: string)
    ensures Lines3(a, b, c) + rest == a + "\n" + (b + "\n" + (c + "\n" + rest))
  {
    var z := c + "\n" + rest;
    TwoLines(a + "\n" + b + "\n", c, "\n", rest);
    TwoLines(a + "\n", b, "\n", z);
  }

  lemma ScanLines3(a: string, b: string, c: string, rest: string)
    ensures Scan(Lines3(a, b, c) + rest) == Scan(a) + Scan(b) + Scan(c) + Scan(rest)
  {
    Nested(a, b, c, rest);
    ScanJoin(a, b + "\n" + (c + "\n" + rest));
    ScanJoin(b, c + "\n" + rest);
    ScanJoin(c, rest);
  }

  /** A harmless line holds no name. */
  lemma ScanHarmless(p: string)
    requires Harmless(p)
    ensures Scan(p) == {}
  {
    ScanPrefix(p, "");
    assert p + "" == p;
  }

  lemma ScanGroup(a: UserAlert, lower: string -> string, rest: string)
    ensures Scan(Group(a, lower) + rest) == Brought(a, lower) + Scan(rest)
  {
    var group, rule := EffectiveGroup(a, lower), TrimSpace(a.alertRule);
    ScanLines3(NAME_HEADER + group, RULES_HEADER, INDENT + Indented(rule), rest);
    HeadersHarmless();
    ScanPrefix(NAME_HEADER, group);
    ScanHarmless(RULES_HEADER);
    ScanPrefix(INDENT, Indented(rule));
    ScanIndented(rule);
  }

  lemma {:induction false} ScanGroups(alerts: seq<UserAlert>, lower: string -> string)
    ensures Scan(Groups(alerts, lower)) == BroughtByAll(alerts, lower)
  {
    if alerts != [] {
      ScanGroup(alerts[0], lower, Groups(alerts[1..], lower));
      ScanGroups(alerts[1..], lower);
    }
  }

  /** For any alerts at all, scanning the printed rules gives exactly the names on the
      lines of the trimmed rules and of the group names. */
  lemma PrintedNames(alerts: seq<UserAlert>, lower: string -> string)
    ensures Scan(Rules(alerts, lower)) == BroughtByAll(alerts, lower)
  {
    HeadersHarmless();
    if alerts == [] {
      ScanJoin(NO_GROUPS, "");
      assert NO_GROUPS + "\n" + "" == NO_GROUPS + "\n";
      ScanHarmless(NO_GROUPS);
    } else {
      ScanJoin(GROUPS_HEADER, Groups(alerts, lower));
      ScanHarmless(GROUPS_HEADER);
      ScanGroups(alerts, lower);
    }
  }

  function RuleNames(alerts: seq<UserAlert>): set<string> {
    if alerts == [] then {} else Scan(TrimSpace(alerts[0].alertRule)) + RuleNames(alerts[1..])
  }

  /** "alert:" occurs in the text. */
  predicate Mentions(s: string) {
    exists k :: 0 <= k <= |s| && "alert:" <= s[k..]
  }

  lemma {:induction false} NothingToScan(s: string)
    requires !Mentions(s)
    ensures AlertName(s) == ""
  {
    if s != "" {
      assert s[0..] == s;
      forall k | 0 <= k <= |s[1..]|
        ensures !StartsAlert(s[1..][k..])
      {
        assert s[1..][k..] == s[k + 1..];
      }
      NothingToScan(s[1..]);
    }
  }

  /** So with group names of one line that do not mention "alert:", the scanners find
      the names of the rules, no more and no fewer. */
  lemma {:induction false} PrinterScannerAgreement(alerts: seq<UserAlert>, lower: string -> string)
    requires forall i :: 0 <= i < |alerts| ==>
      '\n' !in EffectiveGroup(alerts[i], lower) && !Mentions(EffectiveGroup(alerts[i], lower))
    ensures Scan(Rules(alerts, lower)) == RuleNames(alerts)
  {
    PrintedNames(alerts, lower);
    QuietGroups(alerts, lower);
  }

  lemma {:induction false} QuietGroups(alerts: seq<UserAlert>, lower: string -> string)
    requires forall i :: 0 <= i < |alerts| ==>
      '\n' !in EffectiveGroup(alerts[i], lower) && !Mentions(EffectiveGroup(alerts[i], lower))
    ensures BroughtByAll(alerts, lower) == RuleNames(alerts)
  {
    if alerts != [] {
      var g := EffectiveGroup(alerts[0], lower);
      FirstLine(g, |g|);
      NothingToScan(g);
      assert g[..|g|] == g;
      QuietGroups(alerts[1..], lower);
    }
  }

  // ---------------------------------------------------------------- which names, on which lines

  /** "alert:" does not begin within the first `n` characters. */
  ghost predicate NotBefore(line: string, n: nat) {
    forall k :: 0 <= k < n <= |line| ==> !("alert:" <= line[k..])
  }

  ghost predicate SpacesAndTabs(s: string) {
    forall k :: 0 <= k < |s| ==> s[k] == ' ' || s[k] == '\t'
  }

  lemma {:induction false} SkipAll(b: string, n: string)
    requires SpacesAndTabs(b) && (n != "" ==> n[0] != ' ' && n[0] != '\t')
    ensures SkipBlanks(b + n) == n
  {
    if b == "" {
      assert b + n == n;
    } else {
      assert (b + n)[1..] == b[1..] + n;
      SkipAll(b[1..], n);
    }
  }

  lemma {:induction false} SkipTo(p: string, rest: string)
    requires NotBefore(p + rest, |p|)
    ensures AlertName(p + rest) == AlertName(rest)
    decreases |p|
  {
    if p == "" {
      assert p + rest == rest;
    } else {
      var all := p + rest;
      assert all[0..] == all && all[1..] == p[1..] + rest;
      forall k | 0 <= k < |p[1..]|
        ensures !("alert:" <= (p[1..] + rest)[k..])
      {
        assert (p[1..] + rest)[k..] == all[k + 1..];
      }
      SkipTo(p[1..], rest);
    }
  }

  lemma AlertBegins(x: string)
    ensures StartsAlert("alert:" + x) && ("alert:" + x)[|PREFIX|..] == x
  {
  }

  /** The name on a line is what follows the first "alert:" and the spaces and tabs behind
      it, to the end of the line. */
  lemma NameOnLine(p: string, b: string, n: string)
    requires NotBefore(p + ("alert:" + (b + n)), |p|) && SpacesAndTabs(b)
    requires n != "" && n[0] != ' ' && n[0] != '\t'
    ensures AlertName(p + ("alert:" + (b + n))) == n
  {
    SkipTo(p, "alert:" + (b + n));
    AlertBegins(b + n);
    SkipAll(b, n);
  }

  /** There is no name on a line without "alert:", nor on one that ends behind it. */
  lemma NoNameOnLine(line: string, p: string, b: string)
    requires !Mentions(line) || (line == p + ("alert:" + b) && NotBefore(line, |p|) && SpacesAndTabs(b))
    ensures AlertName(line) == ""
  {
    if Mentions(line) {
      SkipTo(p, "alert:" + b);
      AlertBegins(b);
      SkipAll(b, "");
      assert b + "" == b;
      NothingBehind(b);
    } else {
      NothingToScan(line);
    }
  }

  lemma NothingBehind(b: string)
    requires SpacesAndTabs(b)
    ensures AlertName(("alert:" + b)[1..]) == ""
  {
    assert ("alert:" + b)[1..] == "lert:" + b;
    OnlyOnce(b);
    NothingToScan("lert:" + b);
  }

  lemma OnlyOnce(b: string)
    requires SpacesAndTabs(b)
    ensures !Mentions("lert:" + b)
  {
    var s := "lert:" + b;
    forall k | 0 <= k <= |s|
      ensures !("alert:" <= s[k..])
    {
      assert "alert:"[0] == 'a';
      if k < |s| {
        assert s[k..][0] == s[k] != 'a';
      }
    }
  }

  /** The text from `i` to `j` is a whole line. */
  ghost predicate IsLine(s: string, i: int, j: int) {
    && 0 <= i <= j <= |s|
    && (i == 0 || s[i - 1] == '\n') && (j == |s| || s[j] == '\n')
    && forall k :: i <= k < j ==> s[k] != '\n'
  }

  ghost predicate OnSomeLine(s: string, name: string) {
    exists i, j :: IsLine(s, i, j) && AlertName(s[i..j]) == name
  }

  lemma FirstLineOrLater(s: string, n: nat, name: string)
    requires n <= |s| && '\n' !in s[..n] && (n < |s| ==> s[n] == '\n')
    ensures OnSomeLine(s, name) <==>
      AlertName(s[..n]) == name || (n < |s| && OnSomeLine(s[n + 1..], name))
  {
    if OnSomeLine(s, name) {
      var i, j :| IsLine(s, i, j) && AlertName(s[i..j]) == name;
      OtherLine(s, n, i, j);
      assert i == 0 ==> s[i..j] == s[..n];
    }
    if n < |s| && OnSomeLine(s[n + 1..], name) {
      LinesBehind(s, n, name);
    }
    if AlertName(s[..n]) == name {
      assert forall k :: 0 <= k < n ==> s[k] == s[..n][k];
      assert IsLine(s, 0, n) && s[0..n] == s[..n];
    }
  }

  /** A scan finds the names on its lines, each of them, and no others. */
  lemma {:induction false} ScanExactly(s: string, name: string)
    ensures name in Scan(s) <==> name != "" && OnSomeLine(s, name)
    decreases |s|
  {
    var n := LineEnd(s);
    FirstLineOrLater(s, n, name);
    if n < |s| {
      ScanExactly(s[n + 1..], name);
    }
  }

  /** A line is the first, or it begins behind the end of the first. */
  lemma OtherLine(s: string, n: nat, i: int, j: int)
    requires n <= |s| && '\n' !in s[..n] && (n < |s| ==> s[n] == '\n') && IsLine(s, i, j)
    ensures i == 0 ==> j == n
    ensures i > 0 ==> n < i && IsLine(s[n + 1..], i - n - 1, j - n - 1) && s[n + 1..][i - n - 1..j - n - 1] == s[i..j]
  {
    assert forall k :: 0 <= k < n ==> s[..n][k] == s[k];
  }

  lemma LinesBehind(s: string, n: nat, name: string)
    requires n < |s| && s[n] == '\n' && OnSomeLine(s[n + 1..], name)
    ensures OnSomeLine(s, name)
  {
    var i, j :| IsLine(s[n + 1..], i, j) && AlertName(s[n + 1..][i..j]) == name;
    assert s[n + 1..][i..j] == s[n + 1 + i..n + 1 + j];
    assert IsLine(s, n + 1 + i, n + 1 + j);
  }

  lemma {:induction false} BroughtIn(alerts: seq<UserAlert>, lower: string -> string, k: nat)
    requires k < |alerts|
    ensures Scan(TrimSpace(alerts[k].alertRule)) <= BroughtByAll(alerts, lower)
  {
    if k > 0 { BroughtIn(alerts[1..], lower, k - 1); }
  }

  /** So the name on any line of any rule is found in the printed text. */
  lemma RuleLineFound(alerts: seq<UserAlert>, lower: string -> string, k: nat, i: int, j: int,
                      p: string, b: string, n: string)
    requires k < |alerts| && IsLine(TrimSpace(alerts[k].alertRule), i, j)
    requires TrimSpace(alerts[k].alertRule)[i..j] == p + ("alert:" + (b + n))
    requires NotBefore(p + ("alert:" + (b + n)), |p|) && SpacesAndTabs(b)
    requires n != "" && n[0] != ' ' && n[0] != '\t'
    ensures n in Scan(Rules(alerts, lower))
  {
    NameOnLine(p, b, n);
    ScanExactly(TrimSpace(alerts[k].alertRule), n);
    BroughtIn(alerts, lower, k);
    PrintedNames(alerts, lower);
  }

  // ---------------------------------------------------------------- the lines of the printed text

  /** The lines of a text, without their newlines. */
  function Split(s: string): (lines: seq<string>)
    ensures |lines| > 0
  {
    if s == "" then [""]
    else if s[0] == '\n' then [""] + Split(s[1..])
    else BeforeFirst([s[0]], Split(s[1..]))
  }

  /** A piece of text in front of the first line. */
  function BeforeFirst(p: string, lines: seq<string>): (r: seq<string>)
    requires lines != []
    ensures |r| == |lines|
  {
    lines[0 := p + lines[0]]
  }

  lemma BeforeTwice(p: string, q: string, lines: seq<string>)
    requires lines != []
    ensures BeforeFirst(p, BeforeFirst(q, lines)) == BeforeFirst(p + q, lines)
  {
    assert p + (q + lines[0]) == p + q + lines[0];
  }

  lemma BeforeMore(p: string, lines: seq<string>, more: seq<string>)
    requires lines != []
    ensures BeforeFirst(p, lines + more) == BeforeFirst(p, lines) + more
  {
  }

  lemma ConsMore(lines: seq<string>, more: seq<string>)
    ensures [""] + (lines + more) == [""] + lines + more
  {
  }

  lemma {:induction false} SplitJoin(s: string, a: string, b: string)
    requires s == a + "\n" + b
    ensures Split(s) == Split(a) + Split(b)
    decreases |a|
  {
    if a == "" {
      assert s[1..] == b;
    } else {
      assert s[1..] == a[1..] + "\n" + b;
      SplitJoin(s[1..], a[1..], b);
      if s[0] == '\n' {
        ConsMore(Split(a[1..]), Split(b));
      } else {
        BeforeMore([s[0]], Split(a[1..]), Split(b));
      }
    }
  }

  /** Text without newlines in front of a text goes to its first line. */
  lemma {:induction false} SplitPrefix(p: string, s: string)
    requires '\n' !in p
    ensures Split(p + s) == BeforeFirst(p, Split(s))
  {
    if p == "" {
      assert p + s == s;
      assert "" + Split(s)[0] == Split(s)[0];
    } else {
      assert (p + s)[1..] == p[1..] + s;
      SplitPrefix(p[1..], s);
      BeforeTwice([p[0]], p[1..], Split(s));
      assert [p[0]] + p[1..] == p;
    }
  }

  lemma SplitLine(s: string)
    requires '\n' !in s
    ensures Split(s) == [s]
  {
    SplitPrefix(s, "");
    assert s + "" == s;
  }

  function Shifted(lines: seq<string>): seq<string> {
    seq(|lines|, k requires 0 <= k < |lines| => "    " + lines[k])
  }

  /** All lines but the first are shifted. */
  lemma {:induction false} IndentedSplit(s: string)
    ensures Split(Indented(s)) == [Split(s)[0]] + Shifted(Split(s)[1..])
  {
    if s == "" {
    } else if s[0] == '\n' {
      var rest := Split(s[1..]);
      NewlineIndented(s);
      IndentedSplit(s[1..]);
      SplitPrefix(INDENT, Indented(s[1..]));
      assert Shifted(rest) == [INDENT + rest[0]] + Shifted(rest[1..]);
    } else {
      IndentedSplit(s[1..]);
      assert Indented(s) == [s[0]] + Indented(s[1..]);
      SplitPrefix([s[0]], Indented(s[1..]));
    }
  }

  lemma NewlineIndented(s: string)
    requires s != "" && s[0] == '\n'
    ensures Split(Indented(s)) == [""] + Split(INDENT + Indented(s[1..]))
  {
    assert Indented(s) == "\n" + (INDENT + Indented(s[1..]));
  }

  /** The replacement of newlines shifts every line of a rule by four spaces. */
  lemma IndentedLines(s: string)
    ensures Split(INDENT + Indented(s)) == Shifted(Split(s))
  {
    IndentedSplit(s);
    SplitPrefix(INDENT, Indented(s));
  }

  /** The lines of one alert: its group, which defaults to the lower-cased name, the header
      of its rules, and its trimmed rule, shifted. */
  function LinesOf(a: UserAlert, lower: string -> string): seq<string> {
    Split("  - name: " + (if a.groupName == "" then "telco-user-" + lower(a.alertName) else a.groupName))
    + ["    rules:"] + Shifted(Split(TrimSpace(a.alertRule)))
  }

  function LinesOfAll(alerts: seq<UserAlert>, lower: string -> string): seq<string> {
    if alerts == [] then [] else LinesOf(alerts[0], lower) + LinesOfAll(alerts[1..], lower)
  }

  lemma ToTheLeft(x: seq<string>, y: seq<string>, z: seq<string>, w: seq<string>)
    ensures x + (y + (z + w)) == x + y + z + w
  {
    assert x + (y + (z + w)) == x + y + (z + w);
  }

  lemma Split3(all: string, a: string, y: string, b: string, z: string, c: string, rest: string)
    requires all == a + "\n" + y && y == b + "\n" + z && z == c + "\n" + rest
    ensures Split(all) == Split(a) + Split(b) + Split(c) + Split(rest)
  {
    SplitJoin(all, a, y);
    SplitJoin(y, b, z);
    SplitJoin(z, c, rest);
    ToTheLeft(Split(a), Split(b), Split(c), Split(rest));
  }

  lemma GroupLines(a: UserAlert, lower: string -> string, rest: string)
    ensures Split(Group(a, lower) + rest) == LinesOf(a, lower) + Split(rest)
  {
    var name, rule := NAME_HEADER + EffectiveGroup(a, lower), INDENT + Indented(TrimSpace(a.alertRule));
    var z := rule + "\n" + rest;
    Nested(name, RULES_HEADER, rule, rest);
    Split3(Group(a, lower) + rest, name, RULES_HEADER + "\n" + z, RULES_HEADER, z, rule, rest);
    SplitLine(RULES_HEADER);
    IndentedLines(TrimSpace(a.alertRule));
  }

  lemma {:induction false} GroupsLines(alerts: seq<UserAlert>, lower: string -> string)
    ensures Split(Groups(alerts, lower)) == LinesOfAll(alerts, lower) + [""]
  {
    if alerts == [] {
      SplitLine("");
    } else {
      GroupLines(alerts[0], lower, Groups(alerts[1..], lower));
      GroupsLines(alerts[1..], lower);
    }
  }

  /** The printed text, line by line; it ends with a newline. */
  lemma PrintedLines(alerts: seq<UserAlert>, lower: string -> string)
    ensures Split(Rules(alerts, lower)) ==
      (if alerts == [] then ["groups: []"] else ["groups:"] + LinesOfAll(alerts, lower)) + [""]
  {
    if alerts == [] {
      SplitHeader(NO_GROUPS, "");
      assert NO_GROUPS + "\n" + "" == NO_GROUPS + "\n";
      SplitLine("");
    } else {
      SplitHeader(GROUPS_HEADER, Groups(alerts, lower));
      GroupsLines(alerts, lower);
    }
  }

  lemma SplitHeader(header: string, rest: string)
    requires '\n' !in header
    ensures Split(header + "\n" + rest) == [header] + Split(rest)
  {
    SplitJoin(header + "\n" + rest, header, rest);
    SplitLine(header);
  }

  // ---------------------------------------------------------------- white space

  /** The characters of the Unicode property White_Space, one by one. */
  lemma SpaceExactly(c: char)
    ensures Space(c) <==>
      c in {'\t', '\n', '\U{0B}', '\U{0C}', '\r', ' ', '\U{85}', '\U{A0}', '\U{1680}', '\U{2000}', '\U{2001}',
            '\U{2002}', '\U{2003}', '\U{2004}', '\U{2005}', '\U{2006}', '\U{2007}', '\U{2008}', '\U{2009}',
            '\U{200A}', '\U{2028}', '\U{2029}', '\U{202F}', '\U{205F}', '\U{3000}'}
  {
  }

  ghost predicate AllSpace(s: string) { forall k :: 0 <= k < |s| ==> Space(s[k]) }

  /** A trimmed text is what is left between the white space at both ends. */
  lemma {:induction false} TrimExactly(s: string) returns (i: nat, j: nat)
    ensures i <= j <= |s| && TrimSpace(s) == s[i..j]
    ensures forall k :: 0 <= k < |s| && !(i <= k < j) ==> Space(s[k])
    ensures i < j ==> !Space(s[i]) && !Space(s[j - 1])
    decreases |s|
  {
    i, j := 0, |s|;
    if s == "" {
    } else if Space(s[0]) {
      i, j := TrimExactly(s[1..]);
      assert s[1..][i..j] == s[i + 1..j + 1];
      assert forall k :: 0 < k < |s| ==> s[k] == s[1..][k - 1];
      i, j := i + 1, j + 1;
    } else if Space(s[|s| - 1]) {
      i, j := TrimExactly(s[..|s| - 1]);
      assert s[..|s| - 1][i..j] == s[i..j];
    } else {
      assert s[0..|s|] == s;
    }
  }
}
