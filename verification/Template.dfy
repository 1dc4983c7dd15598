/** Config values: the template scanner as a loop over an index, its specification as
    a function of the text still to scan, an escaping printer that is its inverse, and
    the resolution of the parts against an environment. What a value resolves to, text
    and references together, is in `TemplateValues`. */
module Template {
  import opened Wrappers

  datatype Part = Literal(value: string) | EnvVar(name: string)

  predicate IsNameStart(c: char) {
    'A' <= c <= 'Z' || 'a' <= c <= 'z' || c == '_'
  }

  predicate IsNameChar(c: char) {
    IsNameStart(c) || '0' <= c <= '9'
  }

  predicate ValidName(s: string) {
    s != "" && IsNameStart(s[0]) && forall i :: 0 <= i < |s| ==> IsNameChar(s[i])
  }

  function AppendLiteral(parts: seq<Part>, value: string): seq<Part> {
    if value == "" then parts
    else if parts != [] && parts[|parts| - 1].Literal? then
      parts[..|parts| - 1] + [Literal(parts[|parts| - 1].value + value)]
    else parts + [Literal(value)]
  }

  /** The first position of a character, or the length if there is none. */
  function IndexOf(s: string, c: char): (i: nat)
    ensures i <= |s|
    ensures i < |s| ==> s[i] == c
    ensures forall j :: 0 <= j < i ==> s[j] != c
  {
    if s == "" || s[0] == c then 0 else 1 + IndexOf(s[1..], c)
  }

  /** The length of the name characters a string starts with. */
  function NameRun(s: string): (n: nat)
    ensures n <= |s|
    ensures forall i :: 0 <= i < n ==> IsNameChar(s[i])
    ensures n < |s| ==> !IsNameChar(s[n])
  {
    if s == "" || !IsNameChar(s[0]) then 0 else 1 + NameRun(s[1..])
  }

  /** The length of the longest name a string starts with, 0 if it starts with none. */
  function NamePrefix(s: string): (n: nat)
    ensures n <= |s|
    ensures n > 0 ==> ValidName(s[..n])
  {
    if s != "" && IsNameStart(s[0]) then NameRun(s) else 0
  }

  /** What follows a dollar sign: the parts so far, and the text still to scan. */
  function AfterDollar(rest: string, parts: seq<Part>): (r: (seq<Part>, string))
    ensures |r.1| <= |rest|
  {
    if rest != "" && (rest[0] == '$' || rest[0] == '!') then (AppendLiteral(parts, [rest[0]]), rest[1..])
    else if rest != "" && rest[0] == '{' then
      var end := IndexOf(rest[1..], '}');
      if end == |rest| - 1 || !ValidName(rest[1..][..end]) then (AppendLiteral(parts, "$"), rest)
      else (parts + [EnvVar(rest[1..][..end])], rest[1..][end + 1..])
    else
      var n := NamePrefix(rest);
      if n > 0 then (parts + [EnvVar(rest[..n])], rest[n..]) else (AppendLiteral(parts, "$"), rest)
  }

  function Scan(s: string, parts: seq<Part>): seq<Part>
    decreases |s|
  {
    if s == "" then parts
    else
      var d := IndexOf(s, '$');
      if d == |s| then AppendLiteral(parts, s)
      else
        var next := AfterDollar(s[d + 1..], AppendLiteral(parts, s[..d]));
        Scan(next.1, next.0)
  }

  function Parse(config: string): seq<Part> {
    Scan(config, [])
  }

  /** The scanner's loop over an index into the value. */
  method ParseTemplate(config: string) returns (parts: seq<Part>)
    ensures parts == Parse(config)
  {
    parts := [];
    var index := 0;
    assert config[0..] == config;
    while index < |config|
      invariant index <= |config|
      invariant Scan(config[index..], parts) == Parse(config)
      decreases |config| - index
    {
      var dollar := index + IndexOf(config[index..], '$');
      if dollar == |config| {
        parts := AppendLiteral(parts, config[index..]);
        break;
      }
      ScanStep(config, index, dollar, parts);
      parts, index := ReadReference(config, dollar, AppendLiteral(parts, config[index..dollar]));
    }
  }

  lemma ScanUnfold(s: string, parts: seq<Part>)
    requires IndexOf(s, '$') < |s|
    ensures var d := IndexOf(s, '$');
            var next := AfterDollar(s[d + 1..], AppendLiteral(parts, s[..d]));
            Scan(s, parts) == Scan(next.1, next.0)
  {
  }

  lemma Slices(config: string, index: nat, dollar: nat)
    requires index <= dollar < |config|
    ensures config[index..][..dollar - index] == config[index..dollar]
    ensures config[index..][dollar - index + 1..] == config[dollar + 1..]
  {
  }

  lemma ScanStep(config: string, index: nat, dollar: nat, parts: seq<Part>)
    requires index <= dollar < |config| && dollar == index + IndexOf(config[index..], '$')
    ensures var next := AfterDollar(config[dollar + 1..], AppendLiteral(parts, config[index..dollar]));
            Scan(config[index..], parts) == Scan(next.1, next.0)
  {
    Slices(config, index, dollar);
    ScanSlices(config[index..], config[index..dollar], config[dollar + 1..], parts);
  }

  lemma ScanSlices(s: string, literal: string, rest: string, parts: seq<Part>)
    requires IndexOf(s, '$') < |s| && literal == s[..IndexOf(s, '$')] && rest == s[IndexOf(s, '$') + 1..]
    ensures var next := AfterDollar(rest, AppendLiteral(parts, literal)); Scan(s, parts) == Scan(next.1, next.0)
  {
    ScanUnfold(s, parts);
  }

  /** The loop's cases after a dollar sign: an escape, a braced name, a bare name, or
      the sign itself. */
  method ReadReference(config: string, dollar: nat, before: seq<Part>) returns (parts: seq<Part>, index: nat)
    requires dollar < |config|
    ensures dollar < index <= |config|
    ensures (parts, config[index..]) == AfterDollar(config[dollar + 1..], before)
  {
    var rest := config[dollar + 1..];
    if rest != "" && (rest[0] == '$' || rest[0] == '!') {
      assert config[dollar + 2..] == rest[1..];
      return AppendLiteral(before, [rest[0]]), dollar + 2;
    }
    if rest != "" && rest[0] == '{' {
      var end := IndexOf(rest[1..], '}');
      if end == |rest| - 1 || !ValidName(rest[1..][..end]) {
        return AppendLiteral(before, "$"), dollar + 1;
      }
      assert config[dollar + 3 + end..] == rest[1..][end + 1..];
      return before + [EnvVar(rest[1..][..end])], dollar + 3 + end;
    }
    var n := NamePrefix(rest);
    if n > 0 {
      assert config[dollar + 1 + n..] == rest[n..];
      return before + [EnvVar(rest[..n])], dollar + 1 + n;
    }
    return AppendLiteral(before, "$"), dollar + 1;
  }

  // ---------------------------------------------------------- normal form

  /** Names are valid, no literal is empty and no two literals are adjacent. */
  predicate Normal(parts: seq<Part>) {
    && (forall i :: 0 <= i < |parts| ==> if parts[i].Literal? then parts[i].value != "" else ValidName(parts[i].name))
    && (forall i :: 0 <= i < |parts| - 1 ==> !(parts[i].Literal? && parts[i + 1].Literal?))
  }

  lemma ReferenceKeepsNormal(rest: string, before: seq<Part>)
    requires Normal(before)
    ensures Normal(AfterDollar(rest, before).0)
  {
  }

  lemma {:induction false} ScanKeepsNormal(s: string, parts: seq<Part>)
    requires Normal(parts)
    ensures Normal(Scan(s, parts))
    decreases |s|
  {
    if s != "" {
      var d := IndexOf(s, '$');
      AppendKeepsNormal(parts, s[..d]);
      if d == |s| {
        assert s[..d] == s;
      } else {
        var next := AfterDollar(s[d + 1..], AppendLiteral(parts, s[..d]));
        ReferenceKeepsNormal(s[d + 1..], AppendLiteral(parts, s[..d]));
        ScanUnfold(s, parts);
        ScanKeepsNormal(next.1, next.0);
      }
    }
  }

  lemma AppendKeepsNormal(parts: seq<Part>, value: string)
    requires Normal(parts)
    ensures Normal(AppendLiteral(parts, value))
  {
  }

  /** Every value parses into normal form. */
  lemma ParseIsNormal(config: string)
    ensures Normal(Parse(config))
  {
    ScanKeepsNormal(config, []);
  }

  // ----------------------------------------------------------- round trip

  function EscapeChar(c: char): string {
    if c == '$' then "$$" else [c]
  }

  function Escape(value: string): string {
    if value == "" then ""
    else EscapeChar(value[0]) + Escape(value[1..])
  }

  function PrintPart(p: Part): string {
    match p
    case Literal(value) => Escape(value)
    case EnvVar(name) => "${" + name + "}"
  }

  function Print(parts: seq<Part>): string {
    if parts == [] then "" else PrintPart(parts[0]) + Print(parts[1..])
  }

  function AppendPart(parts: seq<Part>, p: Part): seq<Part> {
    if p.Literal? then AppendLiteral(parts, p.value) else parts + [p]
  }

  /** Parts with empty literals dropped and adjacent ones merged. */
  function Merge(acc: seq<Part>, parts: seq<Part>): seq<Part>
    decreases |parts|
  {
    if parts == [] then acc else Merge(AppendPart(acc, parts[0]), parts[1..])
  }

  lemma AppendTwice(parts: seq<Part>, a: string, b: string)
    ensures AppendLiteral(AppendLiteral(parts, a), b) == AppendLiteral(parts, a + b)
  {
    if a == "" {
      assert a + b == b;
    } else if b == "" {
      assert a + b == a;
    } else if parts != [] && parts[|parts| - 1].Literal? {
      assert parts[|parts| - 1].value + a + b == parts[|parts| - 1].value + (a + b);
    }
  }

  lemma ScanPlain(c: char, s: string, acc: seq<Part>)
    requires c != '$'
    ensures Scan([c] + s, acc) == Scan(s, AppendLiteral(acc, [c]))
  {
    var t := [c] + s;
    assert t[1..] == s;
    var d := IndexOf(s, '$');
    assert IndexOf(t, '$') == 1 + d;
    if d < |s| {
      assert t[..d + 1] == [c] + s[..d] && t[d + 2..] == s[d + 1..];
      AppendTwice(acc, [c], s[..d]);
    } else {
      AppendTwice(acc, [c], s);
      assert s == "" ==> [c] + s == [c];
    }
  }

  lemma BracedName(name: string, s: string, acc: seq<Part>)
    requires ValidName(name)
    ensures AfterDollar("{" + name + "}" + s, acc) == (acc + [EnvVar(name)], s)
  {
    var rest := "{" + name + "}" + s;
    assert rest[1..] == name + "}" + s;
    var end := IndexOf(rest[1..], '}');
    assert rest[1..][|name|] == '}';
    assert forall i :: 0 <= i < |name| ==> rest[1..][i] == name[i] && IsNameChar(name[i]);
    assert end == |name|;
    assert rest[1..][..end] == name && rest[1..][end + 1..] == s;
  }

  lemma DollarBrace(name: string, s: string)
    ensures "${" + name + "}" + s == "$" + ("{" + name + "}" + s)
  {
  }

  lemma ScanEnv(name: string, s: string, acc: seq<Part>)
    requires ValidName(name)
    ensures Scan("${" + name + "}" + s, acc) == Scan(s, acc + [EnvVar(name)])
  {
    DollarBrace(name, s);
    BracedName(name, s, acc);
  }

  lemma ScanEscapedChar(c: char, s: string, acc: seq<Part>)
    ensures Scan(EscapeChar(c) + s, acc) == Scan(s, AppendLiteral(acc, [c]))
  {
    if c != '$' {
      ScanPlain(c, s, acc);
    }
  }

  lemma {:induction false} ScanEscaped(value: string, s: string, acc: seq<Part>)
    ensures Scan(Escape(value) + s, acc) == Scan(s, AppendLiteral(acc, value))
    decreases |value|
  {
    if value == "" {
      assert Escape(value) + s == s;
    } else {
      var c, tail := value[0], value[1..];
      assert Escape(value) + s == EscapeChar(c) + (Escape(tail) + s);
      ScanEscapedChar(c, Escape(tail) + s, acc);
      ScanEscaped(tail, s, AppendLiteral(acc, [c]));
      AppendTwice(acc, [c], tail);
      assert [c] + tail == value;
    }
  }

  predicate ValidPart(p: Part) {
    p.EnvVar? ==> ValidName(p.name)
  }

  lemma ScanPart(p: Part, tail: string, acc: seq<Part>)
    requires ValidPart(p)
    ensures Scan(PrintPart(p) + tail, acc) == Scan(tail, AppendPart(acc, p))
  {
    match p
    case Literal(value) => ScanEscaped(value, tail, acc);
    case EnvVar(name) => ScanEnv(name, tail, acc);
  }

  lemma {:induction false} ScanPrinted(parts: seq<Part>, acc: seq<Part>)
    requires forall i :: 0 <= i < |parts| ==> ValidPart(parts[i])
    ensures Scan(Print(parts), acc) == Merge(acc, parts)
    decreases |parts|
  {
    if parts != [] {
      ScanPart(parts[0], Print(parts[1..]), acc);
      ScanPrinted(parts[1..], AppendPart(acc, parts[0]));
    }
  }

  lemma {:induction false} MergeNormal(acc: seq<Part>, parts: seq<Part>)
    requires Normal(acc + parts)
    ensures Merge(acc, parts) == acc + parts
    decreases |parts|
  {
    if parts == [] {
      assert acc + parts == acc;
    } else {
      var all := acc + parts;
      assert all[|acc|] == parts[0];
      assert acc != [] ==> all[|acc| - 1] == acc[|acc| - 1];
      assert AppendPart(acc, parts[0]) == acc + [parts[0]];
      assert (acc + [parts[0]]) + parts[1..] == all;
      MergeNormal(acc + [parts[0]], parts[1..]);
    }
  }

  lemma PrintedParses(parts: seq<Part>)
    requires forall i :: 0 <= i < |parts| ==> ValidPart(parts[i])
    ensures Parse(Print(parts)) == Merge([], parts)
    ensures Normal(parts) ==> Parse(Print(parts)) == parts
  {
    ScanPrinted(parts, []);
    if Normal(parts) {
      NormalMerges(parts);
    }
  }

  lemma NormalMerges(parts: seq<Part>)
    requires Normal(parts)
    ensures Merge([], parts) == parts
  {
    assert [] + parts == parts;
    MergeNormal([], parts);
  }

  /** Parsing an escaped print merges the parts; parts in normal form come back
      unchanged, and what a value parses into always does. */
  lemma TemplateRoundTrip(parts: seq<Part>, config: string)
    requires forall i :: 0 <= i < |parts| ==> ValidPart(parts[i])
    ensures Parse(Print(parts)) == Merge([], parts)
    ensures Parse(Print(parts)) == parts <==> Normal(parts)
    ensures Parse(Print(Parse(config))) == Parse(config)
  {
    PrintedParses(parts);
    ParseIsNormal(Print(parts));
    ParseIsNormal(config);
    PrintedParses(Parse(config));
  }

  // ------------------------------------------------------ bare references

  /** Parts that nothing scanned later can change: none, or a variable last. */
  predicate Sealed(acc: seq<Part>) {
    acc == [] || acc[|acc| - 1].EnvVar?
  }

  lemma AppendAfter(acc: seq<Part>, more: seq<Part>, value: string)
    requires Sealed(acc)
    ensures AppendLiteral(acc + more, value) == acc + AppendLiteral(more, value)
  {
    if value != "" && more != [] && more[|more| - 1].Literal? {
      assert (acc + more)[..|acc + more| - 1] == acc + more[..|more| - 1];
    }
  }

  lemma DollarAfter(rest: string, acc: seq<Part>, more: seq<Part>)
    requires Sealed(acc)
    ensures AfterDollar(rest, acc + more) == (acc + AfterDollar(rest, more).0, AfterDollar(rest, more).1)
  {
    forall p: Part ensures (acc + more) + [p] == acc + (more + [p]) {
    }
    AppendAfter(acc, more, "$");
    if rest != "" {
      AppendAfter(acc, more, [rest[0]]);
    }
  }

  lemma {:induction false} ScanAfter(s: string, acc: seq<Part>, more: seq<Part>)
    requires Sealed(acc)
    ensures Scan(s, acc + more) == acc + Scan(s, more)
    decreases |s|
  {
    if s != "" {
      var d := IndexOf(s, '$');
      if d == |s| {
        AppendAfter(acc, more, s);
      } else {
        var parts, rest := StepAfter(s, acc, more);
        ScanAfter(rest, acc, parts);
      }
    }
  }

  lemma StepAfter(s: string, acc: seq<Part>, more: seq<Part>) returns (parts: seq<Part>, rest: string)
    requires Sealed(acc) && IndexOf(s, '$') < |s|
    ensures |rest| < |s| && Scan(s, more) == Scan(rest, parts) && Scan(s, acc + more) == Scan(rest, acc + parts)
  {
    var d := IndexOf(s, '$');
    var next := AfterDollar(s[d + 1..], AppendLiteral(more, s[..d]));
    parts, rest := next.0, next.1;
    ScanUnfold(s, more);
    ReferenceAfter(s[d + 1..], s[..d], acc, more);
    ScanUnfold(s, acc + more);
  }

  lemma ReferenceAfter(rest: string, literal: string, acc: seq<Part>, more: seq<Part>)
    requires Sealed(acc)
    ensures var next := AfterDollar(rest, AppendLiteral(more, literal));
            AfterDollar(rest, AppendLiteral(acc + more, literal)) == (acc + next.0, next.1)
  {
    AppendAfter(acc, more, literal);
    DollarAfter(rest, acc, AppendLiteral(more, literal));
  }

  /** The text does not go on with a name character. */
  predicate NameEnds(tail: string) {
    tail == "" || !IsNameChar(tail[0])
  }

  lemma BareName(name: string, tail: string, acc: seq<Part>)
    requires ValidName(name) && NameEnds(tail)
    ensures AfterDollar(name + tail, acc) == (acc + [EnvVar(name)], tail)
  {
    var rest := name + tail;
    assert forall i :: 0 <= i < |name| ==> rest[i] == name[i] && IsNameChar(rest[i]);
    assert tail != "" ==> rest[|name|] == tail[0];
    assert NameRun(rest) == |name|;
    assert rest[..|name|] == name && rest[|name|..] == tail && rest[0] == name[0];
  }

  lemma ScanFromDollar(rest: string, acc: seq<Part>)
    ensures Scan("$" + rest, acc) == Scan(AfterDollar(rest, acc).1, AfterDollar(rest, acc).0)
  {
    var t := "$" + rest;
    assert IndexOf(t, '$') == 0 && t[..0] == "" && t[1..] == rest;
    ScanUnfold(t, acc);
  }

  /** A reference, bare or in braces, is read as the longest name there, and what
      follows it parses by itself. */
  lemma ReferenceParses(name: string, tail: string)
    requires ValidName(name)
    ensures NameEnds(tail) ==> Parse("$" + name + tail) == [EnvVar(name)] + Parse(tail)
    ensures Parse("${" + name + "}" + tail) == [EnvVar(name)] + Parse(tail)
  {
    var acc := [EnvVar(name)];
    assert [] + acc == acc && acc + [] == acc;
    ScanAfter(tail, acc, []);
    if NameEnds(tail) {
      assert "$" + name + tail == "$" + (name + tail);
      BareName(name, tail, []);
      ScanFromDollar(name + tail, []);
    }
    ScanEnv(name, tail, []);
  }

  /** What follows a dollar sign refers to a variable or is an escape. */
  ghost predicate Refers(rest: string) {
    || (rest != "" && (rest[0] == '$' || rest[0] == '!'))
    || (exists name, tail :: ValidName(name) && (rest == name + tail || rest == "{" + name + "}" + tail))
  }

  lemma NameRefers(rest: string, n: nat)
    requires n <= |rest| && ValidName(rest[..n])
    ensures Refers(rest)
  {
    assert rest == rest[..n] + rest[n..];
  }

  lemma BraceRefers(rest: string, end: nat)
    requires rest != "" && rest[0] == '{' && end < |rest| - 1 && rest[1..][end] == '}' && ValidName(rest[1..][..end])
    ensures Refers(rest)
  {
    assert rest == "{" + rest[1..][..end] + "}" + rest[1..][end + 1..];
  }

  lemma NoReference(rest: string, acc: seq<Part>)
    ensures !Refers(rest) ==> AfterDollar(rest, acc) == (AppendLiteral(acc, "$"), rest)
  {
    if NamePrefix(rest) > 0 {
      NameRefers(rest, NamePrefix(rest));
    }
    if rest != "" && rest[0] == '{' {
      var end := IndexOf(rest[1..], '}');
      if end < |rest| - 1 && ValidName(rest[1..][..end]) {
        BraceRefers(rest, end);
      }
    }
  }

  lemma EscapedDollar(rest: string, acc: seq<Part>)
    ensures Scan("$$" + rest, acc) == Scan(rest, AppendLiteral(acc, "$"))
  {
    assert "$$" + rest == "$" + ("$" + rest) && ("$" + rest)[1..] == rest;
    ScanFromDollar("$" + rest, acc);
  }

  lemma LoneDollar(rest: string, acc: seq<Part>)
    requires !Refers(rest)
    ensures Scan("$" + rest, acc) == Scan(rest, AppendLiteral(acc, "$"))
  {
    NoReference(rest, acc);
    ScanFromDollar(rest, acc);
  }

  /** A dollar sign that starts no reference and no escape, as before an unterminated or
      ill-named brace, is literal text: it reads as the escaped sign does, anywhere. */
  lemma LoneDollarIsLiteral(rest: string, acc: seq<Part>)
    ensures !Refers(rest) ==> Scan("$" + rest, acc) == Scan("$$" + rest, acc) == Scan(rest, AppendLiteral(acc, "$"))
  {
    EscapedDollar(rest, acc);
    if !Refers(rest) {
      LoneDollar(rest, acc);
    }
  }

  // ----------------------------------------------------------- resolution

  type Env = map<string, string>

  function Resolve(parts: seq<Part>, env: Env): Option<string> {
    if parts == [] then Some("")
    else
      var before := Resolve(parts[..|parts| - 1], env);
      var p := parts[|parts| - 1];
      if before.None? then None
      else if p.Literal? then Some(before.value + p.value)
      else if p.name in env then Some(before.value + env[p.name])
      else None
  }

  method ResolveTemplate(parts: seq<Part>, env: Env) returns (r: Option<string>)
    ensures r == Resolve(parts, env)
  {
    var resolved := "";
    for i := 0 to |parts|
      invariant Resolve(parts[..i], env) == Some(resolved)
    {
      assert parts[..i + 1][..i] == parts[..i];
      if parts[i].Literal? {
        resolved := resolved + parts[i].value;
      } else {
        if parts[i].name !in env {
          ResolveStuck(parts, env, i + 1);
          return None;
        }
        resolved := resolved + env[parts[i].name];
      }
    }
    assert parts[..|parts|] == parts;
    return Some(resolved);
  }

  lemma {:induction false} ResolveStuck(parts: seq<Part>, env: Env, n: nat)
    requires n <= |parts| && Resolve(parts[..n], env).None?
    ensures Resolve(parts, env).None?
    decreases |parts|
  {
    if n < |parts| {
      assert parts[..|parts| - 1][..n] == parts[..n];
      ResolveStuck(parts[..|parts| - 1], env, n);
    } else {
      assert parts[..n] == parts;
    }
  }

  predicate IsCommand(config: string) {
    config != "" && config[0] == '!'
  }

  /** The first use of one name comes before every use of the other. */
  ghost predicate UsedBefore(a: string, b: string, parts: seq<Part>) {
    exists k :: 0 <= k < |parts| && parts[k] == EnvVar(a) && EnvVar(b) !in parts[..k + 1]
  }

  ghost predicate UsedInOrder(names: seq<string>, parts: seq<Part>) {
    forall i, j :: 0 <= i < j < |names| ==> UsedBefore(names[i], names[j], parts)
  }

  lemma UsedInOrderGrows(names: seq<string>, parts: seq<Part>, p: Part)
    requires UsedInOrder(names, parts)
    ensures UsedInOrder(names, parts + [p])
  {
    forall i, j | 0 <= i < j < |names| ensures UsedBefore(names[i], names[j], parts + [p]) {
      assert UsedBefore(names[i], names[j], parts);
      var k :| 0 <= k < |parts| && parts[k] == EnvVar(names[i]) && EnvVar(names[j]) !in parts[..k + 1];
      assert (parts + [p])[..k + 1] == parts[..k + 1];
    }
  }

  /** The names the parts refer to, each once, in the order of their first use. */
  ghost predicate AreNames(names: seq<string>, parts: seq<Part>) {
    && (forall n :: n in names <==> EnvVar(n) in parts)
    && (forall i, j :: 0 <= i < j < |names| ==> names[i] != names[j])
    && UsedInOrder(names, parts)
  }

  lemma NextName(names: seq<string>, parts: seq<Part>, p: Part)
    requires AreNames(names, parts)
    ensures AreNames(if p.EnvVar? && p.name !in names then names + [p.name] else names, parts + [p])
  {
    UsedInOrderGrows(names, parts, p);
    if p.EnvVar? && p.name !in names {
      NewNameLast(names, parts, p.name);
    }
  }

  lemma NewNameLast(names: seq<string>, parts: seq<Part>, name: string)
    requires UsedInOrder(names, parts) && EnvVar(name) !in parts
    requires forall n :: n in names ==> EnvVar(n) in parts
    ensures UsedInOrder(names + [name], parts + [EnvVar(name)])
  {
    UsedInOrderGrows(names, parts, EnvVar(name));
    forall i | 0 <= i < |names| ensures UsedBefore(names[i], name, parts + [EnvVar(name)]) {
      assert names[i] in names;
      var k :| 0 <= k < |parts| && parts[k] == EnvVar(names[i]);
      assert (parts + [EnvVar(name)])[..k + 1] == parts[..k + 1];
    }
  }

  /** The names a value refers to, each once, in the order of their first use. */
  method EnvVarNames(config: string) returns (names: seq<string>)
    ensures IsCommand(config) ==> names == []
    ensures !IsCommand(config) ==> AreNames(names, Parse(config))
  {
    names := [];
    if IsCommand(config) {
      return;
    }
    var parts := ParseTemplate(config);
    for i := 0 to |parts|
      invariant AreNames(names, parts[..i])
    {
      assert parts[..i + 1] == parts[..i] + [parts[i]];
      NextName(names, parts[..i], parts[i]);
      if parts[i].EnvVar? && parts[i].name !in names {
        names := names + [parts[i].name];
      }
    }
    assert parts[..|parts|] == parts;
  }

  function Unset(names: seq<string>, env: Env): seq<string> {
    if names == [] then []
    else if names[|names| - 1] in env then Unset(names[..|names| - 1], env)
    else Unset(names[..|names| - 1], env) + [names[|names| - 1]]
  }

  lemma UnsetMembers(names: seq<string>, env: Env)
    ensures forall n :: n in Unset(names, env) <==> n in names && n !in env
  {
    if names != [] {
      UnsetMembers(names[..|names| - 1], env);
      assert names == names[..|names| - 1] + [names[|names| - 1]];
    }
  }

  lemma {:induction false} UnsetInOrder(names: seq<string>, env: Env, parts: seq<Part>)
    requires UsedInOrder(names, parts)
    ensures UsedInOrder(Unset(names, env), parts)
  {
    if names != [] {
      var front, last := names[..|names| - 1], names[|names| - 1];
      UnsetInOrder(front, env, parts);
      UnsetMembers(front, env);
      forall i | 0 <= i < |Unset(front, env)| ensures UsedBefore(Unset(front, env)[i], last, parts) {
        assert Unset(front, env)[i] in front;
        var k :| 0 <= k < |front| && front[k] == Unset(front, env)[i];
        assert UsedBefore(names[k], last, parts);
      }
    }
  }

  /** The names a value refers to that are not set, in the order of their first use. A
      value that is no command resolves exactly when there are none. */
  method MissingEnvVarNames(config: string, env: Env) returns (missing: seq<string>)
    ensures !IsCommand(config) ==> (missing == [] <==> Resolve(Parse(config), env).Some?)
    ensures !IsCommand(config) ==> forall n :: n in missing <==> EnvVar(n) in Parse(config) && n !in env
    ensures IsCommand(config) ==> missing == []
    ensures !IsCommand(config) ==> UsedInOrder(missing, Parse(config))
  {
    var names := EnvVarNames(config);
    missing := Unset(names, env);
    UnsetMembers(names, env);
    if !IsCommand(config) {
      UnsetInOrder(names, env, Parse(config));
    }
    ResolvesExactly(Parse(config), env);
    assert missing != [] ==> missing[0] in missing;
  }

  lemma {:induction false} ResolvesExactly(parts: seq<Part>, env: Env)
    ensures Resolve(parts, env).Some? <==> forall n :: EnvVar(n) in parts ==> n in env
  {
    if parts != [] {
      var front, p := parts[..|parts| - 1], parts[|parts| - 1];
      ResolvesExactly(front, env);
      assert parts == front + [p];
      assert p in parts;
    }
  }

  /** `resolveConfigValue`, given what running a command answers. */
  function ResolveValue(config: string, env: Env, run: string -> Option<string>): Option<string> {
    if IsCommand(config) then run(config) else Resolve(Parse(config), env)
  }

  /** Any text, quoted: a leading `!` needs its own escape. */
  function Quote(value: string): string {
    if IsCommand(value) then "$!" + Escape(value[1..]) else Escape(value)
  }

  lemma ScanBang(s: string, acc: seq<Part>)
    ensures Scan("$!" + s, acc) == Scan(s, AppendLiteral(acc, "!"))
  {
    assert "$!" + s == "$" + ("!" + s) && ("!" + s)[1..] == s;
  }

  lemma ParseQuoted(value: string)
    ensures Parse(Quote(value)) == AppendLiteral([], value)
  {
    if IsCommand(value) {
      var tail := value[1..];
      ScanBang(Escape(tail), []);
      ScanEscaped(tail, "", AppendLiteral([], "!"));
      assert Escape(tail) + "" == Escape(tail);
      AppendTwice([], "!", tail);
      assert "!" + tail == value;
    } else {
      ScanEscaped(value, "", []);
      assert Escape(value) + "" == Escape(value);
    }
  }

  /** A quoted text resolves to itself in every environment, and is never run. */
  lemma QuoteResolves(value: string, env: Env, run: string -> Option<string>)
    ensures !IsCommand(Quote(value)) && ResolveValue(Quote(value), env, run) == Some(value)
  {
    ParseQuoted(value);
    LiteralResolves(value, env);
  }

  lemma LiteralResolves(value: string, env: Env)
    ensures Resolve([Literal(value)], env) == Some(value)
    ensures Resolve([], env) == Some("")
  {
    assert [Literal(value)][..0] == [];
    assert "" + value == value;
  }
}
