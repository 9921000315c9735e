/** The worker's KEY=VALUE files (agent_daemon/stack_provisioner.py): reading, writing, secrets. */
module EnvFile {
  import opened Options
  import opened Sequences
  import opened Sorting

  type Env = map<string, string>

  /** The characters at which str.splitlines cuts. A CR LF pair gives one more, blank, line here;
      blank lines are skipped by the reader. */
  predicate IsLineBreak(c: char) {
    var n := c as int;
    10 <= n <= 13 || 28 <= n <= 30 || n == 133 || n == 8232 || n == 8233
  }

  /** The characters that str.strip removes. */
  predicate IsSpace(c: char) {
    var n := c as int;
    9 <= n <= 13 || 28 <= n <= 32 || n == 133 || n == 160 || n == 5760 || 8192 <= n <= 8202
    || n == 8232 || n == 8233 || n == 8239 || n == 8287 || n == 12288
  }

  function StripLeft(s: string): string {
    if s != "" && IsSpace(s[0]) then StripLeft(s[1..]) else s
  }

  function StripRight(s: string): string {
    if s != "" && IsSpace(s[|s| - 1]) then StripRight(s[..|s| - 1]) else s
  }

  function Strip(s: string): string { StripRight(StripLeft(s)) }

  predicate Trimmed(s: string) {
    s != "" ==> !IsSpace(s[0]) && !IsSpace(s[|s| - 1])
  }

  predicate SingleLine(s: string) {
    forall c :: c in s ==> !IsLineBreak(c)
  }

  /** The position of the first line break, or the length of s. */
  function FirstBreak(s: string): (i: nat)
    ensures i <= |s|
  {
    if s == "" || IsLineBreak(s[0]) then 0 else 1 + FirstBreak(s[1..])
  }

  lemma {:induction false} FirstBreakIs(s: string, i: nat)
    requires i <= |s|
    ensures FirstBreak(s) == i <==> (i < |s| ==> IsLineBreak(s[i])) && forall j :: 0 <= j < i ==> !IsLineBreak(s[j])
  {
    if s != "" && !IsLineBreak(s[0]) && i > 0 {
      FirstBreakIs(s[1..], i - 1);
      assert forall j :: 0 < j < i ==> s[j] == s[1..][j - 1];
    }
  }

  function FirstEquals(s: string): (i: nat)
    ensures i <= |s| && (i < |s| ==> s[i] == '=')
    ensures forall j :: 0 <= j < i ==> s[j] != '='
  {
    if s == "" || s[0] == '=' then 0 else 1 + FirstEquals(s[1..])
  }

  /** The effect of one line of a file on the map read so far. */
  function ReadLine(line: string, env: Env): Env {
    var t := Strip(line);
    if t == "" || t[0] == '#' || '=' !in t then env
    else
      var i := FirstEquals(t);
      env[Strip(t[..i]) := Strip(t[i + 1..])]
  }

  /** The lines of a text; a blank one more after a final line break. */
  function Lines(text: string): (lines: seq<string>)
    ensures lines != []
    decreases |text|
  {
    var i := FirstBreak(text);
    if i == |text| then [text] else [text[..i]] + Lines(text[i + 1..])
  }

  function ReadLines(lines: seq<string>, env: Env): Env {
    if lines == [] then env else ReadLine(lines[|lines| - 1], ReadLines(lines[..|lines| - 1], env))
  }

  function ReadFrom(text: string, env: Env): Env { ReadLines(Lines(text), env) }

  function ReadEnv(text: string): Env { ReadFrom(text, map[]) }

  function Line(key: string, value: string): string { key + "=" + value }

  function Render(keys: seq<string>, env: Env): string
    requires forall k :: k in keys ==> k in env
  {
    if keys == [] then "" else Line(keys[0], env[keys[0]]) + "\n" + Render(keys[1..], env)
  }

  /** What is written: the lines in key order, or one blank line for an empty map. */
  ghost function WriteEnv(env: Env): string {
    BelowIsOrder();
    if env == map[] then "\n" else Render(SortedSeq(Below, env.Keys), env)
  }

  method SplitLines(text: string) returns (lines: seq<string>)
    ensures lines == Lines(text)
  {
    lines := [];
    var rest := text;
    while FirstBreak(rest) < |rest|
      invariant lines + Lines(rest) == Lines(text)
      decreases |rest|
    {
      var i := FirstBreak(rest);
      assert Lines(rest) == [rest[..i]] + Lines(rest[i + 1..]);
      assert (lines + [rest[..i]]) + Lines(rest[i + 1..]) == lines + ([rest[..i]] + Lines(rest[i + 1..]));
      lines, rest := lines + [rest[..i]], rest[i + 1..];
    }
    lines := lines + [rest];
  }

  method ReadEnvFile(file: Option<string>) returns (env: Env)
    ensures env == if file.None? then map[] else ReadEnv(file.value)
  {
    env := map[];
    if file.None? {
      return;
    }
    var lines := SplitLines(file.value);
    for i := 0 to |lines|
      invariant env == ReadLines(lines[..i], map[])
    {
      assert lines[..i + 1][..i] == lines[..i];
      env := ReadLine(lines[i], env);
    }
    assert lines[..|lines|] == lines;
  }

  method RenderLines(keys: seq<string>, env: Env) returns (text: string)
    requires forall k :: k in keys ==> k in env
    ensures text == Render(keys, env)
  {
    text := "";
    var i := |keys|;
    while i > 0
      invariant 0 <= i <= |keys|
      invariant text == Render(keys[i..], env)
    {
      i := i - 1;
      assert keys[i..][1..] == keys[i + 1..];
      text := Line(keys[i], env[keys[i]]) + "\n" + text;
    }
  }

  method WriteEnvFile(env: Env) returns (text: string)
    ensures text == WriteEnv(env)
  {
    BelowIsOrder();
    var keys := SortSet(Below, env.Keys);
    text := RenderLines(keys, env);
    if env == map[] {
      text := "\n";
    }
  }

  // ----- Stripping -----

  lemma {:induction false} StripRightTrims(s: string)
    ensures StripRight(s) != "" ==> !IsSpace(StripRight(s)[|StripRight(s)| - 1])
    ensures StripRight(s) <= s
  {
    if s != "" && IsSpace(s[|s| - 1]) { StripRightTrims(s[..|s| - 1]); }
  }

  lemma {:induction false} StripLeftTrims(s: string)
    ensures StripLeft(s) != "" ==> !IsSpace(StripLeft(s)[0])
    ensures forall c :: c in StripLeft(s) ==> c in s
  {
    if s != "" && IsSpace(s[0]) { StripLeftTrims(s[1..]); }
  }

  lemma StripTrims(s: string)
    ensures Trimmed(Strip(s))
    ensures forall c :: c in Strip(s) ==> c in s
    ensures Trimmed(s) ==> Strip(s) == s
  {
    StripLeftTrims(s);
    StripRightTrims(StripLeft(s));
  }

  // ----- Well-formed maps -----

  predicate KeyOk(k: string) {
    SingleLine(k) && Trimmed(k) && '=' !in k && (k == "" || k[0] != '#')
  }

  predicate ValueOk(v: string) { SingleLine(v) && Trimmed(v) }

  ghost predicate WellFormed(env: Env) {
    forall k :: k in env ==> KeyOk(k) && ValueOk(env[k])
  }

  lemma KeyPartIsOk(t: string, i: nat)
    requires Trimmed(t) && SingleLine(t) && t != "" && t[0] != '#'
    requires i < |t| && forall j :: 0 <= j < i ==> t[j] != '='
    ensures KeyOk(Strip(t[..i]))
  {
    StripTrims(t[..i]);
    StripLeftKeepsFirst(t[..i]);
  }

  lemma ValuePartIsOk(t: string, i: nat)
    requires SingleLine(t) && i < |t|
    ensures ValueOk(Strip(t[i + 1..]))
  {
    StripTrims(t[i + 1..]);
  }

  lemma OneMoreBinding(env: Env, k: string, v: string)
    requires WellFormed(env) && KeyOk(k) && ValueOk(v)
    ensures WellFormed(env[k := v])
  {
  }

  lemma ReadLineIsWellFormed(line: string, env: Env)
    requires WellFormed(env) && SingleLine(line)
    ensures WellFormed(ReadLine(line, env))
  {
    var t := Strip(line);
    StripTrims(line);
    if !(t == "" || t[0] == '#' || '=' !in t) {
      var i := FirstEquals(t);
      KeyPartIsOk(t, i);
      ValuePartIsOk(t, i);
      OneMoreBinding(env, Strip(t[..i]), Strip(t[i + 1..]));
    }
  }

  /** Text whose first character is no space keeps it when stripped. */
  lemma StripLeftKeepsFirst(s: string)
    requires s != "" ==> !IsSpace(s[0])
    ensures Strip(s) != "" ==> Strip(s)[0] == s[0]
  {
    StripRightTrims(s);
  }

  lemma {:induction false} LinesAreSingle(text: string)
    ensures forall line :: line in Lines(text) ==> SingleLine(line)
    decreases |text|
  {
    var i := FirstBreak(text);
    FirstBreakIs(text, i);
    if i < |text| { LinesAreSingle(text[i + 1..]); }
  }

  lemma {:induction false} ReadLinesIsWellFormed(lines: seq<string>, env: Env)
    requires WellFormed(env) && forall line :: line in lines ==> SingleLine(line)
    ensures WellFormed(ReadLines(lines, env))
  {
    if lines != [] {
      ReadLinesIsWellFormed(lines[..|lines| - 1], env);
      ReadLineIsWellFormed(lines[|lines| - 1], ReadLines(lines[..|lines| - 1], env));
    }
  }

  lemma ReadFromIsWellFormed(text: string, env: Env)
    requires WellFormed(env)
    ensures WellFormed(ReadFrom(text, env))
  {
    LinesAreSingle(text);
    ReadLinesIsWellFormed(Lines(text), env);
  }

  // ----- Reading back what was written -----

  lemma LineSplitsAtEquals(k: string, v: string)
    requires '=' !in k
    ensures FirstEquals(Line(k, v)) == |k| && '=' in Line(k, v)
    ensures Line(k, v)[..|k|] == k && Line(k, v)[|k| + 1..] == v
  {
    var t := Line(k, v);
    assert t[|k|] == '=';
    assert forall j :: 0 <= j < |k| ==> t[j] == k[j] && k[j] in k;
  }

  lemma LineIsTrimmed(k: string, v: string)
    requires KeyOk(k) && ValueOk(v)
    ensures Trimmed(Line(k, v)) && SingleLine(Line(k, v)) && Line(k, v)[0] != '#'
  {
  }

  /** A line made of a well-formed key and value reads back as that binding. */
  lemma ReadWrittenLine(k: string, v: string, env: Env)
    requires KeyOk(k) && ValueOk(v)
    ensures ReadLine(Line(k, v), env) == env[k := v]
    ensures SingleLine(Line(k, v))
  {
    LineIsTrimmed(k, v);
    StripTrims(Line(k, v));
    StripTrims(k);
    StripTrims(v);
    LineSplitsAtEquals(k, v);
  }

  lemma OneLine(text: string)
    requires SingleLine(text)
    ensures Lines(text) == [text]
  {
    assert forall j :: 0 <= j < |text| ==> text[j] in text;
    FirstBreakIs(text, |text|);
  }

  lemma ReadOne(line: string, env: Env)
    ensures ReadLines([line], env) == ReadLine(line, env)
  {
    assert [line][..0] == [];
  }

  lemma ReadWrittenText(k: string, v: string, env: Env)
    requires KeyOk(k) && ValueOk(v)
    ensures ReadFrom(Line(k, v), env) == env[k := v]
  {
    ReadWrittenLine(k, v, env);
    OneLine(Line(k, v));
    ReadOne(Line(k, v), env);
  }

  lemma FirstBreakOfAppend(a: string, b: string)
    ensures FirstBreak(a + "\n" + b) == FirstBreak(a)
  {
    var text := a + "\n" + b;
    assert text[|a|] == '\n';
    assert forall j :: 0 <= j < |a| ==> text[j] == a[j];
    FirstBreakIs(a, FirstBreak(a));
    FirstBreakIs(text, FirstBreak(a));
  }

  lemma CutAppend(a: string, b: string, i: nat)
    requires i <= |a|
    ensures var text := a + "\n" + b;
            && text[..i] == a[..i]
            && (i < |a| ==> text[i + 1..] == a[i + 1..] + "\n" + b)
            && (i == |a| ==> text[i + 1..] == b && a[..i] == a)
  {
  }

  lemma OneMoreLine(line: string, x: seq<string>, y: seq<string>)
    ensures [line] + (x + y) == ([line] + x) + y
  {
  }

  lemma {:induction false} LinesOfAppend(a: string, b: string)
    ensures Lines(a + "\n" + b) == Lines(a) + Lines(b)
    decreases |a|
  {
    var text, i := a + "\n" + b, FirstBreak(a);
    FirstBreakOfAppend(a, b);
    CutAppend(a, b, i);
    if i < |a| {
      LinesOfAppend(a[i + 1..], b);
      OneMoreLine(a[..i], Lines(a[i + 1..]), Lines(b));
    }
  }

  lemma {:induction false} ReadLinesOfAppend(x: seq<string>, y: seq<string>, env: Env)
    ensures ReadLines(x + y, env) == ReadLines(y, ReadLines(x, env))
  {
    if y == [] {
      assert x + y == x;
    } else {
      assert (x + y)[..|x + y| - 1] == x + y[..|y| - 1];
      ReadLinesOfAppend(x, y[..|y| - 1], env);
    }
  }

  /** Texts joined by a line break are read one after the other. */
  lemma ReadAppend(a: string, b: string, env: Env)
    ensures ReadFrom(a + "\n" + b, env) == ReadFrom(b, ReadFrom(a, env))
  {
    LinesOfAppend(a, b);
    ReadLinesOfAppend(Lines(a), Lines(b), env);
  }

  lemma {:induction false} ReadRendered(keys: seq<string>, env: Env, acc: Env)
    requires forall k :: k in keys ==> k in env && KeyOk(k) && ValueOk(env[k])
    ensures var r := ReadFrom(Render(keys, env), acc);
            && r.Keys == acc.Keys + Elements(keys)
            && (forall k :: k in r ==> r[k] == if k in keys then env[k] else acc[k])
    decreases |keys|
  {
    if keys == [] {
      OneLine("");
      ReadOne("", acc);
    } else {
      var k, rest := keys[0], keys[1..];
      assert keys == [k] + rest;
      ReadAppend(Line(k, env[k]), Render(rest, env), acc);
      ReadWrittenText(k, env[k], acc);
      ReadRendered(rest, env, acc[k := env[k]]);
    }
  }

  /** Behind a key only well-formed lines follow, so its value survives, whatever stood before. */
  lemma {:induction false} KeptBehind(keys: seq<string>, env: Env, acc: Env, at: nat)
    requires at < |keys| && keys[at] !in keys[at + 1..]
    requires forall k :: k in keys ==> k in env
    requires forall k :: k in keys[at..] ==> KeyOk(k) && ValueOk(env[k])
    ensures var r := ReadFrom(Render(keys, env), acc); keys[at] in r && r[keys[at]] == env[keys[at]]
    decreases |keys|
  {
    var k, rest := keys[0], keys[1..];
    assert keys == [k] + rest;
    ReadAppend(Line(k, env[k]), Render(rest, env), acc);
    if at == 0 {
      ReadWrittenText(k, env[k], acc);
      ReadRendered(rest, env, acc[k := env[k]]);
    } else {
      assert rest[at - 1..] == keys[at..] && rest[at..] == keys[at + 1..];
      KeptBehind(rest, env, ReadFrom(Line(k, env[k]), acc), at - 1);
    }
  }

  lemma WrittenKeys(env: Env) returns (keys: seq<string>)
    requires env != map[]
    ensures forall k :: k in keys <==> k in env
    ensures WriteEnv(env) == Render(keys, env)
    ensures forall i, j :: 0 <= i < j < |keys| ==> Below(keys[i], keys[j]) && keys[i] != keys[j]
    ensures Elements(keys) == env.Keys
  {
    BelowIsOrder();
    keys := SortedSeq(Below, env.Keys);
    assert forall k :: k in keys <==> k in Elements(keys);
  }

  lemma WellFormedRoundTrip(env: Env)
    requires WellFormed(env)
    ensures ReadEnv(WriteEnv(env)) == env
  {
    if env == map[] {
      ReadAppend("", "", map[]);
      assert "" + "\n" + "" == "\n";
    } else {
      var keys := WrittenKeys(env);
      ReadRendered(keys, env, map[]);
    }
  }

  /** A written map reads back as itself exactly when its keys and values are well formed, which
      every map read from a file is. */
  lemma RoundTrip(env: Env)
    ensures ReadEnv(WriteEnv(env)) == env <==> WellFormed(env)
  {
    ReadFromIsWellFormed(WriteEnv(env), map[]);
    if WellFormed(env) { WellFormedRoundTrip(env); }
  }

  /** Even next to ill-formed values, a binding survives a write when it and all later keys are well
      formed: a value that breaks out of its line can only disturb what sorts before it. */
  lemma WrittenTailSurvives(env: Env, q: string)
    requires q in env
    requires forall k :: k in env && (k == q || Below(q, k)) ==> KeyOk(k) && ValueOk(env[k])
    ensures var r := ReadEnv(WriteEnv(env)); q in r && r[q] == env[q]
  {
    var keys := WrittenKeys(env);
    var at :| 0 <= at < |keys| && keys[at] == q;
    forall k | k in keys[at..] ensures KeyOk(k) && ValueOk(env[k]) {
      var i :| at <= i < |keys| && keys[i] == k;
    }
    KeptBehind(keys, env, map[], at);
  }

  /** Letters and underscores only. */
  predicate Plain(s: string) {
    forall i :: 0 <= i < |s| ==> 'A' <= s[i] <= 'Z' || s[i] == '_' || 'a' <= s[i] <= 'z'
  }

  lemma PlainIsOk(s: string)
    requires Plain(s)
    ensures KeyOk(s) && ValueOk(s)
  {
  }

  // ----- Secrets -----

  const PLACEHOLDER := "change-me"

  /** The key holds a secret that is kept; otherwise a new one is drawn. */
  predicate Established(env: Env, key: string) {
    key in env && Strip(env[key]) != "" && !(PLACEHOLDER <= Strip(env[key]))
  }

  function WithSecret(env: Env, key: string, drawn: string): Env {
    if Established(env, key) then env else env[key := drawn]
  }

  method EnsureSecret(env: Env, key: string, drawn: string) returns (env': Env, secret: string)
    ensures env' == WithSecret(env, key, drawn)
    ensures secret == if Established(env, key) then Strip(env[key]) else drawn
  {
    var existing := if key in env then Strip(env[key]) else "";
    if existing != "" && !(PLACEHOLDER <= existing) {
      return env, existing;
    }
    return env[key := drawn], drawn;
  }

  /** secrets.token_hex: a non-empty string of lower-case hexadecimal digits. */
  predicate HexToken(s: string) {
    s != "" && forall c :: c in s ==> '0' <= c <= '9' || 'a' <= c <= 'f'
  }

  lemma HexTokenIsSecret(s: string)
    requires HexToken(s)
    ensures ValueOk(s) && Strip(s) == s && !(PLACEHOLDER <= s)
  {
    assert s[0] in s && s[|s| - 1] in s;
    StripTrims(s);
    assert PLACEHOLDER[1] == 'h';
    assert forall i :: 0 <= i < |s| ==> s[i] in s;
  }
}
