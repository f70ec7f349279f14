/** dict_to_env_bytes (orchestrator.py:88-96): render an environment mapping
    as a .env file, one `KEY="value"` line per entry, escaping the value. */
module EnvFile {
  import opened Http

  /** The characters Python's str.strip() removes when given no argument. */
  predicate IsSpace(c: char) {
    || c == ' ' || c == '\t' || c == '\n' || c == '\r' || c == '\U{0B}' || c == '\U{0C}'
    || ('\U{1C}' <= c <= '\U{1F}') || c == '\U{85}' || c == '\U{A0}' || c == '\U{1680}'
    || ('\U{2000}' <= c <= '\U{200A}') || c == '\U{2028}' || c == '\U{2029}' || c == '\U{202F}'
    || c == '\U{205F}' || c == '\U{3000}'
  }

  /** `k.strip() == ""`: the key is empty or all whitespace. */
  predicate Blank(k: string) {
    forall i :: 0 <= i < |k| ==> IsSpace(k[i])
  }

  /** Python's `s.replace(c, rep)` for a one-character pattern. */
  function ReplaceChar(s: string, c: char, rep: string): (r: string)
    ensures c !in rep ==> c !in r
    ensures forall x :: x in r ==> x in s || x in rep
    ensures |rep| >= 1 ==> |r| >= |s|
    decreases |s|
  {
    if s == [] then []
    else (if s[0] == c then rep else [s[0]]) + ReplaceChar(s[1..], c, rep)
  }

  /** Replacing distributes over concatenation. */
  lemma {:induction false} ReplaceCharConcat(a: string, b: string, c: char, rep: string)
    ensures ReplaceChar(a + b, c, rep) == ReplaceChar(a, c, rep) + ReplaceChar(b, c, rep)
    decreases |a|
  {
    if a == [] {
      assert a + b == b;
    } else {
      assert (a + b)[0] == a[0];
      assert (a + b)[1..] == a[1..] + b;
      ReplaceCharConcat(a[1..], b, c, rep);
    }
  }

  /** The value escaping of line 94: backslash, then double quote, then
      newline. The escaped value holds no raw newline and loses nothing;
      UnescapeEscape shows that it reads back as `s`. */
  function Escape(s: string): (r: string)
    ensures '\n' !in r
    ensures |r| >= |s|
  {
    ReplaceChar(ReplaceChar(ReplaceChar(s, '\\', "\\\\"), '"', "\\\""), '\n', "\\n")
  }

  /** What the three passes do to one character. */
  function EscapeChar(c: char): string {
    if c == '\\' then "\\\\"
    else if c == '"' then "\\\""
    else if c == '\n' then "\\n"
    else [c]
  }

  /** Character-by-character escaping. */
  function EscapeChars(s: string): string
    decreases |s|
  {
    if s == [] then [] else EscapeChar(s[0]) + EscapeChars(s[1..])
  }

  /** The three successive replace passes escape each character on its own:
      no pass rewrites what an earlier pass inserted. */
  lemma {:induction false} EscapeIsCharwise(s: string)
    ensures Escape(s) == EscapeChars(s)
    decreases |s|
  {
    if s != [] {
      var c, t := s[0], s[1..];
      var r1 := if c == '\\' then "\\\\" else [c];
      assert ReplaceChar(s, '\\', "\\\\") == r1 + ReplaceChar(t, '\\', "\\\\");
      ReplaceCharConcat(r1, ReplaceChar(t, '\\', "\\\\"), '"', "\\\"");
      var r2 := ReplaceChar(r1, '"', "\\\"");
      ReplaceCharConcat(r2, ReplaceChar(ReplaceChar(t, '\\', "\\\\"), '"', "\\\""), '\n', "\\n");
      EscapeIsCharwise(t);
      EscapeCharByPasses(c);
    }
  }

  lemma EscapeCharByPasses(c: char)
    ensures ReplaceChar(ReplaceChar(ReplaceChar([c], '\\', "\\\\"), '"', "\\\""), '\n', "\\n") == EscapeChar(c)
  {
    assert [c][1..] == [];
    if c == '\\' {
      assert ReplaceChar("\\\\", '"', "\\\"") == "\\\\";
      assert ReplaceChar("\\\\", '\n', "\\n") == "\\\\";
    } else if c == '"' {
      assert ReplaceChar("\\\"", '\n', "\\n") == "\\\"";
    }
  }

  /** A reader of double-quoted .env values: `\\`, `\"` and `\n` stand for a
      backslash, a quote and a newline; a bare quote or a raw newline would
      end the value early, so it is refused. */
  function Unescape(t: string): (r: Option<string>)
    ensures r.Some? ==> |r.value| <= |t|
    decreases |t|
  {
    if t == [] then Some([])
    else if t[0] == '\\' then
      if |t| < 2 || !(t[1] in {'\\', '"', 'n'}) then None
      else
        var c := if t[1] == 'n' then '\n' else t[1];
        match Unescape(t[2..])
        case None => None
        case Some(u) => Some([c] + u)
    else if t[0] == '"' || t[0] == '\n' then None
    else
      match Unescape(t[1..])
      case None => None
      case Some(u) => Some([t[0]] + u)
  }

  /** Escaped values read back as the original: every quote and newline in
      the value is escaped, and nothing else is lost. */
  lemma {:induction false} UnescapeEscape(s: string)
    ensures Unescape(Escape(s)) == Some(s)
  {
    EscapeIsCharwise(s);
    UnescapeEscapeChars(s);
  }

  lemma {:induction false} UnescapeEscapeChars(s: string)
    ensures Unescape(EscapeChars(s)) == Some(s)
    decreases |s|
  {
    if s != [] {
      UnescapeEscapeChars(s[1..]);
      UnescapeEscapedChar(s[0], EscapeChars(s[1..]), s[1..]);
      assert [s[0]] + s[1..] == s;
    }
  }

  /** Reading one escaped character in front of a readable rest. */
  lemma UnescapeEscapedChar(c: char, rest: string, u: string)
    requires Unescape(rest) == Some(u)
    ensures Unescape(EscapeChar(c) + rest) == Some([c] + u)
  {
    var e := EscapeChar(c) + rest;
    if c == '\\' || c == '"' || c == '\n' {
      assert e[0] == '\\' && e[2..] == rest;
    } else {
      assert e[0] == c && e[1..] == rest;
    }
  }

  /** The line written for one entry (lines 93-95): the key, '=', then the
      escaped value text between double quotes, on a single line unless the
      key itself holds a newline. */
  function EnvLine(k: string, v: Option<string>): (line: string)
    ensures |line| >= |k| + 3 && line[..|k|] == k
    ensures line[|k|] == '=' && line[|k| + 1] == '"' && line[|line| - 1] == '"'
    ensures '\n' !in k ==> '\n' !in line
  {
    k + "=\"" + Escape(OrEmpty(v)) + "\""
  }

  /** The lines written for the entries in iteration order, blank keys skipped. */
  function EnvLines(env: seq<(string, Option<string>)>): (lines: seq<string>)
    ensures |lines| <= |env|
    ensures forall l :: l in lines ==> exists e :: e in env && !Blank(e.0) && l == EnvLine(e.0, e.1)
    decreases |env|
  {
    if env == [] then []
    else (if Blank(env[0].0) then [] else [EnvLine(env[0].0, env[0].1)]) + EnvLines(env[1..])
  }

  /** Lines are produced entry by entry, in order. */
  lemma {:induction false} EnvLinesAppend(env: seq<(string, Option<string>)>, e: (string, Option<string>))
    ensures EnvLines(env + [e]) == EnvLines(env) + (if Blank(e.0) then [] else [EnvLine(e.0, e.1)])
    decreases |env|
  {
    if env == [] {
      assert env + [e] == [e];
      assert [e][1..] == [];
    } else {
      assert (env + [e])[0] == env[0];
      assert (env + [e])[1..] == env[1..] + [e];
      EnvLinesAppend(env[1..], e);
      var head := if Blank(env[0].0) then [] else [EnvLine(env[0].0, env[0].1)];
      var last := if Blank(e.0) then [] else [EnvLine(e.0, e.1)];
      assert EnvLines(env + [e]) == head + (EnvLines(env[1..]) + last);
      assert head + (EnvLines(env[1..]) + last) == (head + EnvLines(env[1..])) + last;
    }
  }

  /** `"\n".join(lines)`: the text starts with the first line and ends with the last. */
  function Join(lines: seq<string>): (r: string)
    ensures lines == [] ==> r == ""
    ensures lines != [] ==> lines[0] <= r
    ensures lines != [] ==> |r| >= |lines[|lines| - 1]| && r[|r| - |lines[|lines| - 1]|..] == lines[|lines| - 1]
    decreases |lines|
  {
    if |lines| == 0 then ""
    else if |lines| == 1 then lines[0]
    else lines[0] + "\n" + Join(lines[1..])
  }

  /** Every line followed by its own newline. */
  function Terminated(lines: seq<string>): string
    decreases |lines|
  {
    if lines == [] then "" else lines[0] + "\n" + Terminated(lines[1..])
  }

  /** Joining with "\n" and appending one "\n" terminates every line,
      the last one included; with no lines the file is a single "\n". */
  lemma {:induction false} JoinThenNewline(lines: seq<string>)
    ensures Join(lines) + "\n" == if lines == [] then "\n" else Terminated(lines)
    decreases |lines|
  {
    if |lines| == 1 {
      assert lines[1..] == [];
    } else if |lines| > 1 {
      JoinThenNewline(lines[1..]);
      assert Join(lines) + "\n" == lines[0] + "\n" + (Join(lines[1..]) + "\n");
    }
  }

  /** dict_to_env_bytes: the loop over the entries and the final join. The
      UTF-8 encoding of the result is not modelled; `out` is the text. */
  method DictToEnvBytes(env: seq<(string, Option<string>)>) returns (out: string)
    ensures out == Join(EnvLines(env)) + "\n"
    ensures |out| > 0 && out[|out| - 1] == '\n'
    ensures EnvLines(env) != [] ==> out == Terminated(EnvLines(env))
  {
    var lines: seq<string> := [];
    for i := 0 to |env|
      invariant lines == EnvLines(env[..i])
    {
      var (k, v) := env[i];
      EnvLinesAppend(env[..i], env[i]);
      assert env[..i + 1] == env[..i] + [env[i]];
      if Blank(k) {
        continue;
      }
      var safe := Escape(OrEmpty(v));
      lines := lines + [k + "=\"" + safe + "\""];
    }
    assert env[..|env|] == env;
    out := Join(lines) + "\n";
    JoinThenNewline(lines);
  }

  /** Position of the first '=' in `s`; |s| when there is none. */
  function FirstEquals(s: string): (i: nat)
    ensures i <= |s|
    ensures i < |s| ==> s[i] == '='
    ensures forall j :: 0 <= j < i ==> s[j] != '='
    decreases |s|
  {
    if s == [] then 0 else if s[0] == '=' then 0 else 1 + FirstEquals(s[1..])
  }

  /** A reader of one .env line: the key up to the first '=', then a
      double-quoted, escaped value. */
  function ParseLine(line: string): (r: Option<(string, string)>)
    ensures r.Some? ==> '=' !in r.value.0
  {
    var i := FirstEquals(line);
    if i == |line| then None
    else
      var rest := line[i + 1..];
      if |rest| < 2 || rest[0] != '"' || rest[|rest| - 1] != '"' then None
      else
        match Unescape(rest[1..|rest| - 1])
        case None => None
        case Some(value) => Some((line[..i], value))
  }

  /** The first '=' of a key without one followed by "=..." is right after the key. */
  lemma FirstEqualsAfterKey(k: string, tail: string)
    requires '=' !in k && tail != [] && tail[0] == '='
    ensures FirstEquals(k + tail) == |k|
  {
    var line := k + tail;
    assert forall j :: 0 <= j < |k| ==> line[j] == k[j];
    assert line[|k|] == '=';
  }

  /** Each written line reads back as its key and value, provided the key
      holds no '=' (keys are written unescaped). */
  lemma EnvLineRoundTrip(k: string, v: Option<string>)
    requires '=' !in k
    ensures ParseLine(EnvLine(k, v)) == Some((k, OrEmpty(v)))
  {
    var e := Escape(OrEmpty(v));
    var quoted := "\"" + e + "\"";
    var line := EnvLine(k, v);
    EnvLineSplit(k, e);
    FirstEqualsAfterKey(k, "=" + quoted);
    assert line[|k| + 1..] == quoted;
    assert quoted[1..|quoted| - 1] == e;
    UnescapeEscape(OrEmpty(v));
  }

  /** A written line is the key, '=', then the quoted escaped value. */
  lemma EnvLineSplit(k: string, e: string)
    ensures k + "=\"" + e + "\"" == k + ("=" + ("\"" + e + "\""))
    ensures (k + ("=" + ("\"" + e + "\"")))[..|k|] == k
    ensures (k + ("=" + ("\"" + e + "\"")))[|k| + 1..] == "\"" + e + "\""
  {
  }
}
