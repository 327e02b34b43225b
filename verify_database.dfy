/**
 * The database check script's start: reading `KEY=value` lines from the
 * local environment file, and refusing to go on without the project URL and
 * the service-role key.
 */
module VerifyDatabase {

  import opened Wrappers
  import opened Collections
  import Text

  /**
   * The entry one line contributes: `const [key, ...valueParts] = line.split("=")`,
   * kept when the key is non-empty and there is at least one "=".
   */
  function LineEntry(line: string): (e: Option<(string, string)>)
    ensures e.None? <==> '=' !in line || line[0] == '='
  {
    SplitAtFirstEquals(line);
    var parts := Text.Split(line, '=');
    if parts[0] != "" && |parts| > 1 then Some((Text.Trim(parts[0]), Text.Trim(Text.Join(parts[1..], "="))))
    else None
  }

  /**
   * Splitting a line on "=" gives a non-empty key and at least one more part
   * exactly when it has an "=" that is not its first character; the key is
   * what precedes the first "=", and the rest, joined back, is everything after it.
   */
  lemma SplitAtFirstEquals(line: string)
    ensures var parts := Text.Split(line, '=');
      && (parts[0] != "" && |parts| > 1 <==> '=' in line && line[0] != '=')
      && ('=' in line ==>
            var k := FirstIndex(line, '=');
            parts[0] == line[..k] && Text.Join(parts[1..], "=") == line[k + 1..])
  {
    if '=' !in line {
      Text.SplitWithoutSeparator(line, '=');
    } else {
      var k := FirstIndex(line, '=');
      Text.SplitAtFirst(line, '=');
      var rest := line[k + 1..];
      Text.SplitJoin(rest, '=');
      assert Text.Split(line, '=')[1..] == Text.Split(rest, '=');
      assert line[0] == '=' <==> k == 0;
    }
  }

  /** The key is what precedes the first "=", trimmed; the value is everything after it, further "=" included, trimmed. */
  lemma LineEntryMeaning(line: string)
    requires LineEntry(line).Some?
    ensures var k := FirstIndex(line, '=');
      LineEntry(line).value == (Text.Trim(line[..k]), Text.Trim(line[k + 1..]))
  {
    SplitAtFirstEquals(line);
  }

  /** The variables after folding `lines` in order. */
  function EnvOf(lines: seq<string>): (env: map<string, string>)
    ensures lines == [] ==> env == map[]
    ensures lines != [] && LineEntry(lines[|lines| - 1]).Some? ==>
      var e := LineEntry(lines[|lines| - 1]).value;
      e.0 in env && env[e.0] == e.1
  {
    if lines == [] then map[]
    else
      var env := EnvOf(lines[..|lines| - 1]);
      var e := LineEntry(lines[|lines| - 1]);
      if e.Some? then env[e.value.0 := e.value.1] else env
  }

  /** The file's content as variables: `envContent.split("\n").reduce(...)`. */
  method ParseEnvFile(content: string) returns (env: map<string, string>)
    ensures env == EnvOf(Text.Split(content, '\n'))
  {
    var lines := Text.Split(content, '\n');
    env := map[];
    for i := 0 to |lines|
      invariant env == EnvOf(lines[..i])
    {
      assert lines[..i + 1][..i] == lines[..i];
      var e := LineEntry(lines[i]);
      if e.Some? {
        env := env[e.value.0 := e.value.1];
      }
    }
    assert lines[..|lines|] == lines;
  }

  /** Each variable comes from a line, and a variable's value is that of the last line that sets it. */
  lemma {:induction false} LastLineWins(lines: seq<string>, i: nat)
    requires i < |lines| && LineEntry(lines[i]).Some?
    requires forall j :: i < j < |lines| && LineEntry(lines[j]).Some? ==> LineEntry(lines[j]).value.0 != LineEntry(lines[i]).value.0
    ensures LineEntry(lines[i]).value.0 in EnvOf(lines)
    ensures EnvOf(lines)[LineEntry(lines[i]).value.0] == LineEntry(lines[i]).value.1
  {
    if i < |lines| - 1 {
      var init := lines[..|lines| - 1];
      assert init[i] == lines[i];
      LastLineWins(init, i);
    }
  }

  /** Every variable comes from some line of the file. */
  lemma {:induction false} EveryVariableFromALine(lines: seq<string>, key: string)
    requires key in EnvOf(lines)
    ensures exists i :: 0 <= i < |lines| && LineEntry(lines[i]).Some? && LineEntry(lines[i]).value.0 == key
  {
    var init := lines[..|lines| - 1];
    var e := LineEntry(lines[|lines| - 1]);
    if !(e.Some? && e.value.0 == key) {
      EveryVariableFromALine(init, key);
      var i :| 0 <= i < |init| && LineEntry(init[i]).Some? && LineEntry(init[i]).value.0 == key;
      assert lines[i] == init[i];
    }
  }

  const UrlVariable := "NEXT_PUBLIC_SUPABASE_URL"
  const KeyVariable := "SUPABASE_SERVICE_ROLE_KEY"

  /** A variable that is set to a non-empty value. */
  predicate IsSet(env: map<string, string>, name: string) {
    name in env && env[name] != ""
  }

  /** How the script goes on: it stops reporting which variable is set, or it connects with both. */
  datatype Start = Stop(urlSet: bool, keySet: bool) | Connect(url: string, serviceRoleKey: string)

  /** The required-variable check: the script connects only when both variables are set. */
  function StartWith(env: map<string, string>): (s: Start)
    ensures s.Connect? <==> IsSet(env, UrlVariable) && IsSet(env, KeyVariable)
    ensures s.Stop? ==> s.urlSet == IsSet(env, UrlVariable) && s.keySet == IsSet(env, KeyVariable)
    ensures s.Connect? ==> s.url == env[UrlVariable] && s.serviceRoleKey == env[KeyVariable]
  {
    if IsSet(env, UrlVariable) && IsSet(env, KeyVariable) then Connect(env[UrlVariable], env[KeyVariable])
    else Stop(IsSet(env, UrlVariable), IsSet(env, KeyVariable))
  }
}
