/**
 * The result readers of the analysis scripts: parsing a memory's `str`,
 * the network configuration line a run prints, the whisker usage dumps,
 * and the averaged scores of a run's standard output.
 *
 * A Python `dict` is an association list that keeps insertion order (an
 * assignment to a present key keeps its place).  Raising (IndexError,
 * ValueError, KeyError, ZeroDivisionError) is `None`.  `result['output']`,
 * the map from output file name to its text, is passed in directly.
 */
module CommonAnalysis {
  import opened Wrappers
  import opened Text
  import RemyMemory
  import NetworkConfigs

  // ------------------------------------------------------------ dictionaries

  type Dict<V> = seq<(string, V)>

  /** The position of key `k`, or -1. */
  function Find<V>(d: Dict<V>, k: string): (i: int)
    ensures -1 <= i < |d|
    ensures i >= 0 ==> d[i].0 == k
    ensures i < 0 <==> forall j :: 0 <= j < |d| ==> d[j].0 != k
  {
    if d == [] then -1
    else if d[|d| - 1].0 == k then |d| - 1
    else Find(d[..|d| - 1], k)
  }

  /** `d.get(k)`. */
  function Get<V>(d: Dict<V>, k: string): Option<V> {
    var i := Find(d, k);
    if i < 0 then None else Some(d[i].1)
  }

  /** `d[k] = v`: overwrite in place, or append a new key. */
  function Put<V>(d: Dict<V>, k: string, v: V): (r: Dict<V>)
    ensures |r| == if Find(d, k) < 0 then |d| + 1 else |d|
  {
    var i := Find(d, k);
    if i < 0 then d + [(k, v)] else d[i := (k, v)]
  }

  predicate DistinctKeys<V>(d: Dict<V>) {
    forall i, j :: 0 <= i < j < |d| ==> d[i].0 != d[j].0
  }

  /** The first components, in order: for a dictionary, `list(d.keys())`. */
  function Firsts<A, B>(pairs: seq<(A, B)>): (xs: seq<A>)
    ensures |xs| == |pairs| && forall i :: 0 <= i < |pairs| ==> xs[i] == pairs[i].0
  {
    seq(|pairs|, i requires 0 <= i < |pairs| => pairs[i].0)
  }

  /** The second components, in order: for a dictionary, `list(d.values())`. */
  function Seconds<A, B>(pairs: seq<(A, B)>): (xs: seq<B>)
    ensures |xs| == |pairs| && forall i :: 0 <= i < |pairs| ==> xs[i] == pairs[i].1
  {
    seq(|pairs|, i requires 0 <= i < |pairs| => pairs[i].1)
  }

  /** After `d[k] = v`, `k` reads `v` and every other key reads what it read before; keys stay distinct. */
  lemma PutGet<V>(d: Dict<V>, k: string, v: V, other: string)
    requires DistinctKeys(d)
    ensures Get(Put(d, k, v), k) == Some(v)
    ensures other != k ==> Get(Put(d, k, v), other) == Get(d, other)
    ensures DistinctKeys(Put(d, k, v))
    ensures Firsts(Put(d, k, v)) == if Get(d, k).None? then Firsts(d) + [k] else Firsts(d)
  {
    var r := Put(d, k, v);
    var i := Find(d, k);
    FindDistinct(r, k);
    if other != k {
      FindDistinct(r, other);
      FindDistinct(d, other);
    }
    assert Firsts(r) == if i < 0 then Firsts(d) + [k] else Firsts(d);
  }

  /** With distinct keys, a key is found exactly where it is stored. */
  lemma FindDistinct<V>(d: Dict<V>, k: string)
    requires DistinctKeys(d)
    ensures forall j :: 0 <= j < |d| && d[j].0 == k ==> Find(d, k) == j
  {
  }

  // ------------------------------------------------------ key=value tokens

  /** `token.split("=")[0]`. */
  function TokenName(token: string): string {
    Split(token, "=")[0]
  }

  /** `token.split("=")[1]`, when there is one. */
  function TokenValue(token: string): Option<string> {
    var parts := Split(token, "=");
    if |parts| < 2 then None else Some(parts[1])
  }

  /**
   * The loop both `parse_memory` and `net_config_parser` run: each token's
   * name is assigned its value; a token without "=" raises IndexError.
   */
  function AssignAll(tokens: seq<string>): Option<Dict<string>> {
    if tokens == [] then Some([])
    else
      var prev := AssignAll(tokens[..|tokens| - 1]);
      var last := tokens[|tokens| - 1];
      if prev.None? || TokenValue(last).None? then None
      else Some(Put(prev.value, TokenName(last), TokenValue(last).value))
  }

  /** The value the last token named `k` carries, if any token is named `k`. */
  function LastValue(tokens: seq<string>, k: string): Option<string> {
    if tokens == [] then None
    else if TokenName(tokens[|tokens| - 1]) == k then TokenValue(tokens[|tokens| - 1])
    else LastValue(tokens[..|tokens| - 1], k)
  }

  /** One more token fails the assignments exactly when they had failed or it has no "=". */
  lemma AssignAllFailsStep(tokens: seq<string>)
    requires tokens != []
    ensures AssignAll(tokens).None?
            <==> AssignAll(tokens[..|tokens| - 1]).None? || TokenValue(tokens[|tokens| - 1]).None?
  {
  }

  /** Failed assignments point at a token without "=". */
  lemma {:induction false} AssignAllFailsAtToken(tokens: seq<string>)
    requires AssignAll(tokens).None?
    ensures exists i :: 0 <= i < |tokens| && TokenValue(tokens[i]).None?
  {
    var front := tokens[..|tokens| - 1];
    AssignAllFailsStep(tokens);
    if AssignAll(front).None? {
      AssignAllFailsAtToken(front);
      var i :| 0 <= i < |front| && TokenValue(front[i]).None?;
      assert tokens[i] == front[i];
    } else {
      assert TokenValue(tokens[|tokens| - 1]).None?;
    }
  }

  /** A token without "=" fails the assignments, whatever follows it. */
  lemma {:induction false} TokenFailsAssignAll(tokens: seq<string>, i: nat)
    requires i < |tokens| && TokenValue(tokens[i]).None?
    ensures AssignAll(tokens).None?
  {
    var front := tokens[..|tokens| - 1];
    AssignAllFailsStep(tokens);
    if i < |front| {
      assert front[i] == tokens[i];
      TokenFailsAssignAll(front, i);
    }
  }

  /** The assignments fail exactly when some token has no "=". */
  lemma AssignAllFails(tokens: seq<string>)
    ensures AssignAll(tokens).None? <==> exists i :: 0 <= i < |tokens| && TokenValue(tokens[i]).None?
  {
    if AssignAll(tokens).None? {
      AssignAllFailsAtToken(tokens);
    }
    if exists i :: 0 <= i < |tokens| && TokenValue(tokens[i]).None? {
      var i :| 0 <= i < |tokens| && TokenValue(tokens[i]).None?;
      TokenFailsAssignAll(tokens, i);
    }
  }

  /**
   * When every token has a value, each name maps to the value of its last
   * token (a later duplicate overwrites an earlier one), the keys are the
   * names, and no key appears twice.
   */
  lemma {:induction false} AssignAllLastWins(tokens: seq<string>, k: string)
    requires AssignAll(tokens).Some?
    ensures DistinctKeys(AssignAll(tokens).value)
    ensures Get(AssignAll(tokens).value, k) == LastValue(tokens, k)
  {
    if tokens != [] {
      var front := tokens[..|tokens| - 1];
      var last := tokens[|tokens| - 1];
      AssignAllLastWins(front, k);
      PutGet(AssignAll(front).value, TokenName(last), TokenValue(last).value, k);
    }
  }

  lemma TokenSplits(k: string, v: string)
    requires Avoids(k, '=') && Avoids(v, '=')
    ensures Split(k + "=" + v, "=") == [k, v]
  {
    assert Join([k, v], "=") == k + "=" + Join([v], "=");
    SplitJoin([k, v], "=");
  }

  predicate DistinctNames(fields: seq<(string, string)>) {
    forall i, j :: 0 <= i < j < |fields| ==> fields[i].0 != fields[j].0
  }

  /** The assignments of `key=value` tokens with distinct keys give back the pairs, in order. */
  lemma {:induction false} AssignAllOfAssignments(fields: seq<(string, string)>)
    requires DistinctNames(fields)
    requires forall i :: 0 <= i < |fields| ==> Avoids(fields[i].0, '=') && Avoids(fields[i].1, '=')
    ensures AssignAll(Assignments(fields)) == Some(fields)
  {
    if fields != [] {
      var n := |fields|;
      var front := fields[..n - 1];
      var (k, v) := fields[n - 1];
      assert fields == front + [(k, v)];
      AssignmentsSnoc(front, k, v);
      assert forall i :: 0 <= i < |front| ==> front[i] == fields[i];
      AssignAllOfAssignments(front);
      TokenSplits(k, v);
      AssignAllSnoc(Assignments(front), k + "=" + v);
      LastNameFresh(fields);
      assert Put(front, k, v) == fields;
    }
  }

  /** With distinct names, the last name does not occur before it. */
  lemma LastNameFresh(fields: seq<(string, string)>)
    requires fields != [] && DistinctNames(fields)
    ensures Find(fields[..|fields| - 1], fields[|fields| - 1].0) < 0
  {
    var front := fields[..|fields| - 1];
    forall j | 0 <= j < |front| ensures front[j].0 != fields[|fields| - 1].0 {
      assert front[j] == fields[j];
    }
  }

  lemma AssignmentsSnoc(fields: seq<(string, string)>, k: string, v: string)
    ensures Assignments(fields + [(k, v)]) == Assignments(fields) + [k + "=" + v]
  {
  }

  /** One more token with a value assigns it on top of the earlier ones. */
  lemma AssignAllSnoc(tokens: seq<string>, token: string)
    ensures AssignAll(tokens + [token])
            == if AssignAll(tokens).None? || TokenValue(token).None? then None
               else Some(Put(AssignAll(tokens).value, TokenName(token), TokenValue(token).value))
  {
    assert (tokens + [token])[..|tokens|] == tokens;
  }

  lemma AvoidsConcat(a: string, b: string, c: char)
    requires Avoids(a, c) && Avoids(b, c)
    ensures Avoids(a + b, c)
  {
    assert forall i :: |a| <= i < |a + b| ==> (a + b)[i] == b[i - |a|];
  }

  lemma {:induction false} JoinAvoids(parts: seq<string>, sep: string, c: char)
    requires Avoids(sep, c) && forall i :: 0 <= i < |parts| ==> Avoids(parts[i], c)
    ensures Avoids(Join(parts, sep), c)
  {
    if |parts| > 1 {
      JoinAvoids(parts[1..], sep, c);
      AvoidsConcat(parts[0], sep, c);
      AvoidsConcat(parts[0] + sep, Join(parts[1..], sep), c);
    }
  }

  lemma JoinNonEmpty(parts: seq<string>, sep: string)
    requires |parts| >= 1 && |parts[0]| > 0
    ensures |Join(parts, sep)| > 0
  {
  }

  lemma AssignmentAvoids(k: string, v: string, c: char)
    requires Avoids(k, c) && Avoids(v, c) && c != '='
    ensures Avoids(k + "=" + v, c)
  {
    AvoidsConcat(k, "=", c);
    AvoidsConcat(k + "=", v, c);
  }

  /**
   * Splitting the joined `key=value` tokens and assigning them recovers
   * the pairs, when neither keys nor values contain "=" or the
   * separator's first character.
   */
  lemma JoinedAssignmentsParse(fields: seq<(string, string)>, sep: string)
    requires |sep| > 0 && sep[0] != '=' && |fields| >= 1 && DistinctNames(fields)
    requires forall i :: 0 <= i < |fields| ==>
               Avoids(fields[i].0, '=') && Avoids(fields[i].1, '=') && Avoids(fields[i].0, sep[0]) && Avoids(fields[i].1, sep[0])
    ensures AssignAll(Split(Join(Assignments(fields), sep), sep)) == Some(fields)
  {
    var tokens := Assignments(fields);
    forall k | 0 <= k < |tokens| ensures Avoids(tokens[k], sep[0]) {
      AssignmentAvoids(fields[k].0, fields[k].1, sep[0]);
    }
    SplitJoin(tokens, sep);
    AssignAllOfAssignments(fields);
  }

  // ----------------------------------------------------------- parse_memory

  /** What `parse_memory` returns: the ", "-separated `name=value` items. */
  function MemoryItems(memstring: string): Option<Dict<string>> {
    AssignAll(Split(memstring, ", "))
  }

  /** The shared assignment loop. */
  method AssignTokens(tokens: seq<string>) returns (d: Option<Dict<string>>)
    ensures d == AssignAll(tokens)
  {
    var memory: Dict<string> := [];
    for t := 0 to |tokens|
      invariant AssignAll(tokens[..t]) == Some(memory)
    {
      var parts := Split(tokens[t], "=");
      assert tokens[..t + 1][..t] == tokens[..t];
      if |parts| < 2 {
        AssignAllFails(tokens[..t + 1]);
        AssignAllFails(tokens);
        assert tokens[t] == tokens[..t + 1][t];
        return None;
      }
      var name := parts[0];
      var value := parts[1];
      memory := Put(memory, name, value);
    }
    assert tokens[..|tokens|] == tokens;
    d := Some(memory);
  }

  /** `parse_memory`. */
  method ParseMemory(memstring: string) returns (memory: Option<Dict<string>>)
    ensures memory == MemoryItems(memstring)
  {
    var tokens := Split(memstring, ", ");
    memory := AssignTokens(tokens);
  }

  function MemoryFields(s: RemyMemory.Statistics): seq<(string, string)> {
    seq(RemyMemory.FieldCount, i requires 0 <= i < RemyMemory.FieldCount =>
      (RemyMemory.FieldNames[i], FormatFixed(s.Field(i), 6)))
  }

  lemma NumeralAvoids(s: string)
    requires AllNumeral(s)
    ensures Avoids(s, '=') && Avoids(s, ',') && Avoids(s, ';') && Avoids(s, '{') && Avoids(s, '}')
  {
  }

  lemma MemoryNamesPlain()
    ensures forall i :: 0 <= i < |RemyMemory.FieldNames| ==> Avoids(RemyMemory.FieldNames[i], '=') && Avoids(RemyMemory.FieldNames[i], ',')
  {
    forall i | 0 <= i < |RemyMemory.FieldNames|
      ensures Avoids(RemyMemory.FieldNames[i], '=') && Avoids(RemyMemory.FieldNames[i], ',')
    {
      var k := RemyMemory.FieldNames[i];
      assert forall j :: 0 <= j < |k| ==> 'a' <= k[j] <= 'z';
    }
  }

  lemma MemoryFieldsPlain(s: RemyMemory.Statistics)
    ensures var fields := MemoryFields(s);
            DistinctNames(fields)
            && forall i :: 0 <= i < |fields| ==>
                 Avoids(fields[i].0, '=') && Avoids(fields[i].1, '=') && Avoids(fields[i].0, ',') && Avoids(fields[i].1, ',')
  {
    var fields := MemoryFields(s);
    assert Firsts(fields) == RemyMemory.FieldNames;
    MemoryNamesPlain();
    forall i | 0 <= i < |fields|
      ensures Avoids(fields[i].0, '=') && Avoids(fields[i].1, '=') && Avoids(fields[i].0, ',') && Avoids(fields[i].1, ',')
    {
      assert fields[i].0 == RemyMemory.FieldNames[i];
      NumeralAvoids(FormatFixed(s.Field(i), 6));
    }
  }

  /**
   * `parse_memory` reads back what a memory's `str` prints (unless the
   * text was cut at 511 characters): each statistic's name maps to its
   * six-decimal rendering.
   */
  lemma MemoryStrParses(m: RemyMemory.MemoryState)
    requires |Join(m.stats.Rendered(), ", ")| <= 511
    ensures MemoryItems(m.Str()) == Some(MemoryFields(m.stats))
  {
    var fields := MemoryFields(m.stats);
    assert Assignments(fields) == m.stats.Rendered();
    MemoryFieldsPlain(m.stats);
    JoinedAssignmentsParse(fields, ", ");
  }

  // ---------------------------------------------- net_config_parser, get_config

  /** What `net_config_parser` returns: the braces stripped, then ";"-separated `name=value` items. */
  function ConfigItems(configString: string): Option<Dict<string>> {
    AssignAll(Split(Strip(Strip(configString, "{"), "}"), ";"))
  }

  /** `net_config_parser`. */
  method NetConfigParser(configString: string) returns (config: Option<Dict<string>>)
    ensures config == ConfigItems(configString)
  {
    var tokens := Split(Strip(Strip(configString, "{"), "}"), ";");
    config := AssignTokens(tokens);
  }

  /** Text a rendered value may hold without confusing the configuration line's parser. */
  predicate Plain(s: string) {
    Avoids(s, ';') && Avoids(s, '=') && Avoids(s, '{') && Avoids(s, '}')
  }

  lemma DecimalIsPlain(i: int)
    ensures Plain(IntToDecimal(i))
  {
    var s := IntToDecimal(i);
    if i < 0 {
      assert s == "-" + NatToDecimal(-i);
      NumeralAvoids(NatToDecimal(-i));
      NumeralAvoids("-");
      AvoidsConcat("-", NatToDecimal(-i), ';');
      AvoidsConcat("-", NatToDecimal(-i), '=');
      AvoidsConcat("-", NatToDecimal(-i), '{');
      AvoidsConcat("-", NatToDecimal(-i), '}');
    }
  }

  /** A rendering of doubles that never writes ";", "=" or a brace. */
  ghost predicate PlainRendering(show: real -> string) {
    forall x: real :: Plain(show(x))
  }

  /** The keys `toString` writes, in order. */
  const ConfigKeys: seq<string> :=
    ["rtt", "rate", "remyrate", "senders", "onmean", "onbound", "offmean", "offbound", "sloss", "buf"]

  lemma ConfigKeysPlain()
    ensures forall i :: 0 <= i < |ConfigKeys| ==> Plain(ConfigKeys[i])
  {
    forall i | 0 <= i < |ConfigKeys| ensures Plain(ConfigKeys[i]) {
      var k := ConfigKeys[i];
      assert forall j :: 0 <= j < |k| ==> 'a' <= k[j] <= 'z';
    }
  }

  lemma ConfigFieldsPlain(c: NetworkConfigs.NetworkConfig, show: real -> string)
    requires PlainRendering(show)
    ensures var fields := NetworkConfigs.ConfigFields(c, show);
            DistinctNames(fields) && forall i :: 0 <= i < |fields| ==> Plain(fields[i].0) && Plain(fields[i].1)
  {
    var fields := NetworkConfigs.ConfigFields(c, show);
    assert Firsts(fields) == ConfigKeys;
    ConfigKeysPlain();
    DecimalIsPlain(c.nSrc);
    forall i | 0 <= i < |fields| ensures Plain(fields[i].0) && Plain(fields[i].1) {
      assert fields[i].0 == ConfigKeys[i];
    }
  }

  lemma StripOpening(joined: string)
    requires |joined| > 0 && joined[0] != '{'
    ensures Strip("{" + joined + "}", "{") == joined + "}"
  {
    var closed := joined + "}";
    assert "{" + joined + "}" == ['{'] + closed;
    StripLeftFrom('{', closed, "{");
    StripLeftStops(closed, "{");
    StripRightStops(closed, "{");
  }

  lemma StripClosing(joined: string)
    requires |joined| > 0 && joined[0] != '}' && joined[|joined| - 1] != '}'
    ensures Strip(joined + "}", "}") == joined
  {
    StripLeftStops(joined + "}", "}");
    assert joined + "}" == joined + ['}'];
    StripRightFrom(joined, '}', "}");
    StripRightStops(joined, "}");
  }

  /** Stripping braces off a braced text that holds none leaves the text. */
  lemma StripBraces(joined: string)
    requires |joined| > 0 && Avoids(joined, '{') && Avoids(joined, '}')
    ensures Strip(Strip("{" + joined + "}", "{"), "}") == joined
  {
    StripOpening(joined);
    StripClosing(joined);
  }

  /**
   * `net_config_parser` reads back the line `NetworkConfig::toString`
   * prints (without its newline): every key, in order, with its rendered
   * value, provided the double rendering never produces ";", "=" or a brace.
   */
  lemma ConfigLineParses(c: NetworkConfigs.NetworkConfig, show: real -> string)
    requires PlainRendering(show)
    ensures var text := NetworkConfigs.ConfigText(c, show);
            |text| >= 1 && text[|text| - 1] == '\n'
            && ConfigItems(text[..|text| - 1]) == Some(NetworkConfigs.ConfigFields(c, show))
  {
    var fields := NetworkConfigs.ConfigFields(c, show);
    var joined := Join(Assignments(fields), ";");
    var text := NetworkConfigs.ConfigText(c, show);
    assert text == ("{" + joined + "}") + "\n";
    assert text[..|text| - 1] == "{" + joined + "}";
    ConfigFieldsPlain(c, show);
    JoinedHasNoBraces(fields);
    StripBraces(joined);
    JoinedAssignmentsParse(fields, ";");
  }

  lemma JoinedHasNoBraces(fields: seq<(string, string)>)
    requires |fields| >= 1 && forall i :: 0 <= i < |fields| ==> Plain(fields[i].0) && Plain(fields[i].1)
    ensures var joined := Join(Assignments(fields), ";");
            |joined| > 0 && Avoids(joined, '{') && Avoids(joined, '}')
  {
    var tokens := Assignments(fields);
    forall i | 0 <= i < |tokens| ensures Avoids(tokens[i], '{') && Avoids(tokens[i], '}') {
      AssignmentAvoids(fields[i].0, fields[i].1, '{');
      AssignmentAvoids(fields[i].0, fields[i].1, '}');
    }
    JoinAvoids(tokens, ";", '{');
    JoinAvoids(tokens, ";", '}');
    JoinNonEmpty(tokens, ";");
  }

  // ----------------------------------------------------------- run output

  /** `result['output']['stdout'].split("\n")`; KeyError when the run has no standard output. */
  function StdoutLines(output: Dict<string>): (lines: Option<seq<string>>)
    ensures lines.None? <==> Get(output, "stdout").None?
  {
    var text := Get(output, "stdout");
    if text.None? then None else Some(Split(text.value, "\n"))
  }

  /**
   * The `get_config` loop: every line starting with "{" is parsed and
   * replaces the configuration read so far.
   */
  function ConfigOfLines(lines: seq<string>): Option<Dict<string>> {
    if lines == [] then Some([])
    else
      var prev := ConfigOfLines(lines[..|lines| - 1]);
      var line := lines[|lines| - 1];
      if prev.None? then None
      else if StartsWith(line, "{") then ConfigItems(line)
      else prev
  }

  /** What `get_config` returns. */
  function RunConfig(output: Dict<string>): Option<Dict<string>> {
    var lines := StdoutLines(output);
    if lines.None? then None else ConfigOfLines(lines.value)
  }

  /** `get_config`. */
  method GetConfig(output: Dict<string>) returns (config: Option<Dict<string>>)
    ensures config == RunConfig(output)
  {
    var stdout := Get(output, "stdout");
    if stdout.None? {
      return None;
    }
    var lines := Split(stdout.value, "\n");
    var current: Dict<string> := [];
    for i := 0 to |lines|
      invariant ConfigOfLines(lines[..i]) == Some(current)
    {
      assert lines[..i + 1][..i] == lines[..i];
      if StartsWith(lines[i], "{") {
        var parsed := NetConfigParser(lines[i]);
        if parsed.None? {
          ConfigFails(lines);
          return None;
        }
        current := parsed.value;
      }
    }
    assert lines[..|lines|] == lines;
    config := Some(current);
  }

  /** A line `get_config` parses and `net_config_parser` rejects. */
  predicate BadConfigLine(line: string) {
    StartsWith(line, "{") && ConfigItems(line).None?
  }

  /** One more line fails the loop exactly when the loop had failed or the line is bad. */
  lemma ConfigFailsStep(lines: seq<string>)
    requires lines != []
    ensures ConfigOfLines(lines).None?
            <==> ConfigOfLines(lines[..|lines| - 1]).None? || BadConfigLine(lines[|lines| - 1])
  {
  }

  /** A failed loop points at a bad line. */
  lemma {:induction false} ConfigFailsAtBadLine(lines: seq<string>)
    requires ConfigOfLines(lines).None?
    ensures exists i :: 0 <= i < |lines| && BadConfigLine(lines[i])
  {
    var front := lines[..|lines| - 1];
    ConfigFailsStep(lines);
    if ConfigOfLines(front).None? {
      ConfigFailsAtBadLine(front);
      var i :| 0 <= i < |front| && BadConfigLine(front[i]);
      assert lines[i] == front[i];
    } else {
      assert BadConfigLine(lines[|lines| - 1]);
    }
  }

  /** A bad line fails the loop, whatever follows it. */
  lemma {:induction false} BadLineFailsConfig(lines: seq<string>, i: nat)
    requires i < |lines| && BadConfigLine(lines[i])
    ensures ConfigOfLines(lines).None?
  {
    var front := lines[..|lines| - 1];
    ConfigFailsStep(lines);
    if i < |front| {
      assert front[i] == lines[i];
      BadLineFailsConfig(front, i);
    }
  }

  /** The loop fails exactly when some line starting with "{" does not parse. */
  lemma ConfigFails(lines: seq<string>)
    ensures ConfigOfLines(lines).None? <==> exists i :: 0 <= i < |lines| && BadConfigLine(lines[i])
  {
    if ConfigOfLines(lines).None? {
      ConfigFailsAtBadLine(lines);
    }
    if exists i :: 0 <= i < |lines| && BadConfigLine(lines[i]) {
      var i :| 0 <= i < |lines| && BadConfigLine(lines[i]);
      BadLineFailsConfig(lines, i);
    }
  }

  /** Without a line starting with "{", `get_config` returns the empty dictionary. */
  lemma {:induction false} ConfigWithoutBraceLines(lines: seq<string>)
    requires forall i :: 0 <= i < |lines| ==> !StartsWith(lines[i], "{")
    ensures ConfigOfLines(lines) == Some([])
  {
    if lines != [] {
      var front := lines[..|lines| - 1];
      assert forall i :: 0 <= i < |front| ==> front[i] == lines[i];
      ConfigWithoutBraceLines(front);
    }
  }

  /**
   * When every configuration line parses, `get_config` returns the parse
   * of the last line starting with "{".
   */
  lemma {:induction false} ConfigFromLastBraceLine(lines: seq<string>, j: int)
    requires 0 <= j < |lines| && StartsWith(lines[j], "{")
    requires forall i :: j < i < |lines| ==> !StartsWith(lines[i], "{")
    requires forall i :: 0 <= i < |lines| ==> !BadConfigLine(lines[i])
    ensures ConfigOfLines(lines) == ConfigItems(lines[j])
  {
    var front := lines[..|lines| - 1];
    ConfigFails(front);
    assert forall i :: 0 <= i < |front| ==> front[i] == lines[i];
    if j < |lines| - 1 {
      ConfigFromLastBraceLine(front, j);
    }
  }

  /** A last line that does not start with "{" changes nothing. */
  lemma ConfigPlainStep(lines: seq<string>)
    requires lines != [] && !StartsWith(lines[|lines| - 1], "{")
    ensures ConfigOfLines(lines) == ConfigOfLines(lines[..|lines| - 1])
  {
  }

  /** Lines that do not start with "{" leave the configuration read so far as it is. */
  lemma {:induction false} PlainLinesKeepConfig(prefix: seq<string>, after: seq<string>)
    requires forall i :: 0 <= i < |after| ==> !StartsWith(after[i], "{")
    ensures ConfigOfLines(prefix + after) == ConfigOfLines(prefix)
  {
    if after == [] {
      assert prefix + after == prefix;
    } else {
      var all := prefix + after;
      var front := after[..|after| - 1];
      assert all[..|all| - 1] == prefix + front;
      assert all[|all| - 1] == after[|after| - 1];
      ConfigPlainStep(all);
      assert forall i :: 0 <= i < |front| ==> front[i] == after[i];
      PlainLinesKeepConfig(prefix, front);
    }
  }

  /** A single line starting with "{" among lines that do not decides the configuration. */
  lemma OnlyBraceLine(before: seq<string>, line: string, after: seq<string>)
    requires StartsWith(line, "{") && ConfigItems(line).Some?
    requires forall i :: 0 <= i < |before| ==> !StartsWith(before[i], "{")
    requires forall i :: 0 <= i < |after| ==> !StartsWith(after[i], "{")
    ensures ConfigOfLines(before + [line] + after) == ConfigItems(line)
  {
    ConfigWithoutBraceLines(before);
    var withLine := before + [line];
    assert withLine[..|withLine| - 1] == before;
    assert ConfigOfLines(withLine) == ConfigItems(line);
    PlainLinesKeepConfig(withLine, after);
  }

  // ------------------------------------------------ get_whisker_file_names

  /** The keys starting with "whiskers", in key order. */
  function WhiskerFiles(keys: seq<string>): seq<string> {
    if keys == [] then []
    else
      var front := WhiskerFiles(keys[..|keys| - 1]);
      var key := keys[|keys| - 1];
      if StartsWith(key, "whiskers") then front + [key] else front
  }

  /** `get_whisker_file_names`. */
  method GetWhiskerFileNames(output: Dict<string>) returns (files: seq<string>)
    ensures files == WhiskerFiles(Firsts(output))
  {
    var keys := Firsts(output);
    files := [];
    for i := 0 to |keys|
      invariant files == WhiskerFiles(keys[..i])
    {
      assert keys[..i + 1][..i] == keys[..i];
      if StartsWith(keys[i], "whiskers") {
        files := files + [keys[i]];
      }
    }
    assert keys[..|keys|] == keys;
  }

  /** Exactly the keys starting with "whiskers" are kept. */
  lemma {:induction false} WhiskerFilesMembers(keys: seq<string>)
    ensures forall k :: k in WhiskerFiles(keys) <==> k in keys && StartsWith(k, "whiskers")
  {
    if keys != [] {
      var front := keys[..|keys| - 1];
      WhiskerFilesMembers(front);
      assert keys == front + [keys[|keys| - 1]];
    }
  }

  /** Keeping commutes with concatenation, so the kept keys stay in key order. */
  lemma {:induction false} WhiskerFilesConcat(a: seq<string>, b: seq<string>)
    ensures WhiskerFiles(a + b) == WhiskerFiles(a) + WhiskerFiles(b)
  {
    if b == [] {
      assert a + b == a;
    } else {
      var front := b[..|b| - 1];
      WhiskerFilesConcat(a, front);
      assert (a + b)[..|a + b| - 1] == a + front;
    }
  }

  // ---------------------------------------------------- parse_whisker_stats

  /** One row of `parse_whisker_stats`: both memories, the action fields as text, and the usage. */
  datatype WhiskerRow = WhiskerRow(
    lowMem: Dict<string>,
    hiMem: Dict<string>,
    cwndAdd: string,
    cwndMult: string,
    intersend: string,
    use: int)

  /**
   * The fields of one dumped whisker line (one starting with "["): the
   * range text and the row it yields; a missing piece (IndexError), a
   * memory that does not parse, or a usage that is not an integer
   * (ValueError) is `None`.
   */
  function ParseWhiskerLine(line: string): Option<(string, WhiskerRow)> {
    var parts := Split(Strip(Strip(line, "["), "]"), " => ");
    var memoryRange := Strip(Strip(parts[0], "{("), ")}");
    var hiAndLow := Split(memoryRange, " hi: ");
    var lowMem := MemoryItems(Strip(Strip(hiAndLow[0], "lo: <"), ">"));
    if lowMem.None? || |hiAndLow| < 2 then None
    else
      var hiMem := MemoryItems(Strip(Strip(hiAndLow[1], "<"), ">"));
      if hiMem.None? || |parts| < 2 then None
      else
        var actionAndUse := Split(parts[1], ") (");
        if |actionAndUse| < 2 || |Split(actionAndUse[1], ": ")| < 2 then None
        else
          var useText := Strip(Split(actionAndUse[1], ": ")[1], ")");
          var action := actionAndUse[0];
          var terms := Split(action, " + ");
          var addWords := Split(terms[0], " ");
          if |addWords| < 2 || |terms| < 2 then None
          else
            var cwndMult := Strip(Split(terms[1], " ")[0], "(");
            var afterColon := Split(action, ": ");
            var intersend := Split(afterColon[|afterColon| - 1], " ")[0];
            var use := ParseInt(useText);
            if use.None? then None
            else Some((memoryRange, WhiskerRow(lowMem.value, hiMem.value, addWords[1], cwndMult, intersend, use.value)))
  }

  /** The entries of one file's lines, in order; `None` when a whisker line does not parse. */
  function LineEntries(lines: seq<string>): Option<seq<(string, WhiskerRow)>> {
    if lines == [] then Some([])
    else
      var prev := LineEntries(lines[..|lines| - 1]);
      var line := lines[|lines| - 1];
      if prev.None? then None
      else if !StartsWith(line, "[") then prev
      else
        var entry := ParseWhiskerLine(line);
        if entry.None? then None else Some(prev.value + [entry.value])
  }

  /** The entries of the given output files, file after file; a missing file is a KeyError. */
  function FilesEntries(output: Dict<string>, files: seq<string>): Option<seq<(string, WhiskerRow)>> {
    if files == [] then Some([])
    else
      var prev := FilesEntries(output, files[..|files| - 1]);
      var text := Get(output, files[|files| - 1]);
      if prev.None? || text.None? then None
      else
        var entries := LineEntries(Split(text.value, "\n"));
        if entries.None? then None else Some(prev.value + entries.value)
  }

  /** One entry into the table: a new range is appended, a known one takes the new row with the usages added. */
  function AddEntry(whiskers: Dict<WhiskerRow>, entry: (string, WhiskerRow)): Dict<WhiskerRow> {
    var prev := Get(whiskers, entry.0);
    var row := if prev.Some? then entry.1.(use := entry.1.use + prev.value.use) else entry.1;
    Put(whiskers, entry.0, row)
  }

  /** The table after all entries, in order. */
  function Tally(entries: seq<(string, WhiskerRow)>): Dict<WhiskerRow> {
    if entries == [] then [] else AddEntry(Tally(entries[..|entries| - 1]), entries[|entries| - 1])
  }

  /** What `parse_whisker_stats` returns. */
  function WhiskerStats(output: Dict<string>): Option<seq<WhiskerRow>> {
    var entries := FilesEntries(output, WhiskerFiles(Firsts(output)));
    if entries.None? then None else Some(Seconds(Tally(entries.value)))
  }

  /** The last row recorded for range `k`, if any. */
  function LastRow(entries: seq<(string, WhiskerRow)>, k: string): (r: Option<WhiskerRow>)
    ensures r.None? <==> forall i :: 0 <= i < |entries| ==> entries[i].0 != k
  {
    if entries == [] then None
    else if entries[|entries| - 1].0 == k then Some(entries[|entries| - 1].1)
    else LastRow(entries[..|entries| - 1], k)
  }

  /** The total usage recorded for range `k`. */
  function UseTotal(entries: seq<(string, WhiskerRow)>, k: string): int {
    if entries == [] then 0
    else
      var last := entries[|entries| - 1];
      (if last.0 == k then last.1.use else 0) + UseTotal(entries[..|entries| - 1], k)
  }

  /**
   * The table holds one row per range text, in order of first appearance:
   * the last row seen for that range, with the usages of all its rows
   * summed.
   */
  lemma {:induction false} TallyGet(entries: seq<(string, WhiskerRow)>, k: string)
    ensures DistinctKeys(Tally(entries))
    ensures LastRow(entries, k).None? ==> UseTotal(entries, k) == 0 && Get(Tally(entries), k) == None
    ensures LastRow(entries, k).Some? ==>
      Get(Tally(entries), k) == Some(LastRow(entries, k).value.(use := UseTotal(entries, k)))
  {
    if entries != [] {
      var front := entries[..|entries| - 1];
      var last := entries[|entries| - 1];
      TallyGet(front, k);
      AddEntryGet(Tally(front), last, k);
    }
  }

  /** One entry changes only its own range's row, and keeps the ranges distinct. */
  lemma AddEntryGet(whiskers: Dict<WhiskerRow>, entry: (string, WhiskerRow), k: string)
    requires DistinctKeys(whiskers)
    ensures DistinctKeys(AddEntry(whiskers, entry))
    ensures entry.0 != k ==> Get(AddEntry(whiskers, entry), k) == Get(whiskers, k)
    ensures entry.0 == k ==>
      Get(AddEntry(whiskers, entry), k)
      == Some(if Get(whiskers, k).Some? then entry.1.(use := entry.1.use + Get(whiskers, k).value.use) else entry.1)
  {
    var prev := Get(whiskers, entry.0);
    var row := if prev.Some? then entry.1.(use := entry.1.use + prev.value.use) else entry.1;
    PutGet(whiskers, entry.0, row, k);
  }

  /** A failure stays a failure as more lines are read. */
  lemma {:induction false} LineEntriesFailSticks(lines: seq<string>, j: nat)
    requires j <= |lines| && LineEntries(lines[..j]).None?
    ensures LineEntries(lines).None?
  {
    if j < |lines| {
      assert lines[..|lines| - 1][..j] == lines[..j];
      LineEntriesFailSticks(lines[..|lines| - 1], j);
    } else {
      assert lines[..j] == lines;
    }
  }

  /** A failure stays a failure as more files are read. */
  lemma {:induction false} FilesEntriesFailSticks(output: Dict<string>, files: seq<string>, j: nat)
    requires j <= |files| && FilesEntries(output, files[..j]).None?
    ensures FilesEntries(output, files).None?
  {
    if j < |files| {
      assert files[..|files| - 1][..j] == files[..j];
      FilesEntriesFailSticks(output, files[..|files| - 1], j);
    } else {
      assert files[..j] == files;
    }
  }

  /** The lines of one whisker file, entered into the table. */
  method TallyLines(whiskers0: Dict<WhiskerRow>, ghost done: seq<(string, WhiskerRow)>, lines: seq<string>)
    returns (whiskers: Option<Dict<WhiskerRow>>, ghost entries: seq<(string, WhiskerRow)>)
    requires whiskers0 == Tally(done)
    ensures whiskers.None? <==> LineEntries(lines).None?
    ensures whiskers.Some? ==> LineEntries(lines) == Some(entries) && whiskers.value == Tally(done + entries)
  {
    var current := whiskers0;
    entries := [];
    assert done + entries == done;
    for j := 0 to |lines|
      invariant LineEntries(lines[..j]) == Some(entries)
      invariant current == Tally(done + entries)
    {
      var next, more := TallyLine(current, done, entries, lines, j);
      if next.None? {
        return None, entries;
      }
      current, entries := next.value, more;
    }
    assert lines[..|lines|] == lines;
    whiskers := Some(current);
  }

  /** One line of a whisker file: a line starting with "[" is parsed and entered into the table. */
  method TallyLine(current: Dict<WhiskerRow>, ghost done: seq<(string, WhiskerRow)>, ghost entries: seq<(string, WhiskerRow)>,
                   lines: seq<string>, j: int)
    returns (next: Option<Dict<WhiskerRow>>, ghost more: seq<(string, WhiskerRow)>)
    requires 0 <= j < |lines| && LineEntries(lines[..j]) == Some(entries) && current == Tally(done + entries)
    ensures next.None? ==> LineEntries(lines).None?
    ensures next.Some? ==> LineEntries(lines[..j + 1]) == Some(more) && next.value == Tally(done + more)
  {
    LineEntriesStep(lines, j, entries);
    more := entries;
    if !StartsWith(lines[j], "[") {
      return Some(current), more;
    }
    var entry := ParseWhiskerLine(lines[j]);
    if entry.None? {
      LineEntriesFailSticks(lines, j + 1);
      return None, more;
    }
    TallySnoc(done, entries, entry.value);
    more := entries + [entry.value];
    next := Some(AddEntry(current, entry.value));
  }

  /** Tallying a sequence ending in `entry` adds `entry` to the tally of the rest. */
  lemma TallyLast(front: seq<(string, WhiskerRow)>, entry: (string, WhiskerRow))
    ensures Tally(front + [entry]) == AddEntry(Tally(front), entry)
  {
    var all := front + [entry];
    assert all[..|all| - 1] == front;
  }

  /** The table grows one entry at a time. */
  lemma TallySnoc(done: seq<(string, WhiskerRow)>, entries: seq<(string, WhiskerRow)>, entry: (string, WhiskerRow))
    ensures Tally(done + (entries + [entry])) == AddEntry(Tally(done + entries), entry)
  {
    var all := done + (entries + [entry]);
    assert all == (done + entries) + [entry];
    TallyLast(done + entries, entry);
  }

  /** Reading one more line: a plain line adds nothing, a whisker line adds its entry or fails. */
  lemma LineEntriesStep(lines: seq<string>, j: int, entries: seq<(string, WhiskerRow)>)
    requires 0 <= j < |lines| && LineEntries(lines[..j]) == Some(entries)
    ensures !StartsWith(lines[j], "[") ==> LineEntries(lines[..j + 1]) == Some(entries)
    ensures StartsWith(lines[j], "[") ==>
      LineEntries(lines[..j + 1])
      == (if ParseWhiskerLine(lines[j]).None? then None else Some(entries + [ParseWhiskerLine(lines[j]).value]))
  {
    var prefix := lines[..j + 1];
    assert prefix[..j] == lines[..j];
    assert prefix[j] == lines[j];
  }

  /** Reading one more file whose lines all parse appends its entries. */
  lemma FilesEntriesStep(output: Dict<string>, files: seq<string>, f: int, done: seq<(string, WhiskerRow)>,
                         text: string, entries: seq<(string, WhiskerRow)>)
    requires 0 <= f < |files| && FilesEntries(output, files[..f]) == Some(done)
    requires Get(output, files[f]) == Some(text) && LineEntries(Split(text, "\n")) == Some(entries)
    ensures FilesEntries(output, files[..f + 1]) == Some(done + entries)
  {
    assert files[..f + 1][..f] == files[..f];
  }

  /** `parse_whisker_stats`. */
  method ParseWhiskerStats(output: Dict<string>) returns (stats: Option<seq<WhiskerRow>>)
    ensures stats == WhiskerStats(output)
  {
    var files := GetWhiskerFileNames(output);
    var whiskers: Dict<WhiskerRow> := [];
    ghost var done: seq<(string, WhiskerRow)> := [];
    for f := 0 to |files|
      invariant FilesEntries(output, files[..f]) == Some(done)
      invariant whiskers == Tally(done)
    {
      assert files[..f + 1][..f] == files[..f];
      var text := Get(output, files[f]);
      if text.None? {
        FilesEntriesFailSticks(output, files, f + 1);
        return None;
      }
      var lines := Split(text.value, "\n");
      var next, entries := TallyLines(whiskers, done, lines);
      if next.None? {
        FilesEntriesFailSticks(output, files, f + 1);
        return None;
      }
      FilesEntriesStep(output, files, f, done, text.value, entries);
      whiskers := next.value;
      done := done + entries;
    }
    assert files[..|files|] == files;
    stats := Some(Seconds(whiskers));
  }

  // ------------------------------------------------------- sums and means

  /** `sum` of a list of floats, taken exactly. */
  function Sum(xs: seq<real>): real {
    if xs == [] then 0.0 else Sum(xs[..|xs| - 1]) + xs[|xs| - 1]
  }

  /** The arithmetic mean. */
  function Mean(xs: seq<real>): real
    requires |xs| > 0
  {
    Sum(xs) / |xs| as real
  }

  lemma SumSnoc(xs: seq<real>, x: real)
    ensures Sum(xs + [x]) == Sum(xs) + x
  {
    assert (xs + [x])[..|xs|] == xs;
  }

  /** A sum of values in [lo, hi] lies between `n * lo` and `n * hi`. */
  lemma {:induction false} SumBounds(xs: seq<real>, lo: real, hi: real)
    requires forall i :: 0 <= i < |xs| ==> lo <= xs[i] <= hi
    ensures |xs| as real * lo <= Sum(xs) <= |xs| as real * hi
  {
    if xs != [] {
      var front := xs[..|xs| - 1];
      assert forall i :: 0 <= i < |front| ==> front[i] == xs[i];
      SumBounds(front, lo, hi);
      assert |xs| as real * lo == |front| as real * lo + lo;
      assert |xs| as real * hi == |front| as real * hi + hi;
    }
  }

  /** The mean of values in [lo, hi] lies in [lo, hi]. */
  lemma MeanWithin(xs: seq<real>, lo: real, hi: real)
    requires |xs| > 0 && forall i :: 0 <= i < |xs| ==> lo <= xs[i] <= hi
    ensures lo <= Mean(xs) <= hi
  {
    SumBounds(xs, lo, hi);
    var n := |xs| as real;
    var m := Mean(xs);
    assert m * n == Sum(xs);
  }

  /** A sum of non-negative values is non-negative. */
  lemma {:induction false} SumNonNegative(xs: seq<real>)
    requires forall i :: 0 <= i < |xs| ==> 0.0 <= xs[i]
    ensures 0.0 <= Sum(xs)
  {
    if xs != [] {
      var front := xs[..|xs| - 1];
      assert forall i :: 0 <= i < |front| ==> front[i] == xs[i];
      SumNonNegative(front);
    }
  }

  /** A sum of non-negative values is zero only when every value is. */
  lemma {:induction false} SumZero(xs: seq<real>)
    requires forall i :: 0 <= i < |xs| ==> 0.0 <= xs[i]
    requires Sum(xs) == 0.0
    ensures forall i :: 0 <= i < |xs| ==> xs[i] == 0.0
  {
    if xs != [] {
      var front := xs[..|xs| - 1];
      assert forall i :: 0 <= i < |front| ==> front[i] == xs[i];
      SumNonNegative(front);
      SumZero(front);
    }
  }

  /** `n` copies of `c` sum to `n * c`. */
  lemma {:induction false} SumConstant(xs: seq<real>, c: real)
    requires forall i :: 0 <= i < |xs| ==> xs[i] == c
    ensures Sum(xs) == |xs| as real * c
  {
    if xs != [] {
      var front := xs[..|xs| - 1];
      assert forall i :: 0 <= i < |front| ==> front[i] == xs[i];
      SumConstant(front, c);
      assert |xs| as real * c == |front| as real * c + c;
    }
  }

  // --------------------------------------------------------------- variance

  /** The squared deviations `(i - mean) ** 2`. */
  function Deviations(xs: seq<real>, mean: real): (ds: seq<real>)
    ensures |ds| == |xs| && forall i :: 0 <= i < |xs| ==> ds[i] == (xs[i] - mean) * (xs[i] - mean)
  {
    seq(|xs|, i requires 0 <= i < |xs| => (xs[i] - mean) * (xs[i] - mean))
  }

  /** `variance`: the mean squared deviation from the mean; an empty list divides by zero. */
  function Variance(measurements: seq<real>): (v: Option<real>)
    ensures v.None? <==> |measurements| == 0
  {
    if |measurements| == 0 then None
    else Some(Sum(Deviations(measurements, Mean(measurements))) / |measurements| as real)
  }

  /** A variance is never negative. */
  lemma VarianceNonNegative(measurements: seq<real>)
    requires |measurements| > 0
    ensures Variance(measurements).value >= 0.0
  {
    var ds := Deviations(measurements, Mean(measurements));
    forall i | 0 <= i < |ds| ensures 0.0 <= ds[i] {
      var d := measurements[i] - Mean(measurements);
      assert ds[i] == d * d;
    }
    SumNonNegative(ds);
  }

  /** The variance is zero exactly when all measurements are equal. */
  lemma VarianceZeroIff(measurements: seq<real>)
    requires |measurements| > 0
    ensures Variance(measurements) == Some(0.0) <==>
      forall i :: 0 <= i < |measurements| ==> measurements[i] == measurements[0]
  {
    if forall i :: 0 <= i < |measurements| ==> measurements[i] == measurements[0] {
      VarianceOfConstant(measurements);
    }
    if Variance(measurements) == Some(0.0) {
      VarianceZeroConstant(measurements);
    }
  }

  lemma VarianceOfConstant(measurements: seq<real>)
    requires |measurements| > 0
    requires forall i :: 0 <= i < |measurements| ==> measurements[i] == measurements[0]
    ensures Variance(measurements) == Some(0.0)
  {
    var m := Mean(measurements);
    SumConstant(measurements, measurements[0]);
    assert m == measurements[0];
    var ds := Deviations(measurements, m);
    forall i | 0 <= i < |ds| ensures ds[i] == 0.0 {
      assert measurements[i] - m == 0.0;
    }
    SumConstant(ds, 0.0);
  }

  lemma VarianceZeroConstant(measurements: seq<real>)
    requires |measurements| > 0 && Variance(measurements) == Some(0.0)
    ensures forall i :: 0 <= i < |measurements| ==> measurements[i] == measurements[0]
  {
    var m := Mean(measurements);
    var ds := Deviations(measurements, m);
    assert Sum(ds) / |measurements| as real == 0.0;
    forall i | 0 <= i < |ds| ensures 0.0 <= ds[i] {
      var d := measurements[i] - m;
      assert ds[i] == d * d;
    }
    SumZero(ds);
    forall i | 0 <= i < |measurements| ensures measurements[i] == m {
      SquareZero(measurements[i] - m, ds[i]);
    }
  }

  lemma ProductPositive(a: real, b: real, p: real)
    requires (a > 0.0 && b > 0.0) || (a < 0.0 && b < 0.0)
    requires p == a * b
    ensures p > 0.0
  {
  }

  /** Only zero squares to zero. */
  lemma SquareZero(d: real, p: real)
    requires p == d * d && p == 0.0
    ensures d == 0.0
  {
    if d != 0.0 {
      ProductPositive(d, d, p);
    }
  }

  // --------------------------------------------------- reading score lines

  /**
   * The shape of the score loops: every line `keep` selects is read, in
   * order; a selected line that does not read (ValueError, IndexError)
   * raises, which is `None`.
   */
  function Collect<T>(lines: seq<string>, keep: string -> bool, read: string -> Option<T>): Option<seq<T>> {
    if lines == [] then Some([])
    else
      var prev := Collect(lines[..|lines| - 1], keep, read);
      var line := lines[|lines| - 1];
      if prev.None? then None
      else if !keep(line) then prev
      else if read(line).None? then None
      else Some(prev.value + [read(line).value])
  }

  /** Collecting fails exactly when some selected line does not read. */
  lemma {:induction false} CollectFails<T>(lines: seq<string>, keep: string -> bool, read: string -> Option<T>)
    ensures Collect(lines, keep, read).None? <==>
      exists i :: 0 <= i < |lines| && keep(lines[i]) && read(lines[i]).None?
  {
    if lines != [] {
      var front := lines[..|lines| - 1];
      CollectFails(front, keep, read);
      assert forall i :: 0 <= i < |front| ==> front[i] == lines[i];
    }
  }

  /** Nothing is collected exactly when no line is selected. */
  lemma {:induction false} CollectEmpty<T>(lines: seq<string>, keep: string -> bool, read: string -> Option<T>)
    ensures Collect(lines, keep, read) == Some([]) <==> forall i :: 0 <= i < |lines| ==> !keep(lines[i])
  {
    if lines != [] {
      var front := lines[..|lines| - 1];
      CollectEmpty(front, keep, read);
      assert forall i :: 0 <= i < |front| ==> front[i] == lines[i];
      var prev := Collect(front, keep, read);
      if prev.Some? && prev.value != [] {
        CollectGrows(front, lines[|lines| - 1], keep, read);
      }
    }
  }

  /** One more line never shortens what was collected. */
  lemma CollectGrows<T>(front: seq<string>, line: string, keep: string -> bool, read: string -> Option<T>)
    requires Collect(front, keep, read).Some?
    ensures var all := Collect(front + [line], keep, read);
            all.Some? ==> |all.value| >= |Collect(front, keep, read).value|
  {
    assert (front + [line])[..|front|] == front;
  }

  /** Reading line `j` after lines `..j`, as the loops do. */
  lemma CollectStep<T>(lines: seq<string>, j: int, keep: string -> bool, read: string -> Option<T>, xs: seq<T>)
    requires 0 <= j < |lines| && Collect(lines[..j], keep, read) == Some(xs)
    ensures !keep(lines[j]) ==> Collect(lines[..j + 1], keep, read) == Some(xs)
    ensures keep(lines[j]) && read(lines[j]).Some? ==> Collect(lines[..j + 1], keep, read) == Some(xs + [read(lines[j]).value])
    ensures keep(lines[j]) && read(lines[j]).None? ==> Collect(lines, keep, read).None?
  {
    var prefix := lines[..j + 1];
    assert prefix[..j] == lines[..j];
    assert prefix[j] == lines[j];
    if keep(lines[j]) && read(lines[j]).None? {
      CollectFails(lines, keep, read);
    }
  }

  // ------------------------------------------------------ get_avg_subscores

  predicate IsThroughputLine(line: string) {
    StartsWith(line, "Throughput")
  }

  /** `float(part.split(":")[1].strip())`. */
  function ValueAfterColon(part: string): Option<real> {
    var pieces := Split(part, ":");
    if |pieces| < 2 then None else ParseReal(Strip(pieces[1], Whitespace))
  }

  /** The throughput and delay scores of a "Throughput" line. */
  function SubscorePair(line: string): Option<(real, real)> {
    var scores := Split(line, ";");
    var tput := ValueAfterColon(scores[0]);
    if tput.None? || |scores| < 2 then None
    else
      var delay := ValueAfterColon(scores[1]);
      if delay.None? then None else Some((tput.value, delay.value))
  }

  /** What `get_avg_subscores` computes from the lines: (0, 0) without runs, else the two means. */
  function AvgSubscores(lines: seq<string>): Option<(real, real)> {
    var pairs := Collect(lines, IsThroughputLine, SubscorePair);
    if pairs.None? then None
    else if |pairs.value| == 0 then Some((0.0, 0.0))
    else Some((Mean(Firsts(pairs.value)), Mean(Seconds(pairs.value))))
  }

  /** What `get_avg_subscores` returns. */
  function RunSubscores(output: Dict<string>): Option<(real, real)> {
    var lines := StdoutLines(output);
    if lines.None? then None else AvgSubscores(lines.value)
  }

  /** `get_avg_subscores`. */
  method GetAvgSubscores(output: Dict<string>) returns (r: Option<(real, real)>)
    ensures r == RunSubscores(output)
  {
    var stdout := Get(output, "stdout");
    if stdout.None? {
      return None;
    }
    var lines := Split(stdout.value, "\n");
    var totalTput, totalDelay, runs := 0.0, 0.0, 0;
    ghost var pairs: seq<(real, real)> := [];
    for j := 0 to |lines|
      invariant Collect(lines[..j], IsThroughputLine, SubscorePair) == Some(pairs)
      invariant totalTput == Sum(Firsts(pairs)) && totalDelay == Sum(Seconds(pairs)) && runs == |pairs|
    {
      var ok: bool;
      ok, totalTput, totalDelay, runs, pairs := SubscoreStep(lines, j, totalTput, totalDelay, runs, pairs);
      if !ok {
        return None;
      }
    }
    assert lines[..|lines|] == lines;
    if runs != 0 {
      r := Some((totalTput / runs as real, totalDelay / runs as real));
    } else {
      r := Some((0.0, 0.0));
    }
  }

  /** The body of the `get_avg_subscores` loop, for line `j`. */
  method SubscoreStep(lines: seq<string>, j: int, totalTput: real, totalDelay: real, runs: int,
                      ghost pairs: seq<(real, real)>)
    returns (ok: bool, totalTput': real, totalDelay': real, runs': int, ghost pairs': seq<(real, real)>)
    requires 0 <= j < |lines| && Collect(lines[..j], IsThroughputLine, SubscorePair) == Some(pairs)
    requires totalTput == Sum(Firsts(pairs)) && totalDelay == Sum(Seconds(pairs)) && runs == |pairs|
    ensures !ok ==> Collect(lines, IsThroughputLine, SubscorePair).None?
    ensures ok ==> Collect(lines[..j + 1], IsThroughputLine, SubscorePair) == Some(pairs')
    ensures ok ==> totalTput' == Sum(Firsts(pairs')) && totalDelay' == Sum(Seconds(pairs')) && runs' == |pairs'|
  {
    CollectStep(lines, j, IsThroughputLine, SubscorePair, pairs);
    ok, totalTput', totalDelay', runs', pairs' := true, totalTput, totalDelay, runs, pairs;
    if StartsWith(lines[j], "Throughput") {
      var scores := SubscorePair(lines[j]);
      if scores.None? {
        return false, totalTput, totalDelay, runs, pairs;
      }
      PairSums(pairs, scores.value);
      totalTput' := totalTput + scores.value.0;
      totalDelay' := totalDelay + scores.value.1;
      runs' := runs + 1;
      pairs' := pairs + [scores.value];
    }
  }

  lemma PairSums(pairs: seq<(real, real)>, p: (real, real))
    ensures Sum(Firsts(pairs + [p])) == Sum(Firsts(pairs)) + p.0
    ensures Sum(Seconds(pairs + [p])) == Sum(Seconds(pairs)) + p.1
  {
    assert Firsts(pairs + [p]) == Firsts(pairs) + [p.0];
    assert Seconds(pairs + [p]) == Seconds(pairs) + [p.1];
    SumSnoc(Firsts(pairs), p.0);
    SumSnoc(Seconds(pairs), p.1);
  }

  /**
   * Without a line starting with "Throughput" the subscores are (0, 0);
   * a "Throughput" line that does not read raises.
   */
  lemma SubscoresWithoutRuns(lines: seq<string>)
    ensures (forall i :: 0 <= i < |lines| ==> !IsThroughputLine(lines[i])) ==> AvgSubscores(lines) == Some((0.0, 0.0))
    ensures AvgSubscores(lines).None? <==>
      exists i :: 0 <= i < |lines| && IsThroughputLine(lines[i]) && SubscorePair(lines[i]).None?
  {
    CollectEmpty(lines, IsThroughputLine, SubscorePair);
    CollectFails(lines, IsThroughputLine, SubscorePair);
  }

  /** With runs, each average lies within the range of its scores. */
  lemma SubscoresWithin(lines: seq<string>, lo: real, hi: real)
    requires var pairs := Collect(lines, IsThroughputLine, SubscorePair);
             pairs.Some? && |pairs.value| > 0
             && forall i :: 0 <= i < |pairs.value| ==> lo <= pairs.value[i].0 <= hi && lo <= pairs.value[i].1 <= hi
    ensures var avg := AvgSubscores(lines).value;
            lo <= avg.0 <= hi && lo <= avg.1 <= hi
  {
    var pairs := Collect(lines, IsThroughputLine, SubscorePair).value;
    MeanWithin(Firsts(pairs), lo, hi);
    MeanWithin(Seconds(pairs), lo, hi);
  }

  // ----------------------------------------------------------- get_avg_score

  /** A line holding "Score" and not "inf". */
  predicate IsScoreLine(line: string) {
    ContainsText(line, "Score") && !ContainsText(line, "inf")
  }

  /** `float(line.split(":")[-1])`. */
  function ScoreValue(line: string): Option<real> {
    var pieces := Split(line, ":");
    ParseReal(pieces[|pieces| - 1])
  }

  /** What `get_avg_score` computes from the lines: the mean score; no score line divides by zero. */
  function AvgScore(lines: seq<string>): Option<real> {
    var scores := Collect(lines, IsScoreLine, ScoreValue);
    if scores.None? || |scores.value| == 0 then None else Some(Mean(scores.value))
  }

  /** What `get_avg_score` returns. */
  function RunScore(output: Dict<string>): Option<real> {
    var lines := StdoutLines(output);
    if lines.None? then None else AvgScore(lines.value)
  }

  /** `get_avg_score`. */
  method GetAvgScore(output: Dict<string>) returns (r: Option<real>)
    ensures r == RunScore(output)
  {
    var stdout := Get(output, "stdout");
    if stdout.None? {
      return None;
    }
    var lines := Split(stdout.value, "\n");
    var totalScore, runs := 0.0, 0;
    ghost var scores: seq<real> := [];
    for j := 0 to |lines|
      invariant Collect(lines[..j], IsScoreLine, ScoreValue) == Some(scores)
      invariant totalScore == Sum(scores) && runs == |scores|
    {
      CollectStep(lines, j, IsScoreLine, ScoreValue, scores);
      if ContainsText(lines[j], "Score") && !ContainsText(lines[j], "inf") {
        var score := ScoreValue(lines[j]);
        if score.None? {
          return None;
        }
        SumSnoc(scores, score.value);
        totalScore := totalScore + score.value;
        runs := runs + 1;
        scores := scores + [score.value];
      }
    }
    assert lines[..|lines|] == lines;
    if runs == 0 {
      return None;
    }
    r := Some(totalScore / runs as real);
  }

  /**
   * The average score is missing exactly when no line is a score line, or
   * some score line does not read.
   */
  lemma AvgScoreDefined(lines: seq<string>)
    ensures AvgScore(lines).None? <==>
      (forall i :: 0 <= i < |lines| ==> !IsScoreLine(lines[i]))
      || exists i :: 0 <= i < |lines| && IsScoreLine(lines[i]) && ScoreValue(lines[i]).None?
  {
    CollectEmpty(lines, IsScoreLine, ScoreValue);
    CollectFails(lines, IsScoreLine, ScoreValue);
  }

  /** With scores all in [lo, hi], so is their average. */
  lemma AvgScoreWithin(lines: seq<string>, lo: real, hi: real)
    requires var scores := Collect(lines, IsScoreLine, ScoreValue);
             scores.Some? && |scores.value| > 0 && forall i :: 0 <= i < |scores.value| ==> lo <= scores.value[i] <= hi
    ensures lo <= AvgScore(lines).value <= hi
  {
    MeanWithin(Collect(lines, IsScoreLine, ScoreValue).value, lo, hi);
  }
}
