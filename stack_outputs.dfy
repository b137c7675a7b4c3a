/**
 * The stack-output reader of the demo's user-setup script: it turns the `key = value` lines
 * printed by `cdk deploy` into a dictionary keyed by output name.
 */
module StackOutputs {
  import opened Wrappers
  import opened PyDict
  import opened Text
  import opened Seqs

  /** The stack name that prefixes every output key. */
  const StackPrefix := "EnterpriseMcpInfraStack."

  /** The dictionary key of a raw key: stripped, with every occurrence of the stack prefix removed. */
  function OutputKey(rawKey: string): string {
    Replace(Strip(rawKey), StackPrefix, "")
  }

  /** `"=" in line`: a one-character pattern occurs exactly where that character does. */
  lemma HasEquals(line: string)
    ensures Contains(line, "=") <==> '=' in line
  {
    if '=' in line {
      var i :| 0 <= i < |line| && line[i] == '=';
      assert OccursAt(line, "=", i) by {
        assert line[i..i + 1] == "=";
      }
    } else {
      AbsentCharNotContained(line, '=');
    }
  }

  /** The entry one line contributes: key and value around its first `=`; None for a line without `=`. */
  function Entry(line: string): (r: Option<(string, string)>)
    ensures r.Some? <==> '=' in line
  {
    HasEquals(line);
    match SplitOnce(line, "=")
    case None => None
    case Some((rawKey, rawValue)) => Some((OutputKey(rawKey), Strip(rawValue)))
  }

  /** `config` once the loop has read `lines`: the entry of each line assigned in turn. */
  function Parsed(lines: seq<string>): Dict<string> {
    if lines == [] then []
    else
      var previous := Parsed(lines[..|lines| - 1]);
      var entry := Entry(lines[|lines| - 1]);
      if entry.Some? then Put(previous, entry.value.0, entry.value.1) else previous
  }

  /** Reading one more line assigns its entry, if it has one. */
  lemma ParsedStep(lines: seq<string>, line: string)
    ensures Parsed(lines + [line]) ==
      if Entry(line).Some? then Put(Parsed(lines), Entry(line).value.0, Entry(line).value.1) else Parsed(lines)
  {
    var all := lines + [line];
    assert all[..|all| - 1] == lines;
    assert all[|all| - 1] == line;
    var entry := Entry(line);
    assert Parsed(all) == if entry.Some? then Put(Parsed(lines), entry.value.0, entry.value.1) else Parsed(lines);
  }

  /** The entry of a line is what the loop body assigns from its split. */
  lemma EntryOfLine(line: string)
    ensures '=' in line ==>
      && SplitOnce(line, "=").Some?
      && Entry(line) == Some((OutputKey(SplitOnce(line, "=").value.0), Strip(SplitOnce(line, "=").value.1)))
    ensures '=' !in line ==> Entry(line) == None
  {
    HasEquals(line);
  }

  /** The loop over the lines of `output`, split at newlines. */
  method ParseOutputs(output: string) returns (config: Dict<string>)
    ensures config == Parsed(Split(output, "\n"))
  {
    config := [];
    var lines := Split(output, "\n");
    for i := 0 to |lines|
      invariant config == Parsed(lines[..i])
    {
      var el := lines[i];
      ParsedStep(lines[..i], el);
      EntryOfLine(el);
      if '=' in el {
        var parts := SplitOnce(el, "=").value;
        config := Put(config, OutputKey(parts.0), Strip(parts.1));
      }
      assert lines[..i + 1] == lines[..i] + [el];
    }
    assert lines[..|lines|] == lines;
  }

  // Properties

  /** A line without `=` adds nothing. */
  lemma LineWithoutEqualsIgnored(lines: seq<string>, line: string)
    requires '=' !in line
    ensures Parsed(lines + [line]) == Parsed(lines)
  {
    ParsedStep(lines, line);
  }

  /** A later line with the same key overwrites the earlier value; other keys keep theirs. */
  lemma LaterLineWins(lines: seq<string>, line: string, k: string)
    requires Entry(line).Some?
    ensures Get(Parsed(lines + [line]), k) ==
      if k == Entry(line).value.0 then Some(Entry(line).value.1) else Get(Parsed(lines), k)
  {
    ParsedStep(lines, line);
  }

  /** The first `=` of `key + "=" + value` is the one after `key`, when `key` has none. */
  lemma FirstEquals(key: string, value: string)
    requires '=' !in key
    ensures FindFirst(key + "=" + value, "=") == Some(|key|)
  {
    var s := key + "=" + value;
    assert OccursAt(s, "=", |key|) by {
      assert s[|key|..|key| + 1] == "=";
    }
    forall j | 0 <= j < |key|
      ensures !OccursAt(s, "=", j)
    {
      assert s[j] == key[j];
    }
  }

  /** The line is cut at its first `=` only, so the value keeps any later `=`. */
  lemma SplitAtFirstEquals(key: string, value: string)
    requires '=' !in key
    ensures Entry(key + "=" + value) == Some((OutputKey(key), Strip(value)))
  {
    var s := key + "=" + value;
    FirstEquals(key, value);
    var parts := SplitOnce(s, "=").value;
    assert |parts.0| == |key|;
    assert parts.0 == s[..|key|] == key;
    assert parts.1 == s[|key| + 1..] == value;
  }

  /** A value made only of whitespace (`UserPoolId =`) is the empty string. */
  lemma BlankValueIsEmpty(key: string, value: string)
    requires '=' !in key
    requires forall i :: 0 <= i < |value| ==> IsSpace(value[i])
    ensures Entry(key + "=" + value) == Some((OutputKey(key), ""))
  {
    SplitAtFirstEquals(key, value);
    var t := TrimStart(value);
    assert t == [];
  }

  /** A key written with the stack prefix loses it. */
  lemma StackPrefixRemoved(rawKey: string, name: string)
    requires Strip(rawKey) == StackPrefix + name
    requires !Contains(name, StackPrefix)
    ensures OutputKey(rawKey) == name
  {
    ReplaceAtPrefix(StackPrefix, name, "");
    ReplaceAbsent(name, StackPrefix, "");
  }

  /** Lines without `=` change nothing, however many follow. */
  lemma {:induction false} LinesWithoutEqualsIgnored(lines: seq<string>, rest: seq<string>)
    requires forall i :: 0 <= i < |rest| ==> '=' !in rest[i]
    ensures Parsed(lines + rest) == Parsed(lines)
    decreases |rest|
  {
    if rest == [] {
      assert lines + rest == lines;
    } else {
      var init, last := rest[..|rest| - 1], rest[|rest| - 1];
      assert Parsed(lines + init) == Parsed(lines) by {
        assert forall i :: 0 <= i < |init| ==> init[i] == rest[i];
        LinesWithoutEqualsIgnored(lines, init);
      }
      assert Parsed(lines + rest) == Parsed(lines + init) by {
        FrontLast(rest);
        AppendAssoc(lines, init, [last]);
        LineWithoutEqualsIgnored(lines + init, last);
      }
    }
  }

  /**
   * The continuation lines of a multi-line value carry no `=` and are dropped, so the key keeps
   * only what followed `=` on its own line (`VSCodeMcpConfig` maps to `{`).
   */
  lemma ContinuationLinesDropped(lines: seq<string>, first: string, rest: seq<string>)
    requires Entry(first).Some?
    requires forall i :: 0 <= i < |rest| ==> '=' !in rest[i]
    ensures Get(Parsed(lines + [first] + rest), Entry(first).value.0) == Some(Entry(first).value.1)
  {
    LinesWithoutEqualsIgnored(lines + [first], rest);
    LaterLineWins(lines, first, Entry(first).value.0);
  }
}
