/** The `.env` loader: each `KEY=VALUE` line of the file is added to the
    process environment unless the variable is already set. The file's
    contents are given as its lines; a missing file is `None`. */
module DotEnv {
  import opened Wrappers
  import opened Text

  predicate IsDoubleQuote(c: char) { c == '"' }
  predicate IsSingleQuote(c: char) { c == '\'' }

  /** The value half of a line: trimmed, then stripped of surrounding `"`
      characters, then of surrounding `'` characters. */
  function CleanValue(raw: string): string {
    Strip(Strip(StripSpace(raw), IsDoubleQuote), IsSingleQuote)
  }

  /** What one raw line of the file contributes: a (key, value) pair, or
      None for a line that is skipped. */
  function ParseLine(raw: string): (r: Option<(string, string)>)
    ensures var line := StripSpace(raw);
      (line == [] || line[0] == '#' || IndexOf(line, "=").None?) ==> r.None?
    ensures r.Some? ==> r.value.0 != [] && r.value.0 == StripSpace(r.value.0)
  {
    var line := StripSpace(raw);
    if line == [] || line[0] == '#' then None
    else match IndexOf(line, "=")
      case None => None
      case Some(i) =>
        var key := StripSpace(line[..i]);
        if key == [] then None
        else
          StripSpaceIdempotent(line[..i]);
          Some((key, CleanValue(line[i + 1..])))
  }

  /** A line is skipped exactly when, once trimmed, it is blank, a
      comment, has no `=`, or has nothing but spaces before its first
      `=`; otherwise it gives the trimmed text before that `=` and the
      cleaned text after it. */
  lemma ParseLineCases(raw: string)
    ensures var line := StripSpace(raw);
      ParseLine(raw).None? <==>
        line == [] || line[0] == '#' || IndexOf(line, "=").None? || StripSpace(line[..IndexOf(line, "=").value]) == []
    ensures var line := StripSpace(raw);
      ParseLine(raw).Some? ==>
        var i := IndexOf(line, "=").value;
        ParseLine(raw).value == (StripSpace(line[..i]), CleanValue(line[i + 1..]))
  {
  }

  /** `os.environ.setdefault(key, value)`. */
  function SetDefault(env: map<string, string>, key: string, value: string): map<string, string> {
    if key in env then env else env[key := value]
  }

  /** The environment after one raw line has been applied. */
  function Step(env: map<string, string>, raw: string): map<string, string> {
    match ParseLine(raw)
    case None => env
    case Some(kv) => SetDefault(env, kv.0, kv.1)
  }

  /** The environment after every line of the file has been applied, in order. */
  function Loaded(env: map<string, string>, lines: seq<string>): map<string, string>
    decreases |lines|
  {
    if lines == [] then env else Loaded(Step(env, lines[0]), lines[1..])
  }

  /** A line is split at its first `=` only: the key is the trimmed text
      before it and the value, with any later `=` kept, is the cleaned text
      after it. */
  lemma SplitAtFirstEquals(raw: string, key: string, value: string)
    requires StripSpace(raw) == key + "=" + value
    requires forall k :: 0 <= k < |key| ==> key[k] != '='
    requires key == [] || key[0] != '#'
    requires StripSpace(key) != []
    ensures ParseLine(raw) == Some((StripSpace(key), CleanValue(value)))
  {
    var line := StripSpace(raw);
    assert line[|key|] == '=';
    assert OccursAt(line, "=", |key|);
    forall j | 0 <= j < |key| ensures !OccursAt(line, "=", j) {
      assert line[j] == key[j];
    }
    assert IndexOf(line, "=") == Some(|key|);
    assert line[..|key|] == key;
    assert line[|key| + 1..] == value;
  }

  /** A variable that is already set is never overwritten. */
  lemma {:induction false} LoadedKeepsExisting(env: map<string, string>, lines: seq<string>)
    ensures forall k :: k in env ==> k in Loaded(env, lines) && Loaded(env, lines)[k] == env[k]
    decreases |lines|
  {
    if lines != [] {
      LoadedKeepsExisting(Step(env, lines[0]), lines[1..]);
    }
  }

  /** Blank lines, comments and lines without `=` leave the environment as
      it was, wherever they appear in the file. */
  lemma {:induction false} SkippedLineIsNeutral(env: map<string, string>, before: seq<string>, raw: string, after: seq<string>)
    requires ParseLine(raw).None?
    ensures Loaded(env, before + [raw] + after) == Loaded(env, before + after)
    decreases |before|
  {
    if before == [] {
      assert (before + [raw] + after)[1..] == after;
      assert before + after == after;
    } else {
      var next := Step(env, before[0]);
      assert (before + [raw] + after)[1..] == before[1..] + [raw] + after;
      assert (before + after)[1..] == before[1..] + after;
      SkippedLineIsNeutral(next, before[1..], raw, after);
    }
  }

  /** The keys that the lines define. */
  function DefinedKeys(lines: seq<string>): set<string>
    decreases |lines|
  {
    if lines == [] then {}
    else (match ParseLine(lines[0]) case None => {} case Some(kv) => {kv.0}) + DefinedKeys(lines[1..])
  }

  lemma PrefixOfTail(lines: seq<string>, i: nat)
    requires 0 < i < |lines|
    ensures lines[..i][1..] == lines[1..][..i - 1]
    ensures lines[..i][0] == lines[0] && lines[1..][i - 1] == lines[i]
  {
  }

  /** A line that does not define `k` leaves an unset `k` unset. */
  lemma StepLeavesOut(env: map<string, string>, raw: string, k: string)
    requires k !in env
    requires ParseLine(raw).None? || ParseLine(raw).value.0 != k
    ensures k !in Step(env, raw)
  {
  }

  /** For a key that was not set before, the first line that defines it
      decides its value: later duplicates are ignored. */
  lemma {:induction false} FirstDefinitionWins(env: map<string, string>, lines: seq<string>, i: nat)
    requires i < |lines| && ParseLine(lines[i]).Some?
    requires ParseLine(lines[i]).value.0 !in env
    requires ParseLine(lines[i]).value.0 !in DefinedKeys(lines[..i])
    ensures var kv := ParseLine(lines[i]).value;
      kv.0 in Loaded(env, lines) && Loaded(env, lines)[kv.0] == kv.1
    decreases i
  {
    var next := Step(env, lines[0]);
    if i == 0 {
      LoadedKeepsExisting(next, lines[1..]);
    } else {
      var key := ParseLine(lines[i]).value.0;
      PrefixOfTail(lines, i);
      StepLeavesOut(env, lines[0], key);
      FirstDefinitionWins(next, lines[1..], i - 1);
    }
  }

  /** Loading from line `i` on is applying line `i`, then loading the rest. */
  lemma LoadedStep(env: map<string, string>, lines: seq<string>, i: nat)
    requires i < |lines|
    ensures Loaded(env, lines[i..]) == Loaded(Step(env, lines[i]), lines[i + 1..])
  {
    assert lines[i..][1..] == lines[i + 1..];
  }

  /** The value given to `k` by the first line of `lines` that defines it,
      if any. */
  function FirstValue(lines: seq<string>, k: string): (v: Option<string>)
    ensures v.Some? ==> k in DefinedKeys(lines)
    decreases |lines|
  {
    if lines == [] then None
    else
      var parsed := ParseLine(lines[0]);
      if parsed.Some? && parsed.value.0 == k then Some(parsed.value.1)
      else FirstValue(lines[1..], k)
  }

  /** After loading, a variable is set exactly when it was set before or
      some line defines it; its value is the one it had, or else the one
      the first defining line gives. */
  lemma {:induction false} LoadedLookup(env: map<string, string>, lines: seq<string>, k: string)
    ensures k in Loaded(env, lines) <==> k in env || FirstValue(lines, k).Some?
    ensures k in Loaded(env, lines) ==>
      Loaded(env, lines)[k] == if k in env then env[k] else FirstValue(lines, k).value
    decreases |lines|
  {
    if lines != [] {
      var next := Step(env, lines[0]);
      LoadedLookup(next, lines[1..], k);
      StepLookup(env, lines[0], k);
    }
  }

  /** One line sets `k` when it is unset and the line defines it. */
  lemma StepLookup(env: map<string, string>, raw: string, k: string)
    ensures k in Step(env, raw) <==> k in env || (ParseLine(raw).Some? && ParseLine(raw).value.0 == k)
    ensures k in Step(env, raw) ==>
      Step(env, raw)[k] == if k in env then env[k] else ParseLine(raw).value.1
  {
  }

  /** A key is defined by some line exactly when a first definition of it
      exists. */
  lemma {:induction false} DefinedKeysHaveFirstValue(lines: seq<string>, k: string)
    ensures k in DefinedKeys(lines) <==> FirstValue(lines, k).Some?
    decreases |lines|
  {
    if lines != [] {
      DefinedKeysHaveFirstValue(lines[1..], k);
    }
  }

  /** The variables set after loading are those set before and those the
      lines define. */
  lemma LoadedKeys(env: map<string, string>, lines: seq<string>)
    ensures Loaded(env, lines).Keys == env.Keys + DefinedKeys(lines)
  {
    forall k ensures k in Loaded(env, lines) <==> k in env.Keys + DefinedKeys(lines) {
      LoadedLookup(env, lines, k);
      DefinedKeysHaveFirstValue(lines, k);
    }
  }

  /** The variables the rest of the program reads, with their defaults. */
  datatype Settings = Settings(dashboardBase: string, login: string, password: string)

  /** `os.environ.get(name, "")`. */
  function Get(env: map<string, string>, name: string): (v: string)
    ensures name in env ==> v == env[name]
    ensures name !in env ==> v == ""
  {
    if name in env then env[name] else ""
  }

  /** Reading a variable after the file is loaded gives the value it
      already had, else the first value the file gives it, else `""`. */
  lemma {:induction false} GetAfterLoad(env: map<string, string>, lines: seq<string>, k: string)
    ensures Get(Loaded(env, lines), k) ==
      if k in env then env[k]
      else if FirstValue(lines, k).Some? then FirstValue(lines, k).value
      else ""
  {
    LoadedLookup(env, lines, k);
  }

  function ReadSettings(env: map<string, string>): Settings {
    Settings(Get(env, "DASHBOARD_BASE"), Get(env, "GB_LOGIN"), Get(env, "GB_PASSWORD"))
  }

  /** The process environment, which the loader fills in place. */
  class Environment {
    var vars: map<string, string>

    constructor (initial: map<string, string>)
      ensures vars == initial
    {
      vars := initial;
    }

    /** `_load_dotenv`: a missing file changes nothing; otherwise each line
        is parsed (trimmed, skipped if blank, a comment, or without `=`,
        split at the first `=`) and its key set unless already present. */
    method LoadDotenv(file: Option<seq<string>>)
      modifies this
      ensures file.None? ==> vars == old(vars)
      ensures file.Some? ==> vars == Loaded(old(vars), file.value)
    {
      if file.None? {
        return;
      }
      var lines := file.value;
      var env := vars;
      var i := 0;
      while i < |lines|
        invariant 0 <= i <= |lines|
        invariant Loaded(old(vars), lines) == Loaded(env, lines[i..])
      {
        LoadedStep(env, lines, i);
        var parsed := ParseLine(lines[i]);
        if parsed.Some? && parsed.value.0 !in env {
          env := env[parsed.value.0 := parsed.value.1];
        }
        i := i + 1;
      }
      vars := env;
    }
  }
}
