/**
 The host's saved startup configuration: a text file of `KEY=value` lines, read
 with the environment as a fallback and written back as a whole.
 */
module StartupConfig {
  import opened Base
  import opened Text

  type Values = map<string, string>

  // The settings that the checks between settings are about.
  const RUN_DAEMON := "ASM_RUN_DAEMON"
  const RUN_RELAY := "ASM_RUN_RELAY"
  const RUN_UI := "ASM_RUN_UI"
  const RELAY_URL := "ASM_RELAY_URL"
  const RELAY_KEY := "ASM_RELAY_KEY"
  const RELAY_KEYS := "ASM_RELAY_KEYS"

  const KEYS: seq<string> := [
    "ASM_PROFILE",
    RUN_DAEMON, "ASM_BIND", "ASM_NODE_LABEL", "ASM_ENROLLMENT_TOKEN",
    RELAY_URL, RELAY_KEY, "ASM_RELAY_DOWNSTREAMS",
    RUN_RELAY, "ASM_RELAY_BIND", RELAY_KEYS,
    RUN_UI, "ASM_UI_HOST", "ASM_UI_PORT", "ASM_UI_ALLOWED_HOSTS", "ASM_UI_DAEMON", "ASM_UI_DAEMON_TOKEN"]

  const MAX_VALUE_LEN: nat := 4096

  predicate IsKeyChar(c: char) {
    'A' <= c <= 'Z' || c == '_'
  }

  /** All that the file format asks of its keys; everything but validation is stated for any such list. */
  predicate IsKeyList(keys: seq<string>) {
    forall i :: 0 <= i < |keys| ==> keys[i] != "" && forall j :: 0 <= j < |keys[i]| ==> IsKeyChar(keys[i][j])
  }

  lemma KeysAreAKeyList()
    ensures IsKeyList(KEYS)
  {
  }

  function Get(values: Values, key: string): string {
    if key in values then values[key] else ""
  }

  // ---- reading ----

  function TrimEndCr(s: string): string
  {
    if s == [] || s[|s| - 1] != '\r' then s else TrimEndCr(s[..|s| - 1])
  }

  /** `str::lines`; the carriage return it drops is dropped by every reader of a line here. */
  function Lines(content: string): seq<string> {
    var parts := Split(content, '\n');
    if parts[|parts| - 1] == "" then parts[..|parts| - 1] else parts
  }

  /** What one line sets: nothing, for a blank line, a comment, a line without `=` or an unknown key. */
  function ParseLine(keys: seq<string>, raw: string): Setting {
    var line := TrimEndCr(raw);
    if IsSkipped(line) then None else ParseSetting(keys, line)
  }

  predicate IsSkipped(line: string) {
    var trimmed := TrimStart(line);
    trimmed == "" || trimmed[0] == '#'
  }

  function ParseSetting(keys: seq<string>, line: string): Setting {
    var eq := Find(line, '=');
    if eq == |line| then None
    else
      var key := Trim(line[..eq]);
      if key in keys then Some((key, Trim(line[eq + 1..]))) else None
  }

  type Setting = Option<(string, string)>

  /** Settings in order, a later one of the same key replacing an earlier one. */
  function Applied(settings: seq<Setting>): Values {
    if settings == [] then map[]
    else
      var before := Applied(settings[..|settings| - 1]);
      match settings[|settings| - 1]
      case None => before
      case Some((key, value)) => before[key := value]
  }

  function Settings(keys: seq<string>, lines: seq<string>): (settings: seq<Setting>)
    ensures |settings| == |lines| && forall i :: 0 <= i < |lines| ==> settings[i] == ParseLine(keys, lines[i])
  {
    seq(|lines|, i requires 0 <= i < |lines| => ParseLine(keys, lines[i]))
  }

  function Parse(keys: seq<string>, content: string): Values {
    Applied(Settings(keys, Lines(content)))
  }

  method ParseText(keys: seq<string>, content: string) returns (out: Values)
    ensures out == Parse(keys, content)
  {
    out := map[];
    var lines := Lines(content);
    ghost var settings := Settings(keys, lines);
    for i := 0 to |lines|
      invariant out == Applied(settings[..i])
    {
      assert settings[..i + 1][..i] == settings[..i];
      match ParseLine(keys, lines[i]) {
        case None =>
        case Some((key, value)) => out := out[key := value];
      }
    }
    assert settings[..|lines|] == settings;
  }

  // ---- writing ----

  function KeyLine(values: Values, key: string): string {
    key + ['='] + Get(values, key)
  }

  function KeyLines(values: Values, keys: seq<string>): (lines: seq<string>)
    ensures |lines| == |keys| && forall i :: 0 <= i < |keys| ==> lines[i] == KeyLine(values, keys[i])
  {
    seq(|keys|, i requires 0 <= i < |keys| => KeyLine(values, keys[i]))
  }

  function Terminated(lines: seq<string>): string {
    if lines == [] then "" else lines[0] + ['\n'] + Terminated(lines[1..])
  }

  function Render(header: seq<string>, keys: seq<string>, values: Values): string {
    Terminated(header + KeyLines(values, keys))
  }

  /** The header is comment lines; nothing reads its wording. */
  predicate IsHeader(header: seq<string>) {
    forall i :: 0 <= i < |header| ==> '\n' !in header[i] && header[i] != "" && header[i][0] == '#'
  }

  lemma {:induction false} TerminatedAppend(lines: seq<string>, more: seq<string>)
    ensures Terminated(lines + more) == Terminated(lines) + Terminated(more)
  {
    if lines == [] {
      assert lines + more == more;
    } else {
      TerminatedAppend(lines[1..], more);
      assert (lines + more)[1..] == lines[1..] + more;
      Regroup(lines[0] + ['\n'], Terminated(lines[1..]), Terminated(more));
    }
  }

  lemma OneMoreLine(header: seq<string>, keys: seq<string>, values: Values, i: nat)
    requires i < |keys|
    ensures Terminated(header + KeyLines(values, keys[..i + 1]))
            == Terminated(header + KeyLines(values, keys[..i])) + (keys[i] + ['='] + Get(values, keys[i]) + ['\n'])
  {
    var lines, line := header + KeyLines(values, keys[..i]), KeyLine(values, keys[i]);
    TerminatedAppend(lines, [line]);
    assert Terminated([line]) == line + ['\n'] + Terminated([line][1..]);
    assert KeyLines(values, keys[..i + 1]) == KeyLines(values, keys[..i]) + [line];
    Regroup(header, KeyLines(values, keys[..i]), [line]);
  }

  method RenderText(header: seq<string>, keys: seq<string>, values: Values) returns (out: string)
    ensures out == Render(header, keys, values)
  {
    out := Terminated(header);
    assert header + KeyLines(values, []) == header;
    for i := 0 to |keys|
      invariant out == Terminated(header + KeyLines(values, keys[..i]))
    {
      OneMoreLine(header, keys, values, i);
      out := out + (keys[i] + ['='] + Get(values, keys[i]) + ['\n']);
    }
    assert keys[..|keys|] == keys;
  }

  // ---- round trip ----

  lemma {:induction false} SplitTerminated(lines: seq<string>)
    requires forall i :: 0 <= i < |lines| ==> '\n' !in lines[i]
    ensures Split(Terminated(lines), '\n') == lines + [""]
  {
    if lines == [] {
      assert Find("", '\n') == 0;
    } else {
      var first, rest := lines[0], lines[1..];
      SplitTerminated(rest);
      assert Terminated(lines) == first + ['\n'] + Terminated(rest);
      SplitFirst(first, '\n', Terminated(rest));
      assert lines + [""] == [first] + (rest + [""]);
    }
  }

  lemma {:induction false} TrimDropsCr(s: string)
    ensures TrimEnd(TrimEndCr(s)) == TrimEnd(s)
  {
    if s != "" && s[|s| - 1] == '\r' {
      TrimDropsCr(s[..|s| - 1]);
    }
  }

  lemma {:induction false} TrimEndCrAfter(a: string, s: string)
    requires a != "" && a[|a| - 1] != '\r'
    ensures TrimEndCr(a + s) == a + TrimEndCr(s)
  {
    if s == "" {
      assert a + s == a;
    } else {
      assert (a + s)[..|a + s| - 1] == a + s[..|s| - 1];
      if s[|s| - 1] == '\r' {
        TrimEndCrAfter(a, s[..|s| - 1]);
      }
    }
  }

  lemma KeyIsPlain(keys: seq<string>, key: string)
    requires IsKeyList(keys) && key in keys
    ensures key != "" && key[0] != '#' && key[|key| - 1] != '\r' && IsTrimmed(key)
    ensures '=' !in key && '\n' !in key
  {
    var i :| 0 <= i < |keys| && keys[i] == key;
    assert forall j :: 0 <= j < |key| ==> IsKeyChar(keys[i][j]);
  }

  lemma SettingParses(keys: seq<string>, key: string, value: string)
    requires IsKeyList(keys) && key in keys
    ensures ParseSetting(keys, key + ['='] + value) == Some((key, Trim(value)))
  {
    KeyIsPlain(keys, key);
    FindAt(key, '=', value);
    TrimMeans(key);
    var line := key + ['='] + value;
    assert line[..|key|] == key && line[|key| + 1..] == value;
  }

  lemma NotSkipped(line: string)
    requires line != "" && !IsSpace(line[0])
    ensures IsSkipped(line) <==> line[0] == '#'
  {
  }

  lemma KeyLineParses(keys: seq<string>, values: Values, key: string)
    requires IsKeyList(keys) && key in keys
    ensures ParseLine(keys, KeyLine(values, key)) == Some((key, Trim(Get(values, key))))
  {
    KeyIsPlain(keys, key);
    var value := TrimEndCr(Get(values, key));
    TrimEndCrAfter(key + ['='], Get(values, key));
    TrimDropsCr(Get(values, key));
    var line := key + ['='] + value;
    assert TrimEndCr(KeyLine(values, key)) == line;
    assert line[0] == key[0];
    NotSkipped(line);
    SettingParses(keys, key, value);
  }

  lemma {:induction false} TrimEndCrIsPrefix(s: string)
    ensures TrimEndCr(s) <= s
  {
    if s != "" && s[|s| - 1] == '\r' {
      TrimEndCrIsPrefix(s[..|s| - 1]);
    }
  }

  lemma TrimsPastCr(s: string)
    ensures Trim(TrimEndCr(s)) == Trim(s)
  {
    TrimDropsCr(s);
  }

  /** A line that names a key, with white space about it as it likes, and `=`, sets it to the rest, trimmed. */
  lemma LineSets(keys: seq<string>, a: string, key: string, b: string, rest: string)
    requires IsKeyList(keys) && key in keys && AllSpace(a) && AllSpace(b)
    ensures ParseLine(keys, a + key + b + ['='] + rest) == Some((key, Trim(rest)))
  {
    KeyIsPlain(keys, key);
    var name := a + key + b;
    assert '=' !in a && '=' !in b;
    TrimEndCrAfter(name + ['='], rest);
    var line := name + ['='] + TrimEndCr(rest);
    assert TrimEndCr(name + ['='] + rest) == line;
    TrimStartOver(a, key + b + ['='] + TrimEndCr(rest));
    assert line == a + (key + b + ['='] + TrimEndCr(rest));
    assert (key + b + ['='] + TrimEndCr(rest))[0] == key[0];
    FindAt(name, '=', TrimEndCr(rest));
    assert line[..|name|] == name && line[|name| + 1..] == TrimEndCr(rest);
    TrimPadded(a, key, b);
    TrimsPastCr(rest);
  }

  lemma CrComesLast(head: string, raw: string)
    requires head != "" && head[|head| - 1] == '=' && head <= raw
    ensures raw == head + raw[|head|..] && TrimEndCr(raw) == head + TrimEndCr(raw[|head|..])
  {
    assert raw == head + raw[|head|..];
    TrimEndCrAfter(head, raw[|head|..]);
  }

  /** What follows the first `=` of a line, with or without its carriage returns. */
  lemma AfterEquals(raw: string) returns (rest: string)
    requires Find(TrimEndCr(raw), '=') < |TrimEndCr(raw)|
    ensures var line := TrimEndCr(raw);
            var eq := Find(line, '=');
            raw == line[..eq] + ['='] + rest && line[eq + 1..] == TrimEndCr(rest)
  {
    var line := TrimEndCr(raw);
    var head := line[..Find(line, '=') + 1];
    TrimEndCrIsPrefix(raw);
    CrComesLast(head, raw);
    rest := raw[|head|..];
  }

  /** And no other line sets anything. */
  lemma OnlySuchLinesSet(keys: seq<string>, raw: string) returns (a: string, b: string, rest: string)
    requires ParseLine(keys, raw).Some?
    ensures var (key, value) := ParseLine(keys, raw).value;
            && key in keys && AllSpace(a) && AllSpace(b)
            && raw == a + key + b + ['='] + rest && value == Trim(rest)
  {
    var line := TrimEndCr(raw);
    var name := line[..Find(line, '=')];
    rest := AfterEquals(raw);
    TrimsPastCr(rest);
    a, b := TrimTakesSpace(name);
  }

  lemma {:induction false} AppliedMentions(settings: seq<Setting>, k: nat)
    requires k < |settings| && settings[k].Some?
    ensures settings[k].value.0 in Applied(settings)
  {
    if k < |settings| - 1 {
      AppliedMentions(settings[..|settings| - 1], k);
    }
  }

  lemma {:induction false} AppliedWithin(settings: seq<Setting>, bound: Values)
    requires forall i | 0 <= i < |settings| && settings[i].Some? ::
               settings[i].value.0 in bound && bound[settings[i].value.0] == settings[i].value.1
    ensures forall k :: k in Applied(settings) ==> k in bound && bound[k] == Applied(settings)[k]
  {
    if settings != [] {
      AppliedWithin(settings[..|settings| - 1], bound);
    }
  }

  /** The last line that sets a key decides its value, whatever else the file holds. */
  lemma {:induction false} LastSettingWins(settings: seq<Setting>, k: nat)
    requires k < |settings| && settings[k].Some?
    requires forall i | k < i < |settings| && settings[i].Some? :: settings[i].value.0 != settings[k].value.0
    ensures settings[k].value.0 in Applied(settings) && Applied(settings)[settings[k].value.0] == settings[k].value.1
  {
    if k < |settings| - 1 {
      LastSettingWins(settings[..|settings| - 1], k);
    }
  }

  lemma {:induction false} SomeSettingWins(settings: seq<Setting>, key: string) returns (k: nat)
    requires key in Applied(settings)
    ensures k < |settings| && settings[k] == Some((key, Applied(settings)[key]))
    ensures forall i | k < i < |settings| && settings[i].Some? :: settings[i].value.0 != key
  {
    var last := |settings| - 1;
    if settings[last].Some? && settings[last].value.0 == key {
      k := last;
    } else {
      k := SomeSettingWins(settings[..last], key);
    }
  }

  ghost function Cleaned(keys: seq<string>, values: Values): Values {
    map key | key in keys :: Trim(Get(values, key))
  }

  lemma CommentIsSkipped(keys: seq<string>, line: string)
    requires line != "" && line[0] == '#'
    ensures ParseLine(keys, line) == None
  {
    TrimEndCrAfter([line[0]], line[1..]);
    assert line == [line[0]] + line[1..];
    NotSkipped(TrimEndCr(line));
  }

  predicate AreLines(keys: seq<string>, values: Values) {
    forall key :: key in keys ==> '\n' !in Get(values, key)
  }

  lemma RenderLines(header: seq<string>, keys: seq<string>, values: Values)
    requires IsHeader(header) && IsKeyList(keys) && AreLines(keys, values)
    ensures Lines(Render(header, keys, values)) == header + KeyLines(values, keys)
  {
    var lines := header + KeyLines(values, keys);
    forall i | 0 <= i < |lines|
      ensures '\n' !in lines[i]
    {
      if i >= |header| {
        KeyIsPlain(keys, keys[i - |header|]);
      }
    }
    SplitTerminated(lines);
  }

  /** The file that `Render` writes, line by line. */
  lemma RenderedSettings(header: seq<string>, keys: seq<string>, values: Values) returns (settings: seq<Setting>)
    requires IsHeader(header) && IsKeyList(keys) && AreLines(keys, values)
    ensures Parse(keys, Render(header, keys, values)) == Applied(settings)
    ensures |settings| == |header| + |keys|
    ensures forall i :: 0 <= i < |header| ==> settings[i] == None
    ensures forall i :: 0 <= i < |keys| ==> settings[|header| + i] == Some((keys[i], Trim(Get(values, keys[i]))))
  {
    var lines := header + KeyLines(values, keys);
    RenderLines(header, keys, values);
    settings := Settings(keys, lines);
    forall i | 0 <= i < |header|
      ensures settings[i] == None
    {
      CommentIsSkipped(keys, lines[i]);
    }
    forall i | 0 <= i < |keys|
      ensures settings[|header| + i] == Some((keys[i], Trim(Get(values, keys[i]))))
    {
      assert lines[|header| + i] == KeyLine(values, keys[i]);
      KeyLineParses(keys, values, keys[i]);
    }
  }

  lemma AppliedExactly(settings: seq<Setting>, n: nat, keys: seq<string>, bound: Values)
    requires |settings| == n + |keys| && bound.Keys == (set k | k in keys)
    requires forall i :: 0 <= i < n ==> settings[i] == None
    requires forall i :: 0 <= i < |keys| ==> settings[n + i] == Some((keys[i], bound[keys[i]]))
    ensures Applied(settings) == bound
  {
    forall i | 0 <= i < |settings| && settings[i].Some?
      ensures settings[i].value.0 in bound && bound[settings[i].value.0] == settings[i].value.1
    {
      assert settings[n + (i - n)] == Some((keys[i - n], bound[keys[i - n]]));
    }
    AppliedWithin(settings, bound);
    forall key | key in keys
      ensures key in Applied(settings)
    {
      var i :| 0 <= i < |keys| && keys[i] == key;
      AppliedMentions(settings, n + i);
    }
  }

  /**
   Reading back what was written, for every set of newline-free values: each key
   of the file has its value without the surrounding white space, and a missing
   key is empty.
   */
  lemma ParseRender(header: seq<string>, keys: seq<string>, values: Values)
    requires IsHeader(header) && IsKeyList(keys) && AreLines(keys, values)
    ensures Parse(keys, Render(header, keys, values)) == Cleaned(keys, values)
  {
    var settings := RenderedSettings(header, keys, values);
    AppliedExactly(settings, |header|, keys, Cleaned(keys, values));
  }

  /** The round trip is exact for trimmed values, and only for those. */
  lemma ParseRenderIsExactIff(header: seq<string>, keys: seq<string>, values: Values)
    requires IsHeader(header) && IsKeyList(keys) && AreLines(keys, values)
    ensures Parse(keys, Render(header, keys, values)) == (map key | key in keys :: Get(values, key))
            <==> forall key :: key in keys ==> IsTrimmed(Get(values, key))
  {
    ParseRender(header, keys, values);
    forall key | key in keys
      ensures Cleaned(keys, values)[key] == Get(values, key) <==> IsTrimmed(Get(values, key))
    {
      TrimMeans(Get(values, key));
    }
    var exact := map key | key in keys :: Get(values, key);
    if Cleaned(keys, values) == exact {
      assert forall key :: key in keys ==> Cleaned(keys, values)[key] == exact[key];
    }
  }

  lemma ParsedIsTrimmed(keys: seq<string>, content: string, key: string)
    requires key in Parse(keys, content)
    ensures key in keys && IsTrimmed(Parse(keys, content)[key])
  {
    var k := SomeSettingWins(Settings(keys, Lines(content)), key);
    LineIsTrimmed(keys, Lines(content)[k]);
  }

  lemma LineIsTrimmed(keys: seq<string>, raw: string)
    requires ParseLine(keys, raw).Some?
    ensures ParseLine(keys, raw).value.0 in keys && IsTrimmed(ParseLine(keys, raw).value.1)
  {
    var line := TrimEndCr(raw);
    TrimMeans(line[Find(line, '=') + 1..]);
  }

  // ---- pending ----

  /** The keys, in file order, whose saved value is not the applied one; a missing key is empty. */
  function Pending(keys: seq<string>, saved: Values, applied: Values): seq<string> {
    if keys == [] then []
    else if Get(saved, keys[0]) != Get(applied, keys[0]) then [keys[0]] + Pending(keys[1..], saved, applied)
    else Pending(keys[1..], saved, applied)
  }

  lemma {:induction false} PendingMeans(keys: seq<string>, saved: Values, applied: Values, key: string)
    ensures key in Pending(keys, saved, applied) <==> key in keys && Get(saved, key) != Get(applied, key)
  {
    if keys != [] {
      PendingMeans(keys[1..], saved, applied, key);
    }
  }

  /** They are listed in the order of the keys. */
  lemma {:induction false} PendingIsInOrder(first: seq<string>, rest: seq<string>, saved: Values, applied: Values)
    ensures Pending(first + rest, saved, applied) == Pending(first, saved, applied) + Pending(rest, saved, applied)
  {
    if first == [] {
      assert first + rest == rest;
    } else {
      PendingIsInOrder(first[1..], rest, saved, applied);
      assert (first + rest)[1..] == first[1..] + rest && (first + rest)[0] == first[0];
      Regroup([first[0]], Pending(first[1..], saved, applied), Pending(rest, saved, applied));
    }
  }

  /** What is pending after a save is what changed, up to white space, since the scripts last applied the file. */
  lemma PendingIsWhatChanged(header: seq<string>, keys: seq<string>, saved: Values, applied: Values, key: string)
    requires IsHeader(header) && IsKeyList(keys)
    requires AreLines(keys, saved) && AreLines(keys, applied)
    ensures key in Pending(keys, Parse(keys, Render(header, keys, saved)), Parse(keys, Render(header, keys, applied)))
            <==> key in keys && Trim(Get(saved, key)) != Trim(Get(applied, key))
  {
    ParseRender(header, keys, saved);
    ParseRender(header, keys, applied);
    PendingMeans(keys, Parse(keys, Render(header, keys, saved)), Parse(keys, Render(header, keys, applied)), key);
  }

  // ---- validation ----

  predicate IsControl(c: char) {
    var u := c as int;
    u <= 0x1F || 0x7F <= u <= 0x9F
  }

  function Utf8Len(s: string): nat {
    if s == "" then 0
    else
      var u := s[0] as int;
      (if u < 0x80 then 1 else if u < 0x800 then 2 else if u < 0x1_0000 then 3 else 4) + Utf8Len(s[1..])
  }

  /** `format` stands for the per-key format checks, which an empty value always passes. */
  predicate ValueIsValid(format: (string, string) -> bool, key: string, value: string) {
    && (forall i :: 0 <= i < |value| ==> !IsControl(value[i]) && value[i] != '|')
    && Utf8Len(value) <= MAX_VALUE_LEN
    && (value == "" || format(key, value))
  }

  /** The daemon and the UI are on unless switched off, the relay off unless switched on. */
  predicate ComponentOn(values: Values, key: string) {
    if Get(values, key) == "" then key != RUN_RELAY else Get(values, key) == "1"
  }

  predicate EachIsValid(format: (string, string) -> bool, values: Values) {
    forall key :: key in values ==> ValueIsValid(format, key, values[key])
  }

  predicate IsValid(format: (string, string) -> bool, values: Values) {
    && EachIsValid(format, values)
    && (ComponentOn(values, RUN_DAEMON) || ComponentOn(values, RUN_RELAY) || ComponentOn(values, RUN_UI))
    && (ComponentOn(values, RUN_RELAY) ==> Get(values, RELAY_KEYS) != "")
    && (ComponentOn(values, RUN_DAEMON) && Get(values, RELAY_URL) != "" ==> Get(values, RELAY_KEY) != "")
  }

  /** Every setting the checks read is one a configuration can hold. */
  lemma CheckedSettingsAreKeys()
    ensures RUN_DAEMON in KEYS && RUN_RELAY in KEYS && RUN_UI in KEYS
    ensures RELAY_URL in KEYS && RELAY_KEY in KEYS && RELAY_KEYS in KEYS
  {
    assert KEYS[1] == RUN_DAEMON && KEYS[8] == RUN_RELAY && KEYS[11] == RUN_UI;
    assert KEYS[5] == RELAY_URL && KEYS[6] == RELAY_KEY && KEYS[10] == RELAY_KEYS;
  }

  /**
   With the relay switched on, a configuration whose values are each valid passes
   exactly if the relay has access keys and a daemon that registers to a relay has
   its key; so setting the keys, both of them, takes any such configuration there.
   */
  lemma RelayOnIsValidIff(format: (string, string) -> bool, values: Values)
    requires EachIsValid(format, values) && Get(values, RUN_RELAY) == "1"
    ensures IsValid(format, values)
            <==> Get(values, RELAY_KEYS) != ""
                 && (Get(values, RELAY_URL) == "" || Get(values, RELAY_KEY) != ""
                     || Get(values, RUN_DAEMON) !in {"", "1"})
    ensures forall keys, key |
              && keys != "" && ValueIsValid(format, RELAY_KEYS, keys)
              && key != "" && ValueIsValid(format, RELAY_KEY, key) ::
              IsValid(format, values[RELAY_KEYS := keys][RELAY_KEY := key])
  {
    assert RELAY_KEYS != RELAY_KEY && RUN_RELAY != RELAY_KEYS && RUN_RELAY != RELAY_KEY;
  }

  /** A relay on its own, and beside a daemon and a web UI with the defaults. */
  lemma RelayConfigurationsAreValid(values: Values)
    requires values == map[RUN_RELAY := "1", RELAY_KEYS := "k"]
    ensures IsValid((_, _) => true, values)
    ensures IsValid((_, _) => true, values[RUN_DAEMON := "0"][RUN_UI := "0"])
    ensures !IsValid((_, _) => true, values - {RELAY_KEYS})
  {
    assert |RELAY_KEYS| == 14 && |RUN_RELAY| == 13 && |RUN_DAEMON| == 14 && |RUN_UI| == 10 && |RELAY_URL| == 13;
    assert RELAY_KEYS[4] == 'R' && RELAY_KEYS[5] == 'E' && RUN_DAEMON[5] == 'U' && RUN_RELAY[5] == 'U'
           && RELAY_URL[5] == 'E';
  }

  /** No value that passes validation can break a line of the file. */
  lemma ValidValuesAreLines(format: (string, string) -> bool, keys: seq<string>, values: Values)
    requires IsValid(format, values)
    ensures AreLines(keys, values)
  {
    assert IsControl('\n');
    assert forall key :: key in values ==> ValueIsValid(format, key, values[key]);
  }

  /**
   Exactly which configurations pass: each value without control characters or `|`, no longer
   than the limit and empty or well formed; some component on, of which the daemon and the UI
   are unless set to something other than 1 and the relay is if set to 1; access keys for a
   relay, and a key for a daemon that registers to one.
   */
  lemma IsValidMeans(format: (string, string) -> bool, values: Values)
    ensures var daemon, relay, ui :=
              Get(values, RUN_DAEMON) in {"", "1"}, Get(values, RUN_RELAY) == "1", Get(values, RUN_UI) in {"", "1"};
            IsValid(format, values)
            <==>
            && (forall key :: key in values ==>
                  && Utf8Len(values[key]) <= 4096
                  && (forall c :: c in values[key] ==> !IsControl(c) && c != '|')
                  && (values[key] != "" ==> format(key, values[key])))
            && (daemon || relay || ui)
            && !(relay && Get(values, RELAY_KEYS) == "")
            && !(daemon && Get(values, RELAY_URL) != "" && Get(values, RELAY_KEY) == "")
  {
    assert |RUN_UI| == 10 && |RUN_RELAY| == 13 && |RUN_DAEMON| == 14;
    forall key | key in values
      ensures (forall c :: c in values[key] ==> !IsControl(c) && c != '|')
              <==> forall i :: 0 <= i < |values[key]| ==> !IsControl(values[key][i]) && values[key][i] != '|'
    {
    }
  }

  // ---- the store ----

  type Env = string -> Option<string>

  datatype Snapshot = Snapshot(present: bool, revision: Option<string>, values: Values, pending: Option<seq<string>>)

  datatype SaveResult = Saved(snapshot: Snapshot) | Conflict | UnknownKey(key: string) | Invalid | Io

  function ReadFile(keys: seq<string>, file: Option<string>): Option<Values> {
    if file.Some? then Some(Parse(keys, file.value)) else None
  }

  /** The value a reader sees: the file's, or else the environment's. */
  function Lookup(saved: Option<Values>, env: Env, key: string): Option<string> {
    if saved.Some? && key in saved.value then Some(saved.value[key]) else env(key)
  }

  ghost function Effective(keys: seq<string>, saved: Option<Values>, env: Env): Values {
    map key | key in keys && Lookup(saved, env, key).Some? :: Lookup(saved, env, key).value
  }

  ghost function Loaded(
    keys: seq<string>, file: Option<string>, applied: Option<string>, env: Env, revision: string -> string): Snapshot
  {
    Snapshot(
      file.Some?,
      if file.Some? then Some(revision(file.value)) else None,
      Effective(keys, ReadFile(keys, file), env),
      if file.Some? && applied.Some? then Some(Pending(keys, Parse(keys, file.value), Parse(keys, applied.value)))
      else None)
  }

  /** A patch is listed in the order its map is iterated. */
  function FirstUnknown(keys: seq<string>, patch: seq<(string, string)>): Option<string> {
    if patch == [] then None
    else if patch[0].0 !in keys then Some(patch[0].0)
    else FirstUnknown(keys, patch[1..])
  }

  /** The first key of a patch that is none of the configuration's, if there is one. */
  lemma {:induction false} FirstUnknownMeans(keys: seq<string>, patch: seq<(string, string)>)
    ensures FirstUnknown(keys, patch) == None <==> forall i :: 0 <= i < |patch| ==> patch[i].0 in keys
    ensures forall key :: FirstUnknown(keys, patch) == Some(key) ==>
                            exists i :: 0 <= i < |patch| && patch[i].0 == key && key !in keys
                                        && forall j :: 0 <= j < i ==> patch[j].0 in keys
  {
    if patch != [] && patch[0].0 in keys {
      FirstUnknownMeans(keys, patch[1..]);
      assert forall i :: 0 < i < |patch| ==> patch[i] == patch[1..][i - 1];
      forall key | FirstUnknown(keys, patch) == Some(key)
        ensures exists i :: 0 <= i < |patch| && patch[i].0 == key && key !in keys
                            && forall j :: 0 <= j < i ==> patch[j].0 in keys
      {
        var i :| 0 <= i < |patch| - 1 && patch[1..][i].0 == key && key !in keys
                 && forall j :: 0 <= j < i ==> patch[1..][j].0 in keys;
        assert patch[i + 1].0 == key && forall j :: 0 <= j < i + 1 ==> patch[j].0 in keys;
      }
    }
  }

  function Patched(values: Values, patch: seq<(string, string)>): Values
    decreases |patch|
  {
    if patch == [] then values
    else Patched(values[patch[0].0 := Trim(patch[0].1)], patch[1..])
  }

  class Store {
    var file: Option<string>
    var applied: Option<string>
    const env: Env
    const header: seq<string>
    const keys: seq<string>
    const format: (string, string) -> bool
    const revision: string -> string

    constructor (file: Option<string>, applied: Option<string>, env: Env, header: seq<string>, keys: seq<string>,
                 format: (string, string) -> bool, revision: string -> string)
      ensures this.file == file && this.applied == applied
      ensures this.env == env && this.header == header && this.keys == keys
              && this.format == format && this.revision == revision
    {
      this.file, this.applied, this.env := file, applied, env;
      this.header, this.keys, this.format, this.revision := header, keys, format, revision;
    }

    method EffectiveValues(saved: Option<Values>) returns (values: Values)
      ensures values == Effective(keys, saved, env)
    {
      values := map[];
      for i := 0 to |keys|
        invariant forall k :: k in values <==> k in keys[..i] && Lookup(saved, env, k).Some?
        invariant forall k :: k in values ==> Lookup(saved, env, k) == Some(values[k])
      {
        var key := keys[i];
        assert keys[..i + 1] == keys[..i] + [key];
        var value := if saved.Some? && key in saved.value then Some(saved.value[key]) else env(key);
        if value.Some? {
          values := values[key := value.value];
        }
      }
      assert keys[..|keys|] == keys;
    }

    /** What a snapshot says of one key: its value, the file's or else the environment's, and whether it is pending. */
    ghost predicate ShowsKey(snap: Snapshot, file: Option<string>, applied: Option<string>, key: string)
      reads this
    {
      && (if file.Some? && key in Parse(keys, file.value) then
            key in snap.values && snap.values[key] == Parse(keys, file.value)[key]
          else if env(key).Some? then key in snap.values && snap.values[key] == env(key).value
          else key !in snap.values)
      && (snap.pending.Some? && file.Some? && applied.Some? ==>
            (key in snap.pending.value
             <==> Get(Parse(keys, file.value), key) != Get(Parse(keys, applied.value), key)))
    }

    /** `readable`: whether reading the files succeeds (a missing file is no failure). */
    method Load(readable: bool) returns (r: Option<Snapshot>)
      ensures r == if readable then Some(Loaded(keys, file, applied, env, revision)) else None
      ensures r.Some? ==>
                && r.value.present == file.Some?
                && r.value.revision == (if file.Some? then Some(revision(file.value)) else None)
                && (r.value.pending.Some? <==> file.Some? && applied.Some?)
                && forall key :: key in keys ==> ShowsKey(r.value, file, applied, key)
    {
      if !readable { return None; }
      var saved := None;
      if file.Some? {
        var parsed := ParseText(keys, file.value);
        saved := Some(parsed);
      }
      var values := EffectiveValues(saved);
      var pending := None;
      if saved.Some? && applied.Some? {
        var last := ParseText(keys, applied.value);
        pending := Some(Pending(keys, saved.value, last));
        forall key | key in keys
          ensures key in pending.value <==> Get(saved.value, key) != Get(last, key)
        {
          PendingMeans(keys, saved.value, last, key);
        }
      }
      return Some(Snapshot(file.Some?, if file.Some? then Some(revision(file.value)) else None, values, pending));
    }

    /**
     `readable`, `writable`, `readableAfter`: whether the first read, the replacing of the file and
     the last read succeed.
     */
    method Save(expected: Option<string>, patch: seq<(string, string)>, readable: bool, writable: bool,
                readableAfter: bool)
      returns (r: SaveResult)
      modifies `file
      ensures var before := old(Loaded(keys, file, applied, env, revision));
              var values := Patched(before.values, patch);
              var stopped := if !readable then Some(Io)
                             else if before.revision != expected then Some(Conflict)
                             else if FirstUnknown(keys, patch).Some?
                               then Some(UnknownKey(FirstUnknown(keys, patch).value))
                             else if !IsValid(format, values) then Some(Invalid)
                             else if !writable then Some(Io)
                             else None;
              && (stopped.Some? ==> r == stopped.value && file == old(file))
              && (stopped.None? ==>
                    && file == Some(Render(header, keys, values))
                    && r == if readableAfter then Saved(Loaded(keys, file, applied, env, revision)) else Io)
    {
      var current := Load(readable);
      if current.None? { return Io; }
      if current.value.revision != expected { return Conflict; }
      var values := current.value.values;
      for i := 0 to |patch|
        invariant FirstUnknown(keys, patch) == FirstUnknown(keys, patch[i..])
        invariant Patched(values, patch[i..]) == Patched(current.value.values, patch)
      {
        var (key, value) := patch[i];
        assert patch[i..][1..] == patch[i + 1..];
        if key !in keys { return UnknownKey(key); }
        values := values[key := Trim(value)];
      }
      if !IsValid(format, values) { return Invalid; }
      if !writable { return Io; }
      var text := RenderText(header, keys, values);
      file := Some(text);
      var after := Load(readableAfter);
      if after.None? { return Io; }
      return Saved(after.value);
    }
  }

  // ---- what a save means ----

  /** The patch's value for a key: its last mention, trimmed. */
  function PatchedTo(patch: seq<(string, string)>, key: string): Option<string> {
    if patch == [] then None
    else if PatchedTo(patch[1..], key).Some? then PatchedTo(patch[1..], key)
    else if patch[0].0 == key then Some(Trim(patch[0].1))
    else None
  }

  lemma {:induction false} PatchedToMeans(patch: seq<(string, string)>, key: string, i: nat)
    requires i < |patch| && patch[i].0 == key && forall j :: i < j < |patch| ==> patch[j].0 != key
    ensures PatchedTo(patch, key) == Some(Trim(patch[i].1))
  {
    if i > 0 {
      PatchedToMeans(patch[1..], key, i - 1);
    } else {
      PatchedToNothing(patch[1..], key);
    }
  }

  lemma {:induction false} PatchedToNothing(patch: seq<(string, string)>, key: string)
    requires forall j :: 0 <= j < |patch| ==> patch[j].0 != key
    ensures PatchedTo(patch, key) == None
  {
    if patch != [] {
      PatchedToNothing(patch[1..], key);
    }
  }

  lemma {:induction false} PatchedGets(values: Values, patch: seq<(string, string)>, key: string)
    ensures Get(Patched(values, patch), key)
            == if PatchedTo(patch, key).Some? then PatchedTo(patch, key).value else Get(values, key)
    decreases |patch|
  {
    if patch != [] {
      PatchedGets(values[patch[0].0 := Trim(patch[0].1)], patch[1..], key);
    }
  }

  lemma {:induction false} PatchIsTrimmed(patch: seq<(string, string)>, key: string)
    requires PatchedTo(patch, key).Some?
    ensures IsTrimmed(PatchedTo(patch, key).value)
  {
    if PatchedTo(patch[1..], key).Some? {
      PatchIsTrimmed(patch[1..], key);
    } else {
      TrimMeans(patch[0].1);
    }
  }

  lemma PatchedCleans(before: Values, patch: seq<(string, string)>, key: string)
    ensures Trim(Get(Patched(before, patch), key))
            == if PatchedTo(patch, key).Some? then PatchedTo(patch, key).value else Trim(Get(before, key))
  {
    PatchedGets(before, patch, key);
    if PatchedTo(patch, key).Some? {
      PatchIsTrimmed(patch, key);
      TrimMeans(PatchedTo(patch, key).value);
    }
  }

  /** A file with a line for every key leaves nothing to the environment. */
  lemma FullFileHidesEnv(keys: seq<string>, values: Values, env: Env)
    requires values.Keys == (set k | k in keys)
    ensures Effective(keys, Some(values), env) == values
  {
  }

  /**
   After a successful save the environment no longer matters, whatever it becomes:
   every key is in the file, with the patch's value or else the value that was in
   effect, without surrounding white space.
   */
  lemma SaveFixesEveryKey(before: Values, patch: seq<(string, string)>, header: seq<string>, keys: seq<string>,
                          later: Env)
    requires IsHeader(header) && IsKeyList(keys) && AreLines(keys, Patched(before, patch))
    ensures var after := Effective(keys, ReadFile(keys, Some(Render(header, keys, Patched(before, patch)))), later);
            && after.Keys == (set k | k in keys)
            && forall key :: key in keys ==>
                 after[key] ==
                    if PatchedTo(patch, key).Some? then PatchedTo(patch, key).value else Trim(Get(before, key))
  {
    ParseRender(header, keys, Patched(before, patch));
    FullFileHidesEnv(keys, Cleaned(keys, Patched(before, patch)), later);
    forall key | key in keys
      ensures Cleaned(keys, Patched(before, patch))[key]
              == if PatchedTo(patch, key).Some? then PatchedTo(patch, key).value else Trim(Get(before, key))
    {
      PatchedCleans(before, patch, key);
    }
  }

  /** What the caller of a save expects to read back. */
  ghost predicate ShowsPatchOverPrior(keys: seq<string>, before: Values, patch: seq<(string, string)>, after: Values) {
    forall key | key in keys ::
      Get(after, key) == if PatchedTo(patch, key).Some? then PatchedTo(patch, key).value else Get(before, key)
  }

  /** A value of a loaded configuration is untrimmed exactly when it comes from the environment so. */
  lemma UntrimmedIsFromEnv(keys: seq<string>, file: Option<string>, env: Env, key: string)
    requires key in keys
    ensures IsTrimmed(Get(Effective(keys, ReadFile(keys, file), env), key))
            <==> (file.Some? && key in Parse(keys, file.value)) || env(key).None? || IsTrimmed(env(key).value)
  {
    if file.Some? && key in Parse(keys, file.value) {
      ParsedIsTrimmed(keys, file.value, key);
    }
  }

  /**
   The saved configuration is exactly the patch over what was in effect if and only
   if every value taken over from the environment is trimmed: a value read from the
   file always is, but one read from the environment is written as it stands.
   */
  lemma SaveShowsPatchOverPriorIff(file: Option<string>, env: Env, patch: seq<(string, string)>, header: seq<string>,
                                   keys: seq<string>, before: Values, later: Env)
    requires before == Effective(keys, ReadFile(keys, file), env)
    requires IsHeader(header) && IsKeyList(keys) && AreLines(keys, Patched(before, patch))
    ensures var after := Effective(keys, ReadFile(keys, Some(Render(header, keys, Patched(before, patch)))), later);
            ShowsPatchOverPrior(keys, before, patch, after)
            <==> forall key | key in keys && PatchedTo(patch, key).None? && env(key).Some? ::
                   (file.Some? && key in Parse(keys, file.value)) || IsTrimmed(env(key).value)
  {
    SaveFixesEveryKey(before, patch, header, keys, later);
    forall key | key in keys
      ensures Trim(Get(before, key)) == Get(before, key)
              <==> (file.Some? && key in Parse(keys, file.value)) || env(key).None? || IsTrimmed(env(key).value)
    {
      TrimMeans(Get(before, key));
      UntrimmedIsFromEnv(keys, file, env, key);
    }
  }

  lemma SameValuesSameText(header: seq<string>, keys: seq<string>, a: Values, b: Values)
    requires forall key :: key in keys ==> Get(a, key) == Get(b, key)
    ensures Render(header, keys, a) == Render(header, keys, b)
  {
    assert KeyLines(a, keys) == KeyLines(b, keys);
  }

  /** Saving nothing over a file this program wrote leaves that file as it was, whatever the environment. */
  lemma SaveNothingIsStable(header: seq<string>, keys: seq<string>, values: Values, env: Env)
    requires IsHeader(header) && IsKeyList(keys) && AreLines(keys, values)
    requires forall key :: key in keys ==> IsTrimmed(Get(values, key))
    ensures var text := Render(header, keys, values);
            Render(header, keys, Patched(Effective(keys, ReadFile(keys, Some(text)), env), [])) == text
  {
    var again := Effective(keys, ReadFile(keys, Some(Render(header, keys, values))), env);
    SaveFixesEveryKey(values, [], header, keys, env);
    forall key | key in keys
      ensures Get(again, key) == Get(values, key)
    {
      TrimMeans(Get(values, key));
    }
    SameValuesSameText(header, keys, again, values);
  }
}
