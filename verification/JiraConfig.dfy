// The synthetic acli config and the builtin line parser that reads such a config back
// (example_config/jira-auth-hook.py).
module JiraConfig {
  import opened Options

  type Profile = map<string, string>

  datatype State = State(
    currentProfile: Option<string>, profiles: seq<Profile>, hasCurrent: bool, inProfiles: bool, profilesIndent: nat)

  const START := State(None, [], false, false, 0)

  // ----- Python's strings -----

  // Where str.splitlines splits.
  predicate IsBreak(c: char) {
    '\n' <= c <= '\r' || '\U{1c}' <= c <= '\U{1e}' || c == '\U{85}' || c == '\U{2028}' || c == '\U{2029}'
  }

  predicate IsSpace(c: char) {
    || IsBreak(c) || c == '\t' || c == '\U{1f}' || c == ' ' || c == '\U{a0}' || c == '\U{1680}'
    || '\U{2000}' <= c <= '\U{200a}' || c == '\U{202f}' || c == '\U{205f}' || c == '\U{3000}'
  }

  function LStrip(text: string): string {
    if text != "" && IsSpace(text[0]) then LStrip(text[1..]) else text
  }

  function RStrip(text: string): string {
    if text != "" && IsSpace(text[|text| - 1]) then RStrip(text[..|text| - 1]) else text
  }

  function Strip(text: string): string {
    RStrip(LStrip(text))
  }

  function FirstBreak(text: string): (k: nat)
    ensures k <= |text| && (forall i :: 0 <= i < k ==> !IsBreak(text[i])) && (k < |text| ==> IsBreak(text[k]))
  {
    if text == "" || IsBreak(text[0]) then 0 else 1 + FirstBreak(text[1..])
  }

  function SplitLines(text: string): seq<string>
    decreases |text|
  {
    if text == "" then []
    else
      var k := FirstBreak(text);
      if k == |text| then [text]
      else if text[k] == '\r' && k + 1 < |text| && text[k + 1] == '\n' then [text[..k]] + SplitLines(text[k + 2..])
      else [text[..k]] + SplitLines(text[k + 1..])
  }

  function IndexOf(text: string, c: char): (k: nat)
    requires c in text
    ensures k < |text| && text[k] == c && c !in text[..k]
  {
    if text[0] == c then 0 else 1 + IndexOf(text[1..], c)
  }

  predicate Quoted(text: string) {
    |text| >= 2 && text[0] == text[|text| - 1] && (text[0] == '"' || text[0] == '\'')
  }

  function ParseScalar(text: string): string {
    var value := Strip(text);
    if Quoted(value) then value[1..|value| - 1] else value
  }

  // The number of leading spaces and tabs.
  function Indent(text: string): nat {
    if text != "" && (text[0] == ' ' || text[0] == '\t') then 1 + Indent(text[1..]) else 0
  }

  // ----- The line parser -----

  predicate IsItem(stripped: string) {
    stripped == "-" || "- " <= stripped
  }

  function Assign(profile: Profile, pair: string): Profile {
    if ':' !in pair then profile
    else
      var k := IndexOf(pair, ':');
      profile[Strip(pair[..k]) := ParseScalar(pair[k + 1..])]
  }

  function ProfilesLine(s: State, stripped: string): State {
    if IsItem(stripped) then
      var rest := if "- " <= stripped then Strip(stripped[2..]) else "";
      s.(profiles := s.profiles + [Assign(map[], rest)], hasCurrent := true)
    else if s.hasCurrent && s.profiles != [] then
      var last := |s.profiles| - 1;
      s.(profiles := s.profiles[last := Assign(s.profiles[last], stripped)])
    else s
  }

  function TopLevelLine(s: State, stripped: string, indent: nat): State {
    var left := s.(inProfiles := false, hasCurrent := false);
    if "current_profile:" <= stripped then
      assert stripped[15] == ':';
      left.(currentProfile := Some(ParseScalar(stripped[IndexOf(stripped, ':') + 1..])))
    else if "profiles:" <= stripped then left.(inProfiles := true, profilesIndent := indent)
    else left
  }

  function ParseLine(s: State, line: string): State {
    var stripped := Strip(line);
    if stripped == "" || stripped[0] == '#' then s
    else if s.inProfiles && (IsItem(stripped) || Indent(line) > s.profilesIndent) then ProfilesLine(s, stripped)
    else TopLevelLine(s, stripped, Indent(line))
  }

  function ParseLines(s: State, lines: seq<string>): State
    decreases |lines|
  {
    if lines == [] then s else ParseLines(ParseLine(s, lines[0]), lines[1..])
  }

  // The parser's state dictionary. Its "current" profile is always the last one appended.
  class Parser {
    var currentProfile: Option<string>
    var profiles: seq<Profile>
    var hasCurrent: bool
    var inProfiles: bool
    var profilesIndent: nat

    ghost function View(): State
      reads this
    {
      State(currentProfile, profiles, hasCurrent, inProfiles, profilesIndent)
    }

    constructor ()
      ensures View() == START
    {
      currentProfile, profiles, hasCurrent, inProfiles, profilesIndent := None, [], false, false, 0;
    }

    method ConsumeProfilesLine(stripped: string)
      modifies `profiles, `hasCurrent
      ensures View() == ProfilesLine(old(View()), stripped)
    {
      if IsItem(stripped) {
        var rest := "";
        if "- " <= stripped { rest := Strip(stripped[2..]); }
        profiles, hasCurrent := profiles + [Assign(map[], rest)], true;
      } else if hasCurrent && profiles != [] {
        var last := |profiles| - 1;
        profiles := profiles[last := Assign(profiles[last], stripped)];
      }
    }

    method ConsumeTopLevelLine(stripped: string, indent: nat)
      modifies `currentProfile, `hasCurrent, `inProfiles, `profilesIndent
      ensures View() == TopLevelLine(old(View()), stripped, indent)
    {
      inProfiles, hasCurrent := false, false;
      if "current_profile:" <= stripped {
        assert stripped[15] == ':';
        currentProfile := Some(ParseScalar(stripped[IndexOf(stripped, ':') + 1..]));
      } else if "profiles:" <= stripped {
        inProfiles, profilesIndent := true, indent;
      }
    }

    method Consume(line: string)
      modifies this
      ensures View() == ParseLine(old(View()), line)
    {
      var stripped := Strip(line);
      if stripped == "" || stripped[0] == '#' { return; }
      var indent := Indent(line);
      if inProfiles && (IsItem(stripped) || indent > profilesIndent) {
        ConsumeProfilesLine(stripped);
      } else {
        ConsumeTopLevelLine(stripped, indent);
      }
    }
  }

  method ParseText(text: string) returns (currentProfile: Option<string>, profiles: seq<Profile>)
    ensures currentProfile == ParseLines(START, SplitLines(text)).currentProfile
    ensures profiles == ParseLines(START, SplitLines(text)).profiles
  {
    var parser := new Parser();
    var lines := SplitLines(text);
    for i := 0 to |lines|
      invariant fresh(parser) && ParseLines(parser.View(), lines[i..]) == ParseLines(START, lines)
    {
      assert lines[i..][0] == lines[i] && lines[i..][1..] == lines[i + 1..];
      parser.Consume(lines[i]);
    }
    return parser.currentProfile, parser.profiles;
  }

  // ----- Matching -----

  datatype Loaded = Found(current: string, profile: Profile) | CurrentMissing | NotFound(missing: string)

  function GetOr(profile: Profile, key: string): string {
    if key in profile then profile[key] else ""
  }

  function KeyOf(profile: Profile): string {
    GetOr(profile, "cloud_id") + ":" + GetOr(profile, "account_id")
  }

  function Match(current: string, profiles: seq<Profile>): Loaded {
    if profiles == [] then NotFound(current)
    else if KeyOf(profiles[0]) == current then Found(current, profiles[0])
    else Match(current, profiles[1..])
  }

  // load_host_config with the builtin parser
  function Load(text: string): Loaded {
    var s := ParseLines(START, SplitLines(text));
    if s.currentProfile.None? || s.currentProfile.value == "" then CurrentMissing
    else Match(s.currentProfile.value, s.profiles)
  }

  // ----- The text written -----

  function Unlines(lines: seq<string>): string {
    if lines == [] then "" else lines[0] + "\n" + Unlines(lines[1..])
  }

  function Shown(pad: string, key: string, value: string): string {
    pad + key + ": " + value
  }

  function ConfigLines(current: string, site: string, cloudId: string, accountId: string, email: string, token: string):
    seq<string>
  {
    [Shown("", "version", "1"),
     Shown("", "current_profile", current),
     "profiles:",
     Shown("    - ", "site", site),
     Shown("      ", "cloud_id", cloudId),
     Shown("      ", "account_id", accountId),
     Shown("      ", "email", email),
     Shown("      ", "auth_type", "api_token"),
     Shown("      ", "token", token)]
  }

  function Written(site: string, cloudId: string, accountId: string, email: string, token: string): Profile {
    map["site" := site, "cloud_id" := cloudId, "account_id" := accountId, "email" := email,
        "auth_type" := "api_token", "token" := token]
  }

  // ----- The round trip -----

  // No line breaks, no outer whitespace, no enclosing quotes.
  predicate Clean(value: string) {
    && (forall i :: 0 <= i < |value| ==> !IsBreak(value[i]))
    && (value != "" ==> !IsSpace(value[0]) && !IsSpace(value[|value| - 1]))
    && !Quoted(value)
  }

  predicate AllSpace(text: string) {
    forall i :: 0 <= i < |text| ==> IsSpace(text[i])
  }

  predicate Trimmed(text: string) {
    text != "" ==> !IsSpace(text[0]) && !IsSpace(text[|text| - 1])
  }

  lemma {:induction false} LStripPad(pad: string, text: string)
    requires AllSpace(pad) && (text != "" ==> !IsSpace(text[0]))
    ensures LStrip(pad + text) == text
  {
    if pad == "" {
      assert pad + text == text;
    } else {
      assert (pad + text)[1..] == pad[1..] + text;
      LStripPad(pad[1..], text);
    }
  }

  lemma {:induction false} RStripPad(text: string, pad: string)
    requires AllSpace(pad) && (text != "" ==> !IsSpace(text[|text| - 1]))
    ensures RStrip(text + pad) == text
  {
    if pad == "" {
      assert text + pad == text;
    } else {
      assert (text + pad)[..|text + pad| - 1] == text + pad[..|pad| - 1];
      RStripPad(text, pad[..|pad| - 1]);
    }
  }

  lemma StripPads(before: string, core: string, after: string)
    requires AllSpace(before) && AllSpace(after) && Trimmed(core) && core != ""
    ensures Strip(before + core + after) == core
  {
    assert before + core + after == before + (core + after);
    assert (core + after)[0] == core[0];
    LStripPad(before, core + after);
    RStripPad(core, after);
  }

  lemma ScalarIsRead(value: string)
    requires Clean(value)
    ensures ParseScalar(" " + value) == value && ParseScalar(value) == value
  {
    if value == "" {
      RStripPad("", " ");
      LStripPad(" ", "");
    } else {
      StripPads(" ", value, "");
      StripPads("", value, "");
      assert " " + value + "" == " " + value && "" + value + "" == value;
    }
  }

  lemma {:induction false} StripShrinks(text: string)
    ensures |LStrip(text)| <= |text| && |RStrip(text)| <= |text|
    ensures text != "" && IsSpace(text[0]) ==> |LStrip(text)| < |text|
    ensures text != "" && IsSpace(text[|text| - 1]) ==> |RStrip(text)| < |text|
    ensures LStrip(text) != "" ==> LStrip(text)[|LStrip(text)| - 1] == text[|text| - 1]
    decreases |text|
  {
    if text != "" {
      StripShrinks(text[1..]);
      StripShrinks(text[..|text| - 1]);
    }
  }

  // Outer whitespace and enclosing quotes are exactly what a written value loses.
  lemma ScalarIsReadExactly(value: string)
    requires OneLined(value)
    ensures ParseScalar(" " + value) == value <==> Clean(value)
  {
    if Clean(value) {
      ScalarIsRead(value);
    } else {
      assert (" " + value)[1..] == value && LStrip(" " + value) == LStrip(value);
      StripShrinks(value);
      StripShrinks(LStrip(value));
      if Trimmed(value) {
        StripPads("", value, "");
        assert "" + value + "" == value;
      } else {
        assert |Strip(value)| < |value|;
      }
    }
  }

  // Quotes keep any value, spaces and quotes of its own included.
  lemma QuotedIsReadExactly(value: string, before: string, after: string, quote: char)
    requires (quote == '"' || quote == '\'') && AllSpace(before) && AllSpace(after)
    ensures ParseScalar(before + ([quote] + value + [quote]) + after) == value
  {
    StripPads(before, [quote] + value + [quote], after);
  }

  // A key as the parser likes it.
  predicate KeyOk(key: string) {
    && key != "" && key[0] != '-' && key[0] != '#'
    && forall i :: 0 <= i < |key| ==> key[i] != ':' && !IsSpace(key[i])
  }

  // How a written pair looks once its line has been stripped.
  function Stripped(key: string, value: string): string {
    if value == "" then key + ":" else key + ": " + value
  }

  lemma PairIsStripped(pad: string, head: string, key: string, value: string)
    requires AllSpace(pad) && Clean(value) && KeyOk(key) && (head == "" || head == "- ")
    ensures Strip(pad + head + key + ": " + value) == head + Stripped(key, value)
  {
    var core := head + Stripped(key, value);
    CoreIsTrimmed(head, key, value);
    var after := if value == "" then " " else "";
    StripPads(pad, core, after);
    CoreInLine(pad, head, key, value);
  }

  lemma CoreIsTrimmed(head: string, key: string, value: string)
    requires Clean(value) && KeyOk(key) && (head == "" || head == "- ")
    ensures var core := head + Stripped(key, value); core != "" && Trimmed(core)
  {}

  lemma CoreInLine(pad: string, head: string, key: string, value: string)
    ensures pad + head + key + ": " + value
         == pad + (head + Stripped(key, value)) + if value == "" then " " else ""
  {}

  lemma ColonAt(key: string, rest: string)
    requires KeyOk(key)
    ensures ':' in key + ":" + rest && IndexOf(key + ":" + rest, ':') == |key|
  {
    var text := key + ":" + rest;
    assert text[|key|] == ':';
    assert forall i :: 0 <= i < |key| ==> text[i] == key[i];
    forall j | |key| < j <= |text|
      ensures ':' in text[..j]
    {
      assert text[..j][|key|] == ':';
    }
  }

  lemma PairInTwo(key: string, value: string)
    requires KeyOk(key) && Clean(value)
    ensures var stripped := Stripped(key, value);
      ':' in stripped && IndexOf(stripped, ':') == |key| && stripped[..|key|] == key
      && stripped[|key| + 1..] == if value == "" then "" else " " + value
  {
    var rest := if value == "" then "" else " " + value;
    assert Stripped(key, value) == key + ":" + rest;
    ColonAt(key, rest);
  }

  lemma ValueOf(key: string, value: string)
    requires KeyOk(key) && Clean(value)
    ensures var stripped := Stripped(key, value);
      ':' in stripped && IndexOf(stripped, ':') == |key| && ParseScalar(stripped[|key| + 1..]) == value
  {
    PairInTwo(key, value);
    RestIsRead(value);
  }

  lemma RestIsRead(value: string)
    requires Clean(value)
    ensures ParseScalar(if value == "" then "" else " " + value) == value
  {
    ScalarIsRead(value);
  }

  lemma KeyIsStripped(key: string)
    requires KeyOk(key)
    ensures Strip(key) == key
  {
    StripPads("", key, "");
    assert "" + key + "" == key;
  }

  lemma KeyInPair(key: string, value: string)
    requires KeyOk(key) && Clean(value)
    ensures |key| <= |Stripped(key, value)| && Strip(Stripped(key, value)[..|key|]) == key
  {
    PairInTwo(key, value);
    KeyIsStripped(key);
  }

  lemma PairIsAssigned(profile: Profile, key: string, value: string)
    requires KeyOk(key) && Clean(value)
    ensures Assign(profile, Stripped(key, value)) == profile[key := value]
  {
    ValueOf(key, value);
    KeyInPair(key, value);
    AssignAt(profile, Stripped(key, value), |key|, key, value);
  }

  lemma AssignAt(profile: Profile, pair: string, k: nat, key: string, value: string)
    requires ':' in pair && IndexOf(pair, ':') == k && Strip(pair[..k]) == key && ParseScalar(pair[k + 1..]) == value
    ensures Assign(profile, pair) == profile[key := value]
  {}

  predicate Blanks(pad: string) {
    forall i :: 0 <= i < |pad| ==> pad[i] == ' ' || pad[i] == '\t'
  }

  lemma {:induction false} IndentOfPad(pad: string, text: string)
    requires Blanks(pad) && text != "" && !IsSpace(text[0])
    ensures Indent(pad + text) == |pad|
  {
    if pad == "" {
      assert pad + text == text;
    } else {
      assert (pad + text)[1..] == pad[1..] + text;
      IndentOfPad(pad[1..], text);
    }
  }

  lemma ItemIsConsumed(s: State, line: string, pair: string)
    requires s.inProfiles && Strip(line) == "- " + pair && Strip(pair) == pair
    ensures ParseLine(s, line) == s.(profiles := s.profiles + [Assign(map[], pair)], hasCurrent := true)
  {}

  // An item line starts a profile with its pair.
  lemma ItemLine(s: State, pad: string, key: string, value: string)
    requires s.inProfiles && AllSpace(pad) && KeyOk(key) && Clean(value)
    ensures ParseLine(s, pad + "- " + key + ": " + value)
         == s.(profiles := s.profiles + [map[key := value]], hasCurrent := true)
  {
    var pair := Stripped(key, value);
    PairIsStripped(pad, "- ", key, value);
    PairIsTrimmed(key, value);
    StripPads("", pair, "");
    assert "" + pair + "" == pair;
    ItemIsConsumed(s, pad + "- " + key + ": " + value, pair);
    PairIsAssigned(map[], key, value);
    assert map[][key := value] == map[key := value];
  }

  lemma PairIsTrimmed(key: string, value: string)
    requires KeyOk(key) && Clean(value)
    ensures Trimmed(Stripped(key, value)) && Stripped(key, value)[0] == key[0]
  {}

  lemma FieldIsConsumed(s: State, line: string, pair: string)
    requires s.inProfiles && s.hasCurrent && s.profiles != [] && Strip(line) == pair
    requires pair != "" && pair[0] != '#' && pair[0] != '-' && Indent(line) > s.profilesIndent
    ensures var last := |s.profiles| - 1;
      ParseLine(s, line) == s.(profiles := s.profiles[last := Assign(s.profiles[last], pair)])
  {}

  // An indented pair goes to the profile begun last.
  lemma FieldLine(s: State, pad: string, key: string, value: string)
    requires s.inProfiles && s.hasCurrent && s.profiles != []
    requires Blanks(pad) && |pad| > s.profilesIndent
    requires KeyOk(key) && Clean(value)
    ensures var last := |s.profiles| - 1;
      ParseLine(s, pad + key + ": " + value) == s.(profiles := s.profiles[last := s.profiles[last][key := value]])
  {
    var pair := Stripped(key, value);
    var line := pad + key + ": " + value;
    PairIsStripped(pad, "", key, value);
    assert pad + "" + key + ": " + value == line && "" + pair == pair;
    PairIsTrimmed(key, value);
    IndentOfPad(pad, key + ": " + value);
    assert pad + (key + ": " + value) == line;
    FieldIsConsumed(s, line, pair);
    PairIsAssigned(s.profiles[|s.profiles| - 1], key, value);
  }

  lemma TopLine(s: State, key: string, value: string)
    requires KeyOk(key) && Clean(value)
    ensures ParseLine(s, key + ": " + value) == TopLevelLine(s, Stripped(key, value), 0)
  {
    var pair := Stripped(key, value);
    PairIsStripped("", "", key, value);
    assert "" + "" + key + ": " + value == key + ": " + value && "" + pair == pair;
    PairIsTrimmed(key, value);
    IndentOfPad("", key + ": " + value);
    assert "" + (key + ": " + value) == key + ": " + value;
    TopIsConsumed(s, key + ": " + value, pair);
  }

  lemma TopIsConsumed(s: State, line: string, pair: string)
    requires Strip(line) == pair && pair != "" && pair[0] != '#' && pair[0] != '-' && Indent(line) == 0
    ensures ParseLine(s, line) == TopLevelLine(s, pair, 0)
  {}

  lemma TopPair(s: State, key: string, value: string)
    requires KeyOk(key) && Clean(value) && key + ":" == "current_profile:"
    ensures TopLevelLine(s, Stripped(key, value), 0)
         == s.(inProfiles := false, hasCurrent := false, currentProfile := Some(value))
  {
    ValueOf(key, value);
    var stripped := Stripped(key, value);
    assert stripped[..|key| + 1] == key + ":";
    TopKey(s, stripped, value);
  }

  lemma TopKey(s: State, stripped: string, value: string)
    requires "current_profile:" <= stripped && ':' in stripped
    requires ParseScalar(stripped[IndexOf(stripped, ':') + 1..]) == value
    ensures TopLevelLine(s, stripped, 0)
         == s.(inProfiles := false, hasCurrent := false, currentProfile := Some(value))
  {}

  lemma CurrentLine(s: State, value: string)
    requires Clean(value)
    ensures ParseLine(s, "current_profile" + ": " + value)
         == s.(currentProfile := Some(value), hasCurrent := false, inProfiles := false)
  {
    KnownTopKeys();
    TopLine(s, "current_profile", value);
    TopPair(s, "current_profile", value);
  }

  predicate OneLined(text: string) {
    forall i :: 0 <= i < |text| ==> !IsBreak(text[i])
  }

  lemma {:induction false} BreakAfter(line: string, rest: string)
    requires OneLined(line)
    ensures FirstBreak(line + "\n" + rest) == |line|
  {
    var text := line + "\n" + rest;
    if line != "" {
      assert text[0] == line[0] && text[1..] == line[1..] + "\n" + rest;
      BreakAfter(line[1..], rest);
    }
  }

  lemma LineIsSplit(line: string, rest: string)
    requires OneLined(line)
    ensures SplitLines(line + "\n" + rest) == [line] + SplitLines(rest)
  {
    var text := line + "\n" + rest;
    BreakAfter(line, rest);
    assert text[|line|] == '\n' && text[..|line|] == line && text[|line| + 1..] == rest;
  }

  lemma {:induction false} LinesComeBack(lines: seq<string>)
    requires forall k :: 0 <= k < |lines| ==> OneLined(lines[k])
    ensures SplitLines(Unlines(lines)) == lines
  {
    if lines != [] {
      LinesComeBack(lines[1..]);
      LineIsSplit(lines[0], Unlines(lines[1..]));
    }
  }

  lemma KnownTopKeys()
    ensures KeyOk("version") && KeyOk("current_profile") && Clean("1")
  {}

  lemma KnownIds()
    ensures KeyOk("site") && KeyOk("cloud_id") && KeyOk("account_id")
  {}

  lemma KnownOthers()
    ensures KeyOk("email") && KeyOk("auth_type") && KeyOk("token") && Clean("api_token")
  {}

  lemma KnownKeys()
    ensures KeyOk("version") && KeyOk("current_profile") && KeyOk("site") && KeyOk("cloud_id")
    ensures KeyOk("account_id") && KeyOk("email") && KeyOk("auth_type") && KeyOk("token")
    ensures Clean("1") && Clean("api_token")
  {
    KnownTopKeys();
    KnownIds();
    KnownOthers();
  }

  lemma VersionLine()
    ensures ParseLine(START, Shown("", "version", "1")) == START
  {
    KnownKeys();
    TopLine(START, "version", "1");
    assert Shown("", "version", "1") == "version: 1" == "version" + ": " + "1" == Stripped("version", "1");
    assert "version: 1"[0] != "current_profile:"[0] && "version: 1"[0] != "profiles:"[0];
  }

  lemma ProfilesHeading(s: State)
    requires !s.inProfiles
    ensures ParseLine(s, "profiles:") == s.(inProfiles := true, hasCurrent := false, profilesIndent := 0)
  {}

  lemma TopIsRead(s: State, current: string)
    requires Clean(current)
    ensures ParseLine(s, Shown("", "current_profile", current))
         == s.(currentProfile := Some(current), hasCurrent := false, inProfiles := false)
  {
    CurrentLine(s, current);
    ShownPlain("current_profile", current);
  }

  lemma ShownPlain(key: string, value: string)
    ensures Shown("", key, value) == key + ": " + value
  {}

  // ----- Configs with any profiles -----

  // A profile as written: its pairs in order, a later pair of a key replacing an earlier one.
  type Pairs = seq<(string, string)>

  predicate PairsOk(pairs: Pairs) {
    pairs != [] && forall i :: 0 <= i < |pairs| ==> KeyOk(pairs[i].0) && Clean(pairs[i].1)
  }

  function WithPairs(profile: Profile, pairs: Pairs): Profile
    decreases |pairs|
  {
    if pairs == [] then profile else WithPairs(profile[pairs[0].0 := pairs[0].1], pairs[1..])
  }

  function ProfilesOf(list: seq<Pairs>): seq<Profile> {
    if list == [] then [] else [WithPairs(map[], list[0])] + ProfilesOf(list[1..])
  }

  function FieldLines(pad: string, pairs: Pairs): seq<string> {
    if pairs == [] then [] else [Shown(pad, pairs[0].0, pairs[0].1)] + FieldLines(pad, pairs[1..])
  }

  function ItemLines(itemPad: string, pad: string, pairs: Pairs): seq<string> {
    if pairs == [] then []
    else [Shown(itemPad + "- ", pairs[0].0, pairs[0].1)] + FieldLines(pad, pairs[1..])
  }

  function ListLines(itemPad: string, pad: string, list: seq<Pairs>): seq<string> {
    if list == [] then [] else ItemLines(itemPad, pad, list[0]) + ListLines(itemPad, pad, list[1..])
  }

  lemma {:induction false} LinesConcat(s: State, first: seq<string>, second: seq<string>)
    ensures ParseLines(s, first + second) == ParseLines(ParseLines(s, first), second)
    decreases |first|
  {
    if first == [] {
      assert first + second == second;
    } else {
      assert (first + second)[1..] == first[1..] + second;
      LinesConcat(ParseLine(s, first[0]), first[1..], second);
    }
  }

  lemma {:induction false} FieldsAreRead(s: State, pad: string, pairs: Pairs)
    requires s.inProfiles && s.hasCurrent && s.profiles != [] && Blanks(pad) && |pad| > s.profilesIndent
    requires pairs == [] || PairsOk(pairs)
    ensures var last := |s.profiles| - 1;
      ParseLines(s, FieldLines(pad, pairs))
      == s.(profiles := s.profiles[last := WithPairs(s.profiles[last], pairs)])
    decreases |pairs|
  {
    var last := |s.profiles| - 1;
    if pairs == [] {
      assert s.profiles[last := s.profiles[last]] == s.profiles;
    } else {
      var key, value := pairs[0].0, pairs[0].1;
      FieldLine(s, pad, key, value);
      assert Shown(pad, key, value) == pad + key + ": " + value;
      var t := ParseLine(s, Shown(pad, key, value));
      assert forall i :: 0 <= i < |pairs[1..]| ==> pairs[1..][i] == pairs[i + 1];
      FieldsAreRead(t, pad, pairs[1..]);
      assert t.profiles[last := WithPairs(t.profiles[last], pairs[1..])]
          == s.profiles[last := WithPairs(s.profiles[last], pairs)];
    }
  }

  lemma ItemIsRead(s: State, itemPad: string, pad: string, pairs: Pairs)
    requires s.inProfiles && Blanks(itemPad) && Blanks(pad) && |pad| > s.profilesIndent && PairsOk(pairs)
    ensures ParseLines(s, ItemLines(itemPad, pad, pairs))
         == s.(profiles := s.profiles + [WithPairs(map[], pairs)], hasCurrent := true)
  {
    var key, value := pairs[0].0, pairs[0].1;
    var line := Shown(itemPad + "- ", key, value);
    ItemLine(s, itemPad, key, value);
    assert line == itemPad + "- " + key + ": " + value;
    var t := ParseLine(s, line);
    assert forall i :: 0 <= i < |pairs[1..]| ==> pairs[1..][i] == pairs[i + 1];
    FieldsAreRead(t, pad, pairs[1..]);
    assert ItemLines(itemPad, pad, pairs)[1..] == FieldLines(pad, pairs[1..]);
    EmptyWith(key, value);
    assert t.profiles[|s.profiles| := WithPairs(map[key := value], pairs[1..])]
        == s.profiles + [WithPairs(map[], pairs)];
  }

  lemma EmptyWith(key: string, value: string)
    ensures map[][key := value] == map[key := value]
  {}

  // Whatever the indents: each item begins a profile, the deeper pairs behind it are its own.
  lemma {:induction false} ListIsRead(s: State, itemPad: string, pad: string, list: seq<Pairs>)
    requires s.inProfiles && Blanks(itemPad) && Blanks(pad) && |pad| > s.profilesIndent
    requires forall i :: 0 <= i < |list| ==> PairsOk(list[i])
    ensures ParseLines(s, ListLines(itemPad, pad, list))
         == s.(profiles := s.profiles + ProfilesOf(list), hasCurrent := s.hasCurrent || list != [])
    decreases |list|
  {
    if list == [] {
      assert s.profiles + [] == s.profiles;
    } else {
      ItemIsRead(s, itemPad, pad, list[0]);
      var t := s.(profiles := s.profiles + [WithPairs(map[], list[0])], hasCurrent := true);
      ListIsRead(t, itemPad, pad, list[1..]);
      LinesInTwo(s, ItemLines(itemPad, pad, list[0]), ListLines(itemPad, pad, list[1..]), t,
                 t.(profiles := t.profiles + ProfilesOf(list[1..])));
      FirstProfile(s.profiles, list);
    }
  }

  lemma LinesInTwo(s: State, first: seq<string>, second: seq<string>, t: State, u: State)
    requires ParseLines(s, first) == t && ParseLines(t, second) == u
    ensures ParseLines(s, first + second) == u
  {
    LinesConcat(s, first, second);
  }

  lemma FirstProfile(before: seq<Profile>, list: seq<Pairs>)
    requires list != []
    ensures before + [WithPairs(map[], list[0])] + ProfilesOf(list[1..]) == before + ProfilesOf(list)
  {}

  // Blank lines and comments.
  predicate IsNoise(line: string) {
    Strip(line) == "" || Strip(line)[0] == '#'
  }

  function Kept(lines: seq<string>): seq<string> {
    if lines == [] then [] else (if IsNoise(lines[0]) then [] else [lines[0]]) + Kept(lines[1..])
  }

  lemma {:induction false} NoiseIsSkipped(s: State, lines: seq<string>)
    ensures ParseLines(s, lines) == ParseLines(s, Kept(lines))
    decreases |lines|
  {
    if lines != [] {
      NoiseIsSkipped(ParseLine(s, lines[0]), lines[1..]);
      assert ([lines[0]] + Kept(lines[1..]))[1..] == Kept(lines[1..]);
      assert [] + Kept(lines[1..]) == Kept(lines[1..]);
    }
  }

  predicate IsHeading(line: string) {
    "profiles:" <= Strip(line)
  }

  // Outside the list, no line but a new heading touches the profiles.
  lemma {:induction false} OutsideTheList(s: State, lines: seq<string>)
    requires !s.inProfiles && forall i :: 0 <= i < |lines| ==> !IsHeading(lines[i])
    ensures ParseLines(s, lines).profiles == s.profiles
    decreases |lines|
  {
    if lines != [] {
      OutsideTheList(ParseLine(s, lines[0]), lines[1..]);
    }
  }

  // A line at the heading's indent or less that is no item ends the list: nothing behind it, however
  // deep, is taken for a profile's.
  lemma DedentEndsTheList(s: State, line: string, rest: seq<string>)
    requires !IsNoise(line) && !IsItem(Strip(line)) && Indent(line) <= s.profilesIndent && !IsHeading(line)
    requires forall i :: 0 <= i < |rest| ==> !IsHeading(rest[i])
    ensures ParseLines(s, [line] + rest).profiles == s.profiles
  {
    LeavesTheList(s, line);
    OutsideTheList(ParseLine(s, line), rest);
    FirstLine(s, line, rest);
  }

  lemma LeavesTheList(s: State, line: string)
    requires !IsNoise(line) && !IsItem(Strip(line)) && Indent(line) <= s.profilesIndent && !IsHeading(line)
    ensures var t := ParseLine(s, line); !t.inProfiles && t.profiles == s.profiles
  {}

  lemma FirstLine(s: State, line: string, rest: seq<string>)
    ensures ParseLines(s, [line] + rest) == ParseLines(ParseLine(s, line), rest)
  {
    assert ([line] + rest)[1..] == rest;
  }

  // However its profiles are indented and whatever blank lines and comments lie between, a config gives
  // back its profile key and its profiles in order, whether the key stands before or behind the list.
  lemma AnyConfigIsRead(
    lines: seq<string>, current: string, itemPad: string, pad: string, list: seq<Pairs>, keyFirst: bool)
    requires Clean(current) && Blanks(itemPad) && Blanks(pad) && pad != ""
    requires forall i :: 0 <= i < |list| ==> PairsOk(list[i])
    requires var key := [Shown("", "current_profile", current)];
      var block := ["profiles:"] + ListLines(itemPad, pad, list);
      Kept(lines) == if keyFirst then key + block else block + key
    ensures var s := ParseLines(START, lines); s.currentProfile == Some(current) && s.profiles == ProfilesOf(list)
  {
    NoiseIsSkipped(START, lines);
    if keyFirst {
      KeyThenBlock(current, itemPad, pad, list);
    } else {
      BlockThenKey(current, itemPad, pad, list);
    }
  }

  lemma KeyThenBlock(current: string, itemPad: string, pad: string, list: seq<Pairs>)
    requires Clean(current) && Blanks(itemPad) && Blanks(pad) && pad != ""
    requires forall i :: 0 <= i < |list| ==> PairsOk(list[i])
    ensures var key := [Shown("", "current_profile", current)];
      var s := ParseLines(START, key + (["profiles:"] + ListLines(itemPad, pad, list)));
      s.currentProfile == Some(current) && s.profiles == ProfilesOf(list)
  {
    var key := [Shown("", "current_profile", current)];
    LinesConcat(START, key, ["profiles:"] + ListLines(itemPad, pad, list));
    KeyIsRead(START, current);
    BlockIsRead(START.(currentProfile := Some(current)), itemPad, pad, list);
  }

  lemma BlockThenKey(current: string, itemPad: string, pad: string, list: seq<Pairs>)
    requires Clean(current) && Blanks(itemPad) && Blanks(pad) && pad != ""
    requires forall i :: 0 <= i < |list| ==> PairsOk(list[i])
    ensures var key := [Shown("", "current_profile", current)];
      var s := ParseLines(START, (["profiles:"] + ListLines(itemPad, pad, list)) + key);
      s.currentProfile == Some(current) && s.profiles == ProfilesOf(list)
  {
    var block := ["profiles:"] + ListLines(itemPad, pad, list);
    LinesConcat(START, block, [Shown("", "current_profile", current)]);
    BlockIsRead(START, itemPad, pad, list);
    KeyIsRead(ParseLines(START, block), current);
  }

  lemma KeyIsRead(s: State, current: string)
    requires Clean(current)
    ensures ParseLines(s, [Shown("", "current_profile", current)])
         == s.(currentProfile := Some(current), hasCurrent := false, inProfiles := false)
  {
    TopIsRead(s, current);
    var line := Shown("", "current_profile", current);
    assert [line][1..] == [];
  }

  lemma BlockIsRead(s: State, itemPad: string, pad: string, list: seq<Pairs>)
    requires !s.inProfiles && s.profiles == [] && Blanks(itemPad) && Blanks(pad) && pad != ""
    requires forall i :: 0 <= i < |list| ==> PairsOk(list[i])
    ensures var t := ParseLines(s, ["profiles:"] + ListLines(itemPad, pad, list));
      t.profiles == ProfilesOf(list) && t.currentProfile == s.currentProfile && t.inProfiles
  {
    ProfilesHeading(s);
    var t := ParseLine(s, "profiles:");
    ListIsRead(t, itemPad, pad, list);
    var items := ListLines(itemPad, pad, list);
    assert (["profiles:"] + items)[1..] == items && [] + ProfilesOf(list) == ProfilesOf(list);
  }

  lemma NoBreaks(pad: string, key: string, value: string)
    requires (forall i :: 0 <= i < |pad| ==> !IsBreak(pad[i])) && KeyOk(key) && Clean(value)
    ensures OneLined(Shown(pad, key, value))
  {}

  lemma ConfigHasNoBreaks(
    current: string, site: string, cloudId: string, accountId: string, email: string, token: string)
    requires Clean(current) && Clean(site) && Clean(cloudId) && Clean(accountId) && Clean(email) && Clean(token)
    ensures var lines := ConfigLines(current, site, cloudId, accountId, email, token);
      forall k :: 0 <= k < |lines| ==> OneLined(lines[k])
  {
    KnownKeys();
    NoBreaks("", "version", "1");
    NoBreaks("", "current_profile", current);
    NoBreaks("    - ", "site", site);
    NoBreaks("      ", "cloud_id", cloudId);
    NoBreaks("      ", "account_id", accountId);
    NoBreaks("      ", "email", email);
    NoBreaks("      ", "auth_type", "api_token");
    NoBreaks("      ", "token", token);
  }

  // Reading the synthetic config gives back the profile key and exactly the fields written.
  lemma ConfigRoundTrip(
    current: string, site: string, cloudId: string, accountId: string, email: string, token: string)
    requires Clean(current) && Clean(site) && Clean(cloudId) && Clean(accountId) && Clean(email) && Clean(token)
    ensures var text := Unlines(ConfigLines(current, site, cloudId, accountId, email, token));
      var s := ParseLines(START, SplitLines(text));
      s.currentProfile == Some(current) && s.profiles == [Written(site, cloudId, accountId, email, token)]
  {
    var lines := ConfigLines(current, site, cloudId, accountId, email, token);
    ConfigHasNoBreaks(current, site, cloudId, accountId, email, token);
    LinesComeBack(lines);
    LinesAreRead(current, site, cloudId, accountId, email, token);
  }

  lemma LinesAreRead(
    current: string, site: string, cloudId: string, accountId: string, email: string, token: string)
    requires Clean(current) && Clean(site) && Clean(cloudId) && Clean(accountId) && Clean(email) && Clean(token)
    ensures var s := ParseLines(START, ConfigLines(current, site, cloudId, accountId, email, token));
      s.currentProfile == Some(current) && s.profiles == [Written(site, cloudId, accountId, email, token)]
  {
    VersionLine();
    var pairs := WrittenPairs(site, cloudId, accountId, email, token);
    PairsAreOk(site, cloudId, accountId, email, token);
    KeyThenBlock(current, "    ", "      ", [pairs]);
    OneProfile("    ", "      ", pairs);
    PairsAsWritten(site, cloudId, accountId, email, token);
    ShownAsWritten(current, site, cloudId, accountId, email, token);
    FirstOfLines(START, ConfigLines(current, site, cloudId, accountId, email, token));
  }

  lemma FirstOfLines(s: State, lines: seq<string>)
    requires lines != []
    ensures ParseLines(s, lines) == ParseLines(ParseLine(s, lines[0]), lines[1..])
  {}

  lemma PairsAreOk(site: string, cloudId: string, accountId: string, email: string, token: string)
    requires Clean(site) && Clean(cloudId) && Clean(accountId) && Clean(email) && Clean(token)
    ensures PairsOk(WrittenPairs(site, cloudId, accountId, email, token))
  {
    KnownKeys();
  }

  function WrittenPairs(site: string, cloudId: string, accountId: string, email: string, token: string): Pairs {
    [("site", site), ("cloud_id", cloudId), ("account_id", accountId), ("email", email), ("auth_type", "api_token"),
     ("token", token)]
  }

  lemma {:induction false} FieldLinesAt(pad: string, pairs: Pairs)
    ensures |FieldLines(pad, pairs)| == |pairs|
    ensures forall i :: 0 <= i < |pairs| ==> FieldLines(pad, pairs)[i] == Shown(pad, pairs[i].0, pairs[i].1)
    decreases |pairs|
  {
    if pairs != [] { FieldLinesAt(pad, pairs[1..]); }
  }

  lemma OneProfile(itemPad: string, pad: string, pairs: Pairs)
    requires pairs != []
    ensures var lines := ListLines(itemPad, pad, [pairs]);
      && |lines| == |pairs| && lines[0] == Shown(itemPad + "- ", pairs[0].0, pairs[0].1)
      && forall i :: 0 < i < |pairs| ==> lines[i] == Shown(pad, pairs[i].0, pairs[i].1)
    ensures ProfilesOf([pairs]) == [WithPairs(map[], pairs)]
  {
    FieldLinesAt(pad, pairs[1..]);
    assert [pairs][1..] == [];
    assert ItemLines(itemPad, pad, pairs) + [] == ItemLines(itemPad, pad, pairs);
  }

  // The lines written are a profile key and a list of one profile.
  lemma ShownAsWritten(
    current: string, site: string, cloudId: string, accountId: string, email: string, token: string)
    ensures ConfigLines(current, site, cloudId, accountId, email, token)[1..]
         == [Shown("", "current_profile", current)]
            + (["profiles:"] + ListLines("    ", "      ", [WrittenPairs(site, cloudId, accountId, email, token)]))
  {
    var pairs := WrittenPairs(site, cloudId, accountId, email, token);
    OneProfile("    ", "      ", pairs);
    assert "    " + "- " == "    - ";
  }

  lemma {:induction false} WithOne(profile: Profile, pairs: Pairs, key: string, value: string)
    ensures WithPairs(profile, pairs + [(key, value)]) == WithPairs(profile, pairs)[key := value]
    decreases |pairs|
  {
    var longer := pairs + [(key, value)];
    if pairs == [] {
      assert longer[1..] == [];
    } else {
      assert longer[1..] == pairs[1..] + [(key, value)];
      WithOne(profile[pairs[0].0 := pairs[0].1], pairs[1..], key, value);
    }
  }

  lemma PairsAsWritten(site: string, cloudId: string, accountId: string, email: string, token: string)
    ensures WithPairs(map[], WrittenPairs(site, cloudId, accountId, email, token))
         == Written(site, cloudId, accountId, email, token)
  {
    var pairs := WrittenPairs(site, cloudId, accountId, email, token);
    assert pairs[..0] == [] && pairs[..6] == pairs;
    forall k | 0 <= k < 6
      ensures WithPairs(map[], pairs[..k + 1]) == WithPairs(map[], pairs[..k])[pairs[k].0 := pairs[k].1]
    {
      assert pairs[..k + 1] == pairs[..k] + [pairs[k]];
      WithOne(map[], pairs[..k], pairs[k].0, pairs[k].1);
    }
    assert WithPairs(map[], pairs[..0 + 1]) == map["site" := site];
    assert WithPairs(map[], pairs[..1 + 1]) == map["site" := site]["cloud_id" := cloudId];
    assert WithPairs(map[], pairs[..2 + 1]) == map["site" := site]["cloud_id" := cloudId]["account_id" := accountId];
    var three := WithPairs(map[], pairs[..2 + 1]);
    assert WithPairs(map[], pairs[..3 + 1]) == three["email" := email];
    assert WithPairs(map[], pairs[..4 + 1]) == three["email" := email]["auth_type" := "api_token"];
    assert WithPairs(map[], pairs[..5 + 1]) == three["email" := email]["auth_type" := "api_token"]["token" := token];
  }

  ghost predicate FirstMatch(profiles: seq<Profile>, current: string, i: nat)
    requires i < |profiles|
  {
    KeyOf(profiles[i]) == current && forall j :: 0 <= j < i ==> KeyOf(profiles[j]) != current
  }

  ghost predicate MatchedRight(found: Loaded, current: string, profiles: seq<Profile>) {
    match found
    case CurrentMissing => current == ""
    case Found(name, profile) =>
      name == current && exists i :: 0 <= i < |profiles| && FirstMatch(profiles, current, i) && profile == profiles[i]
    case NotFound(name) => name == current && forall i :: 0 <= i < |profiles| ==> KeyOf(profiles[i]) != current
  }

  lemma {:induction false} MatchSpec(current: string, profiles: seq<Profile>)
    ensures !Match(current, profiles).CurrentMissing? && MatchedRight(Match(current, profiles), current, profiles)
    decreases |profiles|
  {
    if profiles != [] {
      var rest := profiles[1..];
      MatchSpec(current, rest);
      var found := Match(current, profiles);
      if KeyOf(profiles[0]) == current {
        assert FirstMatch(profiles, current, 0);
      } else if found.Found? {
        var i :| 0 <= i < |rest| && FirstMatch(rest, current, i) && found.profile == rest[i];
        assert forall j :: 0 < j <= i ==> profiles[j] == rest[j - 1];
        assert FirstMatch(profiles, current, i + 1);
      } else {
        assert forall j :: 0 < j < |profiles| ==> profiles[j] == rest[j - 1];
      }
    }
  }

  // From any such config the first profile of the key is loaded; it is refused exactly when the key is
  // empty or no profile has it.
  lemma AnyConfigIsLoaded(
    text: string, current: string, itemPad: string, pad: string, list: seq<Pairs>, keyFirst: bool)
    requires Clean(current) && Blanks(itemPad) && Blanks(pad) && pad != ""
    requires forall i :: 0 <= i < |list| ==> PairsOk(list[i])
    requires var key := [Shown("", "current_profile", current)];
      var block := ["profiles:"] + ListLines(itemPad, pad, list);
      Kept(SplitLines(text)) == if keyFirst then key + block else block + key
    ensures Load(text).CurrentMissing? <==> current == ""
    ensures MatchedRight(Load(text), current, ProfilesOf(list))
  {
    AnyConfigIsRead(SplitLines(text), current, itemPad, pad, list, keyFirst);
    MatchSpec(current, ProfilesOf(list));
  }

  // The synthetic config's profile is found exactly when its key is its cloud id, a colon and its account id.
  lemma WrittenProfileIsFound(
    current: string, site: string, cloudId: string, accountId: string, email: string, token: string)
    requires Clean(current) && Clean(site) && Clean(cloudId) && Clean(accountId) && Clean(email) && Clean(token)
    ensures var text := Unlines(ConfigLines(current, site, cloudId, accountId, email, token));
      current == cloudId + ":" + accountId
      <==> Load(text) == Found(current, Written(site, cloudId, accountId, email, token))
  {
    var text := Unlines(ConfigLines(current, site, cloudId, accountId, email, token));
    ConfigRoundTrip(current, site, cloudId, accountId, email, token);
    LoadOfOne(text, current, Written(site, cloudId, accountId, email, token));
    KeyOfWritten(site, cloudId, accountId, email, token);
  }

  lemma LoadOfOne(text: string, current: string, profile: Profile)
    requires ParseLines(START, SplitLines(text)).currentProfile == Some(current)
    requires ParseLines(START, SplitLines(text)).profiles == [profile]
    ensures Load(text) == Found(current, profile) <==> current != "" && KeyOf(profile) == current
  {
    assert Match(current, [profile]) == if KeyOf(profile) == current then Found(current, profile) else NotFound(current)
    by { assert [profile][1..] == []; }
  }

  lemma KeyOfWritten(site: string, cloudId: string, accountId: string, email: string, token: string)
    ensures KeyOf(Written(site, cloudId, accountId, email, token)) == cloudId + ":" + accountId
    ensures cloudId + ":" + accountId != ""
  {}
}
