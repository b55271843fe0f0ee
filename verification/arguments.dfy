/**
 * The command-line parser of the host (class Arguments): each token is cut by
 * the splitter `^-{1,2}|^/|=|:` into at most three parts, values lose one
 * surrounding quote, and the pairs are collected in a case-insensitive
 * dictionary where the first occurrence of a name wins.
 */
module CommandLine {
  import opened Common

  /** A StringDictionary: keys are stored lower-cased. */
  type ArgumentTable = map<string, string>

  // ---------------------------------------------------------------------------
  // The splitter `^-{1,2}|^/|=|:`, applied with a limit of three parts.
  // ---------------------------------------------------------------------------

  predicate IsDelimiter(c: char)
  {
    c == '=' || c == ':'
  }

  predicate NoDelimiter(s: string)
  {
    forall i :: 0 <= i < |s| ==> !IsDelimiter(s[i])
  }

  /** The first `=` or `:` in `s`. */
  function DelimiterIndex(s: string): (r: Option<nat>)
    ensures r.Some? ==> r.value < |s| && IsDelimiter(s[r.value]) && NoDelimiter(s[..r.value])
    ensures r.None? ==> NoDelimiter(s)
  {
    if s == [] then None
    else if IsDelimiter(s[0]) then Some(0)
    else
      match DelimiterIndex(s[1..])
      case None => None
      case Some(i) => Some(i + 1)
  }

  /** Length of the `^-{1,2}|^/` match at the start of a token (0 for none). */
  function SwitchPrefixLength(s: string): (n: nat)
    ensures n <= |s|
  {
    if |s| >= 2 && s[0] == '-' && s[1] == '-' then 2
    else if |s| >= 1 && (s[0] == '-' || s[0] == '/') then 1
    else 0
  }

  /** Split at the first delimiter only. */
  function CutOnce(s: string): seq<string>
  {
    match DelimiterIndex(s)
    case None => [s]
    case Some(i) => [s[..i], s[i + 1..]]
  }

  /** Split at the first two delimiters. */
  function CutTwice(s: string): seq<string>
  {
    match DelimiterIndex(s)
    case None => [s]
    case Some(i) => [s[..i]] + CutOnce(s[i + 1..])
  }

  /** Regex.Split(token, 3) with the splitter of the parser. */
  function Split(token: string): (parts: seq<string>)
    ensures 1 <= |parts| <= 3
    ensures |parts| == 1 <==> SwitchPrefixLength(token) == 0 && NoDelimiter(token)
    ensures |parts| == 1 ==> parts[0] == token
    ensures SwitchPrefixLength(token) > 0 ==> parts[0] == ""
  {
    var n := SwitchPrefixLength(token);
    if n > 0 then [""] + CutOnce(token[n..]) else CutTwice(token)
  }

  /** A splitter match consumed the whole prefix: `/`, `-` or `--`. */
  predicate IsSwitchPrefix(prefix: string)
  {
    prefix == "/" || prefix == "-" || prefix == "--"
  }

  /** A name that the splitter reads back whole after `prefix`. */
  predicate IsSwitchName(prefix: string, name: string)
  {
    NoDelimiter(name) && (prefix == "-" ==> name == [] || name[0] != '-')
  }

  lemma {:induction false} DelimiterIndexAfterName(name: string, rest: string)
    requires NoDelimiter(name)
    ensures DelimiterIndex(name + rest) ==
      match DelimiterIndex(rest)
      case None => None
      case Some(i) => Some(|name| + i)
    decreases |name|
  {
    if name != [] {
      assert (name + rest)[1..] == name[1..] + rest;
      DelimiterIndexAfterName(name[1..], rest);
    } else {
      assert name + rest == rest;
    }
  }

  lemma SwitchPrefixOf(prefix: string, name: string, tail: string)
    requires IsSwitchPrefix(prefix) && IsSwitchName(prefix, name)
    requires tail == [] || IsDelimiter(tail[0])
    ensures SwitchPrefixLength(prefix + name + tail) == |prefix|
  {
    var s := prefix + name + tail;
    assert s[0] == prefix[0];
    if prefix == "-" {
      if name != [] {
        assert s[1] == name[0];
      } else if tail != [] {
        assert s[1] == tail[0];
      }
    } else if prefix == "--" {
      assert s[1] == '-';
    }
  }

  /** `/name:value`, `-name=value`, `--name:value` split into ["", name, value]. */
  lemma SplitOfSwitchWithValue(prefix: string, name: string, delimiter: char, value: string)
    requires IsSwitchPrefix(prefix) && IsSwitchName(prefix, name) && IsDelimiter(delimiter)
    ensures Split(prefix + name + [delimiter] + value) == ["", name, value]
  {
    var token := prefix + name + [delimiter] + value;
    var tail := [delimiter] + value;
    assert token == prefix + name + tail;
    SwitchPrefixOf(prefix, name, tail);
    assert token[|prefix|..] == name + tail;
    DelimiterIndexAfterName(name, tail);
    assert (name + tail)[..|name|] == name;
    assert (name + tail)[|name| + 1..] == value;
  }

  /** `/name`, `-name`, `--name` split into ["", name]. */
  lemma SplitOfSwitch(prefix: string, name: string)
    requires IsSwitchPrefix(prefix) && IsSwitchName(prefix, name)
    ensures Split(prefix + name) == ["", name]
  {
    SwitchPrefixOf(prefix, name, []);
    assert prefix + name + [] == prefix + name;
    assert (prefix + name)[|prefix|..] == name;
  }

  // ---------------------------------------------------------------------------
  // The remover `^['"]?(.*?)['"]?$`, replaced by its group.
  // ---------------------------------------------------------------------------

  predicate IsQuote(c: char)
  {
    c == '\'' || c == '"'
  }

  /** `s` is `r` with at most one leading and one trailing quote put back. */
  predicate RemovesOuterQuotes(s: string, r: string)
  {
    || s == r
    || (|s| >= 1 && IsQuote(s[0]) && s == [s[0]] + r)
    || (|s| >= 1 && IsQuote(s[|s| - 1]) && s == r + [s[|s| - 1]])
    || (|s| >= 2 && IsQuote(s[0]) && IsQuote(s[|s| - 1]) && s == [s[0]] + r + [s[|s| - 1]])
  }

  /** The regex on a value without line feeds: one leading, then one trailing quote go. */
  function Unquote(s: string): (r: string)
    ensures |r| <= |s| <= |r| + 2
    ensures RemovesOuterQuotes(s, r)
  {
    var body := if |s| > 0 && IsQuote(s[0]) then s[1..] else s;
    assert |s| > 0 && IsQuote(s[0]) ==> s == [s[0]] + body;
    if |body| > 0 && IsQuote(body[|body| - 1]) then
      assert body == body[..|body| - 1] + [s[|s| - 1]];
      body[..|body| - 1]
    else
      body
  }

  /**
   * The remover applied to a value. `.` does not match a line feed and `$`
   * also matches before a final one, so a value with an inner line feed is
   * left alone and a final line feed is kept.
   */
  function StripQuotes(s: string): (r: string)
    ensures |r| <= |s| <= |r| + 2
    ensures NoLineBreak(s) ==> RemovesOuterQuotes(s, r)
  {
    if NoLineBreak(s) then Unquote(s)
    else if s[|s| - 1] == '\n' && NoLineBreak(s[..|s| - 1]) then
      Unquote(s[..|s| - 1]) + "\n"
    else
      s
  }

  /** A value between two quotes comes back unchanged. */
  lemma StripQuotesOfQuoted(open: char, value: string, close: char)
    requires IsQuote(open) && IsQuote(close) && NoLineBreak(value)
    ensures StripQuotes([open] + value + [close]) == value
  {
    var s := [open] + value + [close];
    assert s[1..] == value + [close];
    assert (value + [close])[..|value|] == value;
  }

  /** A value without outer quotes comes back unchanged. */
  lemma StripQuotesOfPlain(value: string)
    requires NoLineBreak(value)
    requires value == [] || (!IsQuote(value[0]) && !IsQuote(value[|value| - 1]))
    ensures StripQuotes(value) == value
  {
  }

  // ---------------------------------------------------------------------------
  // The token loop of the constructor, as a state machine.
  // ---------------------------------------------------------------------------

  /** The pending parameter slot and the dictionary filled so far. */
  datatype ParserState = ParserState(pending: Option<string>, table: ArgumentTable)

  const Start := ParserState(None, map[])

  /** `parameters.Add(name.ToLower(), value)` guarded by `ContainsKey(name)`. */
  function AddIfAbsent(table: ArgumentTable, name: string, value: string): (r: ArgumentTable)
    ensures r.Keys == table.Keys + {Lower(name)}
    ensures forall k :: k in table ==> r[k] == table[k]
    ensures Lower(name) !in table ==> r[Lower(name)] == value
  {
    if Lower(name) in table then table else table[Lower(name) := value]
  }

  /** A pending parameter is stored as "true" unless its name is already present. */
  function StorePending(st: ParserState): (r: ArgumentTable)
    ensures forall k :: k in st.table ==> k in r && r[k] == st.table[k]
  {
    match st.pending
    case None => st.table
    case Some(p) => AddIfAbsent(st.table, p, "true")
  }

  /** One iteration of the `foreach` over the tokens. */
  function Step(st: ParserState, token: string): (r: ParserState)
    ensures forall k :: k in st.table ==> k in r.table && r.table[k] == st.table[k]
  {
    var parts := Split(token);
    if |parts| == 1 then
      match st.pending
      case None => st
      case Some(p) => ParserState(None, AddIfAbsent(st.table, p, StripQuotes(parts[0])))
    else if |parts| == 2 then
      ParserState(Some(parts[1]), StorePending(st))
    else
      ParserState(None, AddIfAbsent(StorePending(st), parts[1], StripQuotes(parts[2])))
  }

  /** The state after the loop has seen `tokens`. */
  function Scan(tokens: seq<string>): ParserState
  {
    if tokens == [] then Start else Step(Scan(tokens[..|tokens| - 1]), tokens[|tokens| - 1])
  }

  /** The dictionary the constructor leaves: the loop, then the last pending name. */
  function Parse(tokens: seq<string>): ArgumentTable
  {
    StorePending(Scan(tokens))
  }

  lemma ScanAppend(tokens: seq<string>, token: string)
    ensures Scan(tokens + [token]) == Step(Scan(tokens), token)
  {
    assert (tokens + [token])[..|tokens|] == tokens;
  }

  /** Every stored name is lower-case. */
  lemma {:induction false} ScanKeysAreLowerCase(tokens: seq<string>)
    ensures forall k :: k in Scan(tokens).table ==> IsLowerCase(k)
    ensures forall p :: Scan(tokens).pending == Some(p) ==> IsLowerCase(Lower(p))
    decreases |tokens|
  {
    if tokens != [] {
      ScanKeysAreLowerCase(tokens[..|tokens| - 1]);
      forall s: string { LowerIsLowerCase(s); }
    }
  }

  lemma ParsedKeysAreLowerCase(tokens: seq<string>)
    ensures forall k :: k in Parse(tokens) ==> IsLowerCase(k)
  {
    ScanKeysAreLowerCase(tokens);
  }

  /** First occurrence wins: an entry, once stored, is never replaced. */
  lemma {:induction false} ParseKeepsFirstOccurrence(tokens: seq<string>, n: nat)
    requires n <= |tokens|
    ensures forall k :: k in Scan(tokens[..n]).table ==> k in Parse(tokens) && Parse(tokens)[k] == Scan(tokens[..n]).table[k]
    decreases |tokens| - n
  {
    if n < |tokens| {
      var longer := tokens[..n + 1];
      assert longer[..n] == tokens[..n];
      assert Scan(longer) == Step(Scan(tokens[..n]), tokens[n]);
      ParseKeepsFirstOccurrence(tokens, n + 1);
    } else {
      assert tokens[..n] == tokens;
    }
  }

  /** `/name:value` (or `-name=value`, `--name:value`) stores the value under the name. */
  lemma SwitchWithValueStoresValue(st: ParserState, prefix: string, name: string, delimiter: char, value: string)
    requires IsSwitchPrefix(prefix) && IsSwitchName(prefix, name) && IsDelimiter(delimiter)
    ensures Step(st, prefix + name + [delimiter] + value) ==
            ParserState(None, AddIfAbsent(StorePending(st), name, StripQuotes(value)))
  {
    SplitOfSwitchWithValue(prefix, name, delimiter, value);
  }

  /** `/name value`: the bare token becomes the value of the pending name. */
  lemma SwitchThenBareValue(st: ParserState, prefix: string, name: string, value: string)
    requires IsSwitchPrefix(prefix) && IsSwitchName(prefix, name)
    requires SwitchPrefixLength(value) == 0 && NoDelimiter(value)
    ensures Step(Step(st, prefix + name), value) ==
            ParserState(None, AddIfAbsent(StorePending(st), name, StripQuotes(value)))
  {
    SplitOfSwitch(prefix, name);
  }

  /** `/first /second`: the first name is stored as "true", the second waits. */
  lemma SwitchThenSwitch(st: ParserState, prefix: string, first: string, prefix': string, second: string)
    requires IsSwitchPrefix(prefix) && IsSwitchName(prefix, first)
    requires IsSwitchPrefix(prefix') && IsSwitchName(prefix', second)
    ensures Step(Step(st, prefix + first), prefix' + second) ==
            ParserState(Some(second), AddIfAbsent(StorePending(st), first, "true"))
  {
    SplitOfSwitch(prefix, first);
    SplitOfSwitch(prefix', second);
  }

  /** A bare token with nothing pending is ignored. */
  lemma BareTokenIgnored(st: ParserState, value: string)
    requires st.pending.None?
    requires SwitchPrefixLength(value) == 0 && NoDelimiter(value)
    ensures Step(st, value) == st
  {
  }

  /** A name left pending at the end of the input is stored as "true". */
  lemma TrailingSwitchIsTrue(tokens: seq<string>, prefix: string, name: string)
    requires IsSwitchPrefix(prefix) && IsSwitchName(prefix, name)
    ensures Parse(tokens + [prefix + name]) == AddIfAbsent(StorePending(Scan(tokens)), name, "true")
  {
    ScanAppend(tokens, prefix + name);
    SplitOfSwitch(prefix, name);
  }

  // ---------------------------------------------------------------------------
  // Lookups: the indexer, Get<string>, Get<bool> and ShouldShowHelp.
  // ---------------------------------------------------------------------------

  /** The indexer `this[name]`: null (None) when the name is absent. */
  function Lookup(table: ArgumentTable, name: string): (r: Option<string>)
    ensures r.Some? <==> Lower(name) in table
    ensures r.Some? ==> r.value == table[Lower(name)]
  {
    if Lower(name) in table then Some(table[Lower(name)]) else None
  }

  /** Get<string>(name, default). */
  function GetString(table: ArgumentTable, name: string, default: string): (r: string)
    ensures Lower(name) !in table ==> r == default
    ensures Lower(name) in table ==> r == table[Lower(name)]
  {
    match Lookup(table, name)
    case None => default
    case Some(v) => v
  }

  predicate IsWhiteSpaceOrNull(c: char)
  {
    || c == '\0' || c == ' ' || '\t' <= c <= '\r'
    || c == '\U{85}' || c == '\U{A0}' || c == '\U{1680}'
    || '\U{2000}' <= c <= '\U{200A}'
    || c == '\U{2028}' || c == '\U{2029}' || c == '\U{202F}' || c == '\U{205F}' || c == '\U{3000}'
  }

  function TrimStart(s: string): string
  {
    if s != [] && IsWhiteSpaceOrNull(s[0]) then TrimStart(s[1..]) else s
  }

  function TrimEnd(s: string): string
  {
    if s != [] && IsWhiteSpaceOrNull(s[|s| - 1]) then TrimEnd(s[..|s| - 1]) else s
  }

  /** Boolean.Parse, which Convert.ChangeType uses for a string. */
  function ParseBoolean(text: string): Result<bool>
  {
    var trimmed := TrimEnd(TrimStart(text));
    if Lower(trimmed) == "true" then Ok(true)
    else if Lower(trimmed) == "false" then Ok(false)
    else Err(Error(Format, "String was not recognized as a valid Boolean."))
  }

  /** Get<bool>(name, default). */
  function GetBoolean(table: ArgumentTable, name: string, default: bool): (r: Result<bool>)
    ensures Lower(name) !in table ==> r == Ok(default)
    ensures Lower(name) in table ==> r == ParseBoolean(table[Lower(name)])
  {
    match Lookup(table, name)
    case None => Ok(default)
    case Some(v) => ParseBoolean(v)
  }

  predicate StoredTrue(table: ArgumentTable, key: string)
  {
    key in table && ParseBoolean(table[key]) == Ok(true)
  }

  /** A stored value that Boolean.Parse rejects. */
  predicate StoredUnparsable(table: ArgumentTable, key: string)
  {
    key in table && ParseBoolean(table[key]).Err?
  }

  /**
   * `Get("help", false) || Get("h", false) || Get("?", false)`: the operands
   * are read left to right until one is true, and an unparsable value read on
   * the way throws.
   */
  function HelpRequested(table: ArgumentTable): (r: Result<bool>)
    ensures "help" !in table && "h" !in table && "?" !in table ==> r == Ok(false)
    ensures StoredTrue(table, "help") ==> r == Ok(true)
    ensures !StoredUnparsable(table, "help") && StoredTrue(table, "h") ==> r == Ok(true)
    ensures !StoredUnparsable(table, "help") && !StoredUnparsable(table, "h") && StoredTrue(table, "?") ==> r == Ok(true)
    ensures r.Err? <==>
      || StoredUnparsable(table, "help")
      || (!StoredTrue(table, "help") && StoredUnparsable(table, "h"))
      || (!StoredTrue(table, "help") && !StoredTrue(table, "h") && StoredUnparsable(table, "?"))
    ensures r.Ok? ==> r.value == (StoredTrue(table, "help") || StoredTrue(table, "h") || StoredTrue(table, "?"))
    ensures r.Err? ==> r.error == Error(Format, "String was not recognized as a valid Boolean.")
  {
    assert Lower("help") == "help" && Lower("h") == "h" && Lower("?") == "?";
    var help :- GetBoolean(table, "help", false);
    if help then Ok(true)
    else
      var h :- GetBoolean(table, "h", false);
      if h then Ok(true) else GetBoolean(table, "?", false)
  }

  // ---------------------------------------------------------------------------
  // Command lines that the host writes for itself: `/name:"value"` tokens.
  // ---------------------------------------------------------------------------

  /** The token `/name:"value"`. */
  function SwitchToken(name: string, value: string): string
  {
    "/" + name + ":" + Quoted(value)
  }

  function SwitchTokens(switches: seq<(string, string)>): (tokens: seq<string>)
    ensures |tokens| == |switches|
  {
    seq(|switches|, i requires 0 <= i < |switches| => SwitchToken(switches[i].0, switches[i].1))
  }

  /** Names the splitter reads back whole, pairwise different once lower-cased. */
  predicate WellFormedSwitches(switches: seq<(string, string)>)
  {
    && (forall i :: 0 <= i < |switches| ==> IsSwitchName("/", switches[i].0) && NoLineBreak(switches[i].1))
    && (forall i, j :: 0 <= i < j < |switches| ==> Lower(switches[i].0) != Lower(switches[j].0))
  }

  /** Switch names whose first letters differ even after lower-casing never collide. */
  lemma NamesDistinctByFirstLetter(switches: seq<(string, string)>)
    requires forall i :: 0 <= i < |switches| ==> |switches[i].0| > 0
    requires forall i, j :: 0 <= i < j < |switches| ==> LowerChar(switches[i].0[0]) != LowerChar(switches[j].0[0])
    ensures forall i, j :: 0 <= i < j < |switches| ==> Lower(switches[i].0) != Lower(switches[j].0)
  {
    forall i, j | 0 <= i < j < |switches|
      ensures Lower(switches[i].0) != Lower(switches[j].0)
    {
      assert Lower(switches[i].0)[0] != Lower(switches[j].0)[0];
    }
  }

  /** `/name:"value"` with nothing pending stores the value, unquoted, under the name. */
  lemma SwitchTokenStoresValue(st: ParserState, name: string, value: string)
    requires st.pending.None? && IsSwitchName("/", name) && NoLineBreak(value)
    ensures Step(st, SwitchToken(name, value)) == ParserState(None, AddIfAbsent(st.table, name, value))
  {
    assert SwitchToken(name, value) == "/" + name + [':'] + Quoted(value);
    SwitchWithValueStoresValue(st, "/", name, ':', Quoted(value));
    assert Quoted(value) == ['"'] + value + ['"'];
    StripQuotesOfQuoted('"', value, '"');
  }

  /** The dictionary such a command line should produce. */
  function SwitchTable(switches: seq<(string, string)>): ArgumentTable
  {
    if switches == [] then map[]
    else
      var (name, value) := switches[|switches| - 1];
      SwitchTable(switches[..|switches| - 1])[Lower(name) := value]
  }

  lemma {:induction false} SwitchTableKeys(switches: seq<(string, string)>)
    ensures SwitchTable(switches).Keys == set i | 0 <= i < |switches| :: Lower(switches[i].0)
    decreases |switches|
  {
    if switches != [] {
      var n := |switches| - 1;
      SwitchTableKeys(switches[..n]);
      var names := set i | 0 <= i < |switches| :: Lower(switches[i].0);
      var earlier := set i | 0 <= i < n :: Lower(switches[..n][i].0);
      assert names == earlier + {Lower(switches[n].0)} by {
        forall k | k in names ensures k in earlier + {Lower(switches[n].0)} {
          var i :| 0 <= i < |switches| && Lower(switches[i].0) == k;
          if i < n {
            assert switches[..n][i] == switches[i];
          }
        }
        forall k | k in earlier ensures k in names {
          var i :| 0 <= i < n && Lower(switches[..n][i].0) == k;
          assert switches[..n][i] == switches[i];
        }
      }
    }
  }

  lemma {:induction false} SwitchTableValues(switches: seq<(string, string)>, i: nat)
    requires WellFormedSwitches(switches)
    requires i < |switches|
    ensures Lower(switches[i].0) in SwitchTable(switches)
    ensures SwitchTable(switches)[Lower(switches[i].0)] == switches[i].1
    decreases |switches|
  {
    var n := |switches| - 1;
    if i < n {
      assert switches[..n][i] == switches[i];
      SwitchTableValues(switches[..n], i);
    }
  }

  /** The loop reads such a command line into SwitchTable, with nothing left pending. */
  lemma {:induction false} ScanOfSwitchTokens(switches: seq<(string, string)>)
    requires WellFormedSwitches(switches)
    ensures Scan(SwitchTokens(switches)) == ParserState(None, SwitchTable(switches))
    decreases |switches|
  {
    if switches != [] {
      var n := |switches| - 1;
      var tokens := SwitchTokens(switches);
      assert SwitchTokens(switches[..n]) == tokens[..n];
      ScanOfSwitchTokens(switches[..n]);
      var (name, value) := switches[n];
      assert Lower(name) !in SwitchTable(switches[..n]) by {
        SwitchTableKeys(switches[..n]);
      }
      SwitchTokenStoresValue(Scan(tokens[..n]), name, value);
    }
  }

  /** Parsing such a command line gives back every value under its name, and no other name. */
  lemma ParseOfSwitchTokens(switches: seq<(string, string)>)
    requires WellFormedSwitches(switches)
    ensures Parse(SwitchTokens(switches)).Keys == set i | 0 <= i < |switches| :: Lower(switches[i].0)
    ensures forall i, default :: 0 <= i < |switches| ==>
      GetString(Parse(SwitchTokens(switches)), switches[i].0, default) == switches[i].1
  {
    ScanOfSwitchTokens(switches);
    SwitchTableKeys(switches);
    forall i | 0 <= i < |switches| {
      SwitchTableValues(switches, i);
    }
  }

  /** Get on one switch of such a command line returns its value. */
  lemma GetOfSwitchTokens(switches: seq<(string, string)>, i: nat, default: string)
    requires WellFormedSwitches(switches) && i < |switches|
    ensures GetString(Parse(SwitchTokens(switches)), switches[i].0, default) == switches[i].1
  {
    ScanOfSwitchTokens(switches);
    SwitchTableValues(switches, i);
  }

  /** Get on a name that such a command line does not carry returns the default. */
  lemma GetOfMissingSwitch(switches: seq<(string, string)>, name: string, default: string)
    requires WellFormedSwitches(switches)
    requires forall i :: 0 <= i < |switches| ==> Lower(switches[i].0) != Lower(name)
    ensures GetString(Parse(SwitchTokens(switches)), name, default) == default
  {
    ScanOfSwitchTokens(switches);
    SwitchTableKeys(switches);
  }

  /** Reading back a switch: Get returns the value given on the command line. */
  lemma GetReadsSwitchValue(prefix: string, name: string, delimiter: char, value: string, default: string)
    requires IsSwitchPrefix(prefix) && IsSwitchName(prefix, name) && IsDelimiter(delimiter)
    ensures GetString(Parse([prefix + name + [delimiter] + value]), name, default) == StripQuotes(value)
  {
    SwitchWithValueStoresValue(Start, prefix, name, delimiter, value);
    ScanAppend([], prefix + name + [delimiter] + value);
    assert [] + [prefix + name + [delimiter] + value] == [prefix + name + [delimiter] + value];
  }

  /** `/help`, `/h` or `/?` alone on the command line asks for help. */
  lemma HelpSwitchRequestsHelp(prefix: string, name: string)
    requires IsSwitchPrefix(prefix) && IsSwitchName(prefix, name)
    requires Lower(name) == "help" || Lower(name) == "h" || Lower(name) == "?"
    ensures HelpRequested(Parse([prefix + name])) == Ok(true)
  {
    TrailingSwitchIsTrue([], prefix, name);
    assert [] + [prefix + name] == [prefix + name];
    var table := Parse([prefix + name]);
    assert table == map[Lower(name) := "true"];
    assert ParseBoolean("true") == Ok(true);
    if Lower(name) != "help" {
      assert "help" !in table;
      if Lower(name) != "h" {
        assert "h" !in table;
      }
    }
  }

  /** The parser of the host; `parameters` is its StringDictionary. */
  class Arguments {
    var parameters: ArgumentTable

    /** Runs the token loop over `args`. */
    constructor (args: seq<string>)
      ensures parameters == Parse(args)
    {
      parameters := map[];
      new;
      var parameter: Option<string> := None;
      for i := 0 to |args|
        invariant ParserState(parameter, parameters) == Scan(args[..i])
      {
        assert args[..i + 1][..i] == args[..i];
        var parts := Split(args[i]);
        if |parts| == 1 {
          if parameter.Some? {
            if Lower(parameter.value) !in parameters {
              parameters := parameters[Lower(parameter.value) := StripQuotes(parts[0])];
            }
            parameter := None;
          }
        } else if |parts| == 2 {
          if parameter.Some? {
            if Lower(parameter.value) !in parameters {
              parameters := parameters[Lower(parameter.value) := "true"];
            }
          }
          parameter := Some(parts[1]);
        } else {
          if parameter.Some? {
            if Lower(parameter.value) !in parameters {
              parameters := parameters[Lower(parameter.value) := "true"];
            }
          }
          parameter := Some(parts[1]);
          if Lower(parameter.value) !in parameters {
            parameters := parameters[Lower(parameter.value) := StripQuotes(parts[2])];
          }
          parameter := None;
        }
      }
      assert args[..|args|] == args;
      if parameter.Some? {
        if Lower(parameter.value) !in parameters {
          parameters := parameters[Lower(parameter.value) := "true"];
        }
      }
    }

    function Item(name: string): Option<string>
      reads this
    {
      Lookup(parameters, name)
    }

    function Get(name: string, default: string): string
      reads this
    {
      GetString(parameters, name, default)
    }

    function GetBool(name: string, default: bool): Result<bool>
      reads this
    {
      GetBoolean(parameters, name, default)
    }

    function ShouldShowHelp(): Result<bool>
      reads this
    {
      HelpRequested(parameters)
    }
  }
}
