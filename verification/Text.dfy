/**
 Text handling on both sides of the wire: trimming, the command line of the
 terminal client, and the validation of names and message contents on the
 server. A char stands for one byte of the original std::string; the character
 tests are those of the C locale.
 */
module Text {
  import opened Core

  const MAX_CONTENT_LENGTH: nat := 4096
  const MAX_CHANNEL_NAME_LENGTH: nat := 64
  const MAX_USERNAME_LENGTH: nat := 32

  predicate IsSpace(c: char) {
    c == ' ' || '\t' <= c <= '\r'
  }

  predicate IsAlnum(c: char) {
    '0' <= c <= '9' || 'A' <= c <= 'Z' || 'a' <= c <= 'z'
  }

  // The characters that isspace accepts in the C locale, by their codes: tab, line
  // feed, vertical tab, form feed, carriage return and blank.
  lemma SpaceIs(c: char)
    ensures IsSpace(c) <==> c as int in {9, 10, 11, 12, 13, 32}
  {
    assert '\t' as int == 9 && '\r' as int == 13 && ' ' as int == 32;
  }

  // ----- Trimming -----

  function TrimStart(s: string): string {
    if s != [] && IsSpace(s[0]) then TrimStart(s[1..]) else s
  }

  function TrimEnd(s: string): string {
    if s != [] && IsSpace(s[|s| - 1]) then TrimEnd(s[..|s| - 1]) else s
  }

  function Trim(s: string): string {
    TrimEnd(TrimStart(s))
  }

  ghost predicate SpaceBetween(s: string, lo: nat, hi: nat)
    requires lo <= hi <= |s|
  {
    forall i :: lo <= i < hi ==> IsSpace(s[i])
  }

  // Neither end is whitespace; the empty string qualifies.
  predicate Trimmed(s: string) {
    s == [] || (!IsSpace(s[0]) && !IsSpace(s[|s| - 1]))
  }

  // s[lo..hi] is an inner slice with nothing but whitespace cut off on either side.
  ghost predicate InnerSlice(s: string, lo: nat, hi: nat) {
    && lo <= hi <= |s|
    && SpaceBetween(s, 0, lo) && SpaceBetween(s, hi, |s|)
    && (lo < hi ==> !IsSpace(s[lo]) && !IsSpace(s[hi - 1]))
  }

  lemma {:induction false} TrimStartSlice(s: string) returns (lo: nat)
    ensures lo <= |s| && TrimStart(s) == s[lo..] && SpaceBetween(s, 0, lo)
    ensures lo == |s| || !IsSpace(s[lo])
  {
    lo := 0;
    if s != [] && IsSpace(s[0]) {
      var k := TrimStartSlice(s[1..]);
      lo := k + 1;
      assert s[1..][k..] == s[lo..];
      assert forall i :: 0 < i < lo ==> s[i] == s[1..][i - 1];
    }
  }

  lemma {:induction false} TrimEndSlice(s: string) returns (hi: nat)
    ensures hi <= |s| && TrimEnd(s) == s[..hi] && SpaceBetween(s, hi, |s|)
    ensures hi == 0 || !IsSpace(s[hi - 1])
  {
    hi := |s|;
    if s != [] && IsSpace(s[|s| - 1]) {
      var t := s[..|s| - 1];
      hi := TrimEndSlice(t);
      assert t[..hi] == s[..hi];
      assert forall i :: hi <= i < |s| - 1 ==> s[i] == t[i];
    }
  }

  // Trim cuts exactly the whitespace off both ends.
  lemma TrimIsInnerSlice(s: string) returns (lo: nat, hi: nat)
    ensures InnerSlice(s, lo, hi) && Trim(s) == s[lo..hi]
  {
    lo := TrimStartSlice(s);
    var t := s[lo..];
    var k := TrimEndSlice(t);
    hi := lo + k;
    assert t[..k] == s[lo..hi];
    assert forall i :: hi <= i < |s| ==> s[i] == t[i - lo];
    assert k > 0 ==> t[k - 1] == s[hi - 1];
  }

  // ... and it is the only string obtained that way.
  lemma TrimIsTheInnerSlice(s: string, lo: nat, hi: nat)
    requires InnerSlice(s, lo, hi)
    ensures Trim(s) == s[lo..hi]
  {
    var a, b := TrimIsInnerSlice(s);
    assert (lo < hi) == (a < b);
  }

  lemma TrimIdempotent(s: string)
    ensures Trimmed(Trim(s)) && Trim(Trim(s)) == Trim(s)
  {
    var lo, hi := TrimIsInnerSlice(s);
    var t := Trim(s);
    assert t[0..|t|] == t;
    TrimIsTheInnerSlice(t, 0, |t|);
  }

  lemma TrimOfTrimmed(s: string)
    requires Trimmed(s)
    ensures Trim(s) == s
  {
    assert s[0..|s|] == s;
    TrimIsTheInnerSlice(s, 0, |s|);
  }

  // The two loops of the original: shrink a view from the front, then from the back.
  method TrimView(input: string) returns (view: string)
    ensures view == Trim(input)
    ensures Trimmed(view)
  {
    view := input;
    while view != [] && IsSpace(view[0])
      invariant TrimStart(view) == TrimStart(input)
      decreases |view|
    {
      view := view[1..];
    }
    ghost var front := view;
    while view != [] && IsSpace(view[|view| - 1])
      invariant TrimEnd(view) == TrimEnd(front)
      decreases |view|
    {
      view := view[..|view| - 1];
    }
    TrimIdempotent(input);
  }

  // ----- Validation on the server -----

  function CreateContent(raw: string): Result<string> {
    var trimmed := Trim(raw);
    if trimmed == [] then Err(MessageEmpty)
    else if |trimmed| > MAX_CONTENT_LENGTH then Err(MessageTooLong)
    else if trimmed[0] == '/' then Err(MessageInvalidPrefix)
    else Ok(trimmed)
  }

  function CreateChannelName(raw: string): Option<ChannelName> {
    if |raw| < 1 || |raw| > MAX_CHANNEL_NAME_LENGTH then None
    else if forall i :: 0 <= i < |raw| ==> IsAlnum(raw[i]) || raw[i] == '-' then Some(ChannelName(raw))
    else None
  }

  function CreateUsername(raw: string): Option<Username> {
    if |raw| < 1 || |raw| > MAX_USERNAME_LENGTH then None
    else if forall i :: 0 <= i < |raw| ==> IsAlnum(raw[i]) || raw[i] == '_' || raw[i] == '-' then Some(Username(raw))
    else None
  }

  const CAPITALS := "ABCDEFGHIJKLMNOPQRSTUVWXYZ"
  const SMALL_LETTERS := "abcdefghijklmnopqrstuvwxyz"
  const DIGITS := "0123456789"

  // Listed in the order of their codes.
  ghost predicate InARow(q: string) {
    forall i :: 0 <= i < |q| ==> q[i] as int == q[0] as int + i
  }

  lemma RangeOf(q: string, c: char)
    requires q != [] && InARow(q)
    ensures c in q <==> q[0] <= c <= q[|q| - 1]
  {
    if q[0] <= c <= q[|q| - 1] {
      assert q[c as int - q[0] as int] == c;
    }
  }

  // The characters that isalnum accepts in the C locale, one by one.
  lemma AlnumIs(c: char)
    ensures IsAlnum(c) <==> c in CAPITALS || c in SMALL_LETTERS || c in DIGITS
  {
    RangeOf(CAPITALS, c);
    RangeOf(SMALL_LETTERS, c);
    RangeOf(DIGITS, c);
  }

  // A name is accepted unchanged or not at all: exactly if it has a permitted length and
  // consists of letters, digits and a few signs; so no accepted name needs trimming.
  lemma NameAcceptedIff(raw: string)
    ensures CreateChannelName(raw).Some?
      <==> 1 <= |raw| <= 64 && forall c :: c in raw ==> c in CAPITALS || c in SMALL_LETTERS || c in DIGITS + "-"
    ensures CreateUsername(raw).Some?
      <==> 1 <= |raw| <= 32 && forall c :: c in raw ==> c in CAPITALS || c in SMALL_LETTERS || c in DIGITS + "_-"
    ensures CreateChannelName(raw).Some? ==> CreateChannelName(raw).value.value == raw && Trim(raw) == raw
    ensures CreateUsername(raw).Some? ==> CreateUsername(raw).value.value == raw && Trim(raw) == raw
  {
    forall c ensures IsAlnum(c) <==> c in CAPITALS || c in SMALL_LETTERS || c in DIGITS {
      AlnumIs(c);
    }
    assert forall i :: 0 <= i < |raw| ==> raw[i] in raw;
    if CreateChannelName(raw).Some? || CreateUsername(raw).Some? {
      TrimOfTrimmed(raw);
    }
    hide Trim; hide IsAlnum;
  }

  // ----- The command line of the terminal client -----

  datatype ParsedCommand =
    | Join(arg: string) | Create(arg: string)
    | Leave | List | Quit
    | Unknown(arg: string)
    | PlainText

  const JOIN_PREFIX := "/join "
  const CREATE_PREFIX := "/create "

  function ParseCommand(input: string): ParsedCommand {
    var trimmed := Trim(input);
    if JOIN_PREFIX <= trimmed then Join(Trim(trimmed[|JOIN_PREFIX|..]))
    else if CREATE_PREFIX <= trimmed then Create(Trim(trimmed[|CREATE_PREFIX|..]))
    else if trimmed == "/leave" then Leave
    else if trimmed == "/list" then List
    else if trimmed == "/quit" then Quit
    else if "/" <= trimmed then Unknown(trimmed)
    else PlainText
  }

  // What the client sends when the user submits a line: nothing, or a message text.
  function SubmittedText(line: string): Option<string> {
    var input := Trim(line);
    if ParseCommand(input).PlainText? && input != [] then Some(input) else None
  }

  // A submitted line reaches the server in a form that it can refuse for its
  // length only; the stored content is exactly the trimmed line.
  lemma SubmittedTextAccepted(line: string)
    requires SubmittedText(line).Some?
    ensures CreateContent(Trim(SubmittedText(line).value))
            == if |Trim(line)| <= MAX_CONTENT_LENGTH then Ok(Trim(line)) else Err(MessageTooLong)
  {
    TrimIdempotent(line);
    SlashPrefix(Trim(line));
  }

  lemma SlashPrefix(s: string)
    ensures "/" <= s <==> s != [] && s[0] == '/'
    ensures (JOIN_PREFIX <= s || CREATE_PREFIX <= s) ==> "/" <= s
  {
  }

  // Conversely every content that the server accepts can be typed: submitting it
  // sends it unchanged.
  lemma AcceptedContentCanBeTyped(raw: string)
    requires CreateContent(raw).Ok?
    ensures SubmittedText(raw) == Some(CreateContent(raw).value)
  {
    TrimIdempotent(raw);
    SlashPrefix(Trim(raw));
  }

  // The text after a prefix that ends in a blank, in a trimmed line, is never blank.
  lemma ArgumentNotBlank(trimmed: string, prefix: string)
    requires Trimmed(trimmed) && prefix <= trimmed
    requires |prefix| > 0 && IsSpace(prefix[|prefix| - 1])
    ensures Trim(trimmed[|prefix|..]) != [] && Trimmed(Trim(trimmed[|prefix|..]))
  {
    var rest := trimmed[|prefix|..];
    assert trimmed[|prefix| - 1] == prefix[|prefix| - 1];
    var lo, hi := TrimIsInnerSlice(rest);
    assert !IsSpace(rest[|rest| - 1]);
    TrimIdempotent(rest);
  }

  lemma ParsedArgumentNotBlank(input: string)
    requires ParseCommand(input).Join? || ParseCommand(input).Create?
    ensures ParseCommand(input).arg != [] && Trimmed(ParseCommand(input).arg)
  {
    TrimIdempotent(input);
    if ParseCommand(input).Join? {
      ArgumentNotBlank(Trim(input), JOIN_PREFIX);
    } else {
      ArgumentNotBlank(Trim(input), CREATE_PREFIX);
    }
  }

  // What a line is taken for: the three commands without an argument word by word, the
  // two with one by their first word, anything else after a slash is unknown and kept as
  // it is, and everything without one is text.
  lemma CommandKinds(input: string)
    ensures var command, line := ParseCommand(input), Trim(input);
      && (command.Leave? <==> line == "/leave") && (command.List? <==> line == "/list")
      && (command.Quit? <==> line == "/quit")
      && (command.Join? <==> |line| >= 6 && line[..6] == "/join ")
      && (command.Create? <==> |line| >= 8 && line[..8] == "/create ")
      && (command.PlainText? <==> line == [] || line[0] != '/')
      && (command.Unknown? ==> command.arg == line)
  {
    hide Trim;
    var line := Trim(input);
    SlashPrefix(line);
    assert JOIN_PREFIX <= line <==> |line| >= 6 && line[..6] == "/join ";
    assert CREATE_PREFIX <= line <==> |line| >= 8 && line[..8] == "/create ";
    assert JOIN_PREFIX <= line ==> line[5] == ' ' && line[1] == 'j';
    assert CREATE_PREFIX <= line ==> line[7] == ' ' && line[1] == 'c';
  }

  // Writing a command and parsing it back gives the argument, whatever it contains.
  lemma CommandRoundTrip(name: string)
    requires name != [] && Trimmed(name)
    ensures ParseCommand(JOIN_PREFIX + name) == Join(name)
    ensures ParseCommand(CREATE_PREFIX + name) == Create(name)
  {
    var join := JOIN_PREFIX + name;
    TrimOfTrimmed(name);
    assert join[|join| - 1] == name[|name| - 1];
    TrimOfTrimmed(join);
    assert join[|JOIN_PREFIX|..] == name;

    var create := CREATE_PREFIX + name;
    assert create[|create| - 1] == name[|name| - 1];
    TrimOfTrimmed(create);
    assert create[1] != JOIN_PREFIX[1];
    assert create[|CREATE_PREFIX|..] == name;
  }
}
