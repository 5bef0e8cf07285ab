/** jsonValueString in helpers.go: removing NUL escapes from JSON text with one regular expression. */
module JsonNulls {
  import opened Wrappers

  const NUL := "\\u0000"

  // ---------- the escapes of JSON text, section 7 of RFC 8259 ----------

  /** A character as it stands, a two-character escape, or \u and four digits. */
  datatype Token = Plain(c: char) | Escape(c: char) | Unicode(hex: string)

  const BACKSLASH := Escape('\\')
  const NUL_TOKEN := Unicode("0000")

  predicate IsHex(c: char) {
    '0' <= c <= '9' || 'a' <= c <= 'f' || 'A' <= c <= 'F'
  }

  predicate ValidToken(t: Token) {
    match t
    case Plain(c) => c != '\\'
    case Escape(c) => c != 'u'
    case Unicode(h) => |h| == 4 && IsHex(h[0]) && IsHex(h[1]) && IsHex(h[2]) && IsHex(h[3])
  }

  predicate Valid(ts: seq<Token>) {
    forall i :: 0 <= i < |ts| ==> ValidToken(ts[i])
  }

  function Text(t: Token): string {
    match t
    case Plain(c) => [c]
    case Escape(c) => ['\\', c]
    case Unicode(h) => ['\\', 'u'] + h
  }

  function Encode(ts: seq<Token>): string {
    if ts == [] then [] else Text(ts[0]) + Encode(ts[1..])
  }

  /** Reading the text from the left; None when it is not JSON text. */
  function Decode(text: string): Option<seq<Token>> {
    if text == [] then Some([])
    else if text[0] != '\\' then Cons(Plain(text[0]), Decode(text[1..]))
    else if |text| < 2 then None
    else if text[1] != 'u' then Cons(Escape(text[1]), Decode(text[2..]))
    else if |text| < 6 || !ValidToken(Unicode(text[2..6])) then None
    else Cons(Unicode(text[2..6]), Decode(text[6..]))
  }

  function Cons(t: Token, ts: Option<seq<Token>>): Option<seq<Token>> {
    if ts.None? then None else Some([t] + ts.value)
  }

  lemma {:induction false} DecodeEncode(ts: seq<Token>)
    requires Valid(ts)
    ensures Decode(Encode(ts)) == Some(ts)
  {
    if ts != [] {
      DecodeEncode(ts[1..]);
      var t, rest := ts[0], Encode(ts[1..]);
      assert ts == [t] + ts[1..];
      match t
      case Plain(c) => assert Encode(ts)[1..] == rest;
      case Escape(c) => assert Encode(ts)[2..] == rest;
      case Unicode(h) => assert Encode(ts)[2..6] == h && Encode(ts)[6..] == rest;
    }
  }

  lemma {:induction false} EncodeDecode(text: string)
    requires Decode(text).Some?
    ensures Valid(Decode(text).value) && Encode(Decode(text).value) == text
    decreases |text|
  {
    if text != [] {
      var n := if text[0] != '\\' then 1 else if text[1] != 'u' then 2 else 6;
      EncodeDecode(text[n..]);
      assert text == text[..n] + text[n..];
      var ts := Decode(text).value;
      assert ts[1..] == Decode(text[n..]).value;
      assert Text(ts[0]) == text[..n];
    }
  }

  // ---------- the regular expression ----------

  function Pairs(n: nat): (r: string)
    ensures |r| == 2 * n
  {
    if n == 0 then [] else "\\\\" + Pairs(n - 1)
  }

  function Nuls(n: nat): (r: string)
    ensures |r| == 6 * n
  {
    if n == 0 then [] else NUL + Nuls(n - 1)
  }

  /** ((?:^|[^\\])(?:\\\\)*)(?:\\u0000)+ matches the first e characters, its group the first g. */
  ghost predicate IsMatch(text: string, atStart: bool, g: nat, e: nat) {
    exists p: nat, k: nat, n: nat {:trigger Shape(text, atStart, p, k, n)} ::
      Shape(text, atStart, p, k, n) && g == p + 2 * k && e == g + 6 * n
  }

  predicate Shape(text: string, atStart: bool, p: nat, k: nat, n: nat) {
    && ((p == 0 && atStart) || (p == 1 && text != [] && text[0] != '\\'))
    && n >= 1
    && Pairs(k) + Nuls(n) <= text[p..]
  }

  function PairRun(text: string): (k: nat)
    ensures 2 * k <= |text|
  {
    if |text| >= 2 && text[..2] == "\\\\" then 1 + PairRun(text[2..]) else 0
  }

  function NulRun(text: string): (n: nat)
    ensures 6 * n <= |text|
  {
    if |text| >= 6 && text[..6] == NUL then 1 + NulRun(text[6..]) else 0
  }

  datatype Match = Match(group: nat, end: nat)

  /** Backslash pairs and NUL escapes from p on, as many as there are. */
  function MatchFrom(text: string, p: nat): (m: Option<Match>)
    requires p <= |text|
    ensures m.Some? ==> p <= m.value.group < m.value.end <= |text|
  {
    var g := p + 2 * PairRun(text[p..]);
    var n := NulRun(text[g..]);
    if n == 0 then None else Some(Match(g, g + 6 * n))
  }

  /** The alternatives in the order they are tried. */
  function MatchHere(text: string, atStart: bool): Option<Match> {
    if atStart && MatchFrom(text, 0).Some? then MatchFrom(text, 0)
    else if text != [] && text[0] != '\\' then MatchFrom(text, 1)
    else None
  }

  /** ReplaceAllString with $1: from the left, each match gives way to its group. */
  function ReplaceAll(text: string, atStart: bool): string
    decreases |text|
  {
    var m := MatchHere(text, atStart);
    if m.Some? then text[..m.value.group] + ReplaceAll(text[m.value.end..], false)
    else if text == [] then []
    else [text[0]] + ReplaceAll(text[1..], false)
  }

  predicate Contains(text: string, s: string) {
    exists i :: 0 <= i <= |text| && s <= text[i..]
  }

  function JsonText(text: string): string {
    if Contains(text, NUL) then ReplaceAll(text, true) else text
  }

  lemma {:induction false} PairRunIs(text: string, k: nat, rest: string)
    requires text == Pairs(k) + rest
    requires |rest| >= 2 ==> rest[..2] != "\\\\"
    ensures PairRun(text) == k && text[2 * k..] == rest
  {
    if k > 0 {
      var t := Pairs(k - 1) + rest;
      assert text[..2] == "\\\\" && text[2..] == t;
      PairRunIs(t, k - 1, rest);
    }
  }

  lemma {:induction false} NulRunIs(text: string, n: nat)
    ensures Nuls(n) <= text <==> n <= NulRun(text)
  {
    if n > 0 && |text| >= 6 {
      NulRunIs(text[6..], n - 1);
      assert Nuls(n) == NUL + Nuls(n - 1);
      assert text == text[..6] + text[6..];
    }
  }

  lemma {:induction false} PairRunPrefix(text: string)
    ensures Pairs(PairRun(text)) == text[..2 * PairRun(text)]
  {
    if PairRun(text) > 0 { PairRunPrefix(text[2..]); }
  }

  lemma PrefixSplit(a: string, b: string, t: string)
    requires a + b <= t
    ensures a <= t && b <= t[|a|..] && t == a + t[|a|..]
  {
    assert (a + b)[|a|..] == b && t[|a|..][..|b|] == t[|a|..|a + b|];
  }

  /** Pairs and NULs at the front of the text can be told apart in one way. */
  lemma {:induction false} RunsUnique(t: string, k: nat, n: nat)
    requires n >= 1 && Pairs(k) + Nuls(n) <= t
    ensures PairRun(t) == k && n <= NulRun(t[2 * k..])
  {
    var tail := t[2 * k..];
    PrefixSplit(Pairs(k), Nuls(n), t);
    assert tail[1] == 'u' by { PrefixSplit(NUL, Nuls(n - 1), tail); }
    PairRunIs(t, k, tail);
    NulRunIs(tail, n);
  }

  lemma RunsAre(t: string)
    ensures Pairs(PairRun(t)) + Nuls(NulRun(t[2 * PairRun(t)..])) <= t
  {
    var k := PairRun(t);
    PairRunPrefix(t);
    NulRunIs(t[2 * k..], NulRun(t[2 * k..]));
    assert t == t[..2 * k] + t[2 * k..];
  }

  /** The match taken is a match. */
  lemma MatchHereMatches(text: string, atStart: bool)
    ensures MatchHere(text, atStart).Some? ==>
      IsMatch(text, atStart, MatchHere(text, atStart).value.group, MatchHere(text, atStart).value.end)
  {
    hide PairRun, NulRun, Pairs, Nuls;
    if MatchHere(text, atStart).Some? {
      var p := if atStart && MatchFrom(text, 0).Some? then 0 else 1;
      var k := PairRun(text[p..]);
      assert text[p..][2 * k..] == text[p + 2 * k..];
      RunsAre(text[p..]);
      assert Shape(text, atStart, p, k, NulRun(text[p + 2 * k..]));
    }
  }

  /** And the longest: the group is the same in all. */
  lemma MatchHereIsGreedy(text: string, atStart: bool, g: nat, e: nat)
    requires IsMatch(text, atStart, g, e)
    ensures MatchHere(text, atStart).Some? && MatchHere(text, atStart).value.group == g &&
      e <= MatchHere(text, atStart).value.end
  {
    hide PairRun, NulRun, Pairs, Nuls;
    var p: nat, k: nat, n: nat :| Shape(text, atStart, p, k, n) && g == p + 2 * k && e == g + 6 * n;
    RunsUnique(text[p..], k, n);
    assert text[p..][2 * k..] == text[p + 2 * k..];
    if p == 1 { NoMatchAtPlain(text); }
  }

  /** Text that starts with anything but a backslash has no pairs or NULs at its front. */
  lemma NoMatchAtPlain(text: string)
    requires text != [] && text[0] != '\\'
    ensures MatchFrom(text, 0).None?
  {
    assert text[0..] == text;
  }

  // ---------- what it does to the escapes ----------

  /** Whether a match can start: a character that is no backslash is at hand, a NUL was just removed, or
      only escaped backslashes have come since one was. */
  datatype State = Ready | InRun | Blocked

  function Strip(ts: seq<Token>, st: State): seq<Token>
    decreases |ts|
  {
    if ts == [] then []
    else if ts[0] == NUL_TOKEN then
      if st == Blocked then [NUL_TOKEN] + Strip(ts[1..], Ready) else Strip(ts[1..], InRun)
    else if ts[0] == BACKSLASH then [BACKSLASH] + Strip(ts[1..], if st == Ready then Ready else Blocked)
    else [ts[0]] + Strip(ts[1..], Ready)
  }

  /** How many tokens at the front are this one. */
  function Run(t: Token, ts: seq<Token>): (n: nat)
    ensures n <= |ts|
  {
    if ts != [] && ts[0] == t then 1 + Run(t, ts[1..]) else 0
  }

  lemma {:induction false} RunStops(t: Token, ts: seq<Token>)
    ensures Run(t, ts) < |ts| ==> ts[Run(t, ts)] != t
  {
    if ts != [] && ts[0] == t { RunStops(t, ts[1..]); }
  }

  lemma EncodeHead(ts: seq<Token>)
    requires ts != []
    ensures Encode(ts) == Text(ts[0]) + Encode(ts[1..])
  {
  }

  lemma Associative(a: string, b: string, c: string)
    ensures a + (b + c) == (a + b) + c
  {
  }

  lemma {:induction false} EncodePairs(ts: seq<Token>)
    ensures Encode(ts) == Pairs(Run(BACKSLASH, ts)) + Encode(ts[Run(BACKSLASH, ts)..])
  {
    hide Encode;
    var n := Run(BACKSLASH, ts);
    if n == 0 {
      assert ts[n..] == ts;
    } else {
      EncodePairs(ts[1..]);
      EncodeHead(ts);
      assert ts[1..][n - 1..] == ts[n..];
      assert Text(BACKSLASH) == "\\\\";
      Associative("\\\\", Pairs(n - 1), Encode(ts[n..]));
    }
  }

  lemma {:induction false} EncodeNuls(ts: seq<Token>)
    ensures Encode(ts) == Nuls(Run(NUL_TOKEN, ts)) + Encode(ts[Run(NUL_TOKEN, ts)..])
  {
    hide Encode;
    var n := Run(NUL_TOKEN, ts);
    if n == 0 {
      assert ts[n..] == ts;
    } else {
      EncodeNuls(ts[1..]);
      EncodeHead(ts);
      assert ts[1..][n - 1..] == ts[n..];
      assert Text(NUL_TOKEN) == NUL;
      Associative(NUL, Nuls(n - 1), Encode(ts[n..]));
    }
  }

  lemma {:induction false} NulRunExactly(text: string, n: nat, rest: string)
    requires text == Nuls(n) + rest && !(NUL <= rest)
    ensures NulRun(text) == n && text[6 * n..] == rest
  {
    if n > 0 {
      var t := Nuls(n - 1) + rest;
      assert text == NUL + t;
      assert text[..6] == NUL && text[6..] == t;
      NulRunExactly(t, n - 1, rest);
    }
  }

  /** Only its own token starts with a pair, or with a NUL. */
  lemma FirstToken(ts: seq<Token>)
    requires Valid(ts) && ts != []
    ensures "\\\\" <= Encode(ts) ==> ts[0] == BACKSLASH
    ensures NUL <= Encode(ts) ==> ts[0] == NUL_TOKEN
    ensures ts[0].Plain? <==> Encode(ts)[0] != '\\'
  {
    var text, t := Encode(ts), Text(ts[0]);
    assert t <= text;
    assert text[0] == t[0] && (|t| > 1 ==> text[1] == t[1]);
    if NUL <= text {
      assert text[..6] == NUL && text[1] == 'u' && ts[0].Unicode?;
      assert text[..6] == t && t[2..] == ts[0].hex && NUL[2..] == "0000";
    }
  }

  lemma PairRunOfTokens(ts: seq<Token>)
    requires Valid(ts)
    ensures PairRun(Encode(ts)) == Run(BACKSLASH, ts) && 2 * Run(BACKSLASH, ts) <= |Encode(ts)|
    ensures Encode(ts)[..2 * Run(BACKSLASH, ts)] == Pairs(Run(BACKSLASH, ts))
    ensures Encode(ts)[2 * Run(BACKSLASH, ts)..] == Encode(ts[Run(BACKSLASH, ts)..])
  {
    var us := ts[Run(BACKSLASH, ts)..];
    EncodePairs(ts);
    RunStops(BACKSLASH, ts);
    if us != [] { FirstToken(us); }
    PairRunIs(Encode(ts), Run(BACKSLASH, ts), Encode(us));
  }

  lemma NulRunOfTokens(ts: seq<Token>)
    requires Valid(ts)
    ensures NulRun(Encode(ts)) == Run(NUL_TOKEN, ts) && 6 * Run(NUL_TOKEN, ts) <= |Encode(ts)|
    ensures Encode(ts)[6 * Run(NUL_TOKEN, ts)..] == Encode(ts[Run(NUL_TOKEN, ts)..])
  {
    var us := ts[Run(NUL_TOKEN, ts)..];
    EncodeNuls(ts);
    RunStops(NUL_TOKEN, ts);
    if us != [] { FirstToken(us); }
    NulRunExactly(Encode(ts), Run(NUL_TOKEN, ts), Encode(us));
  }

  /** What a match from some character on covers: pairs, then NULs, if there are any. */
  function NulsAfterPairs(ts: seq<Token>): nat {
    Run(NUL_TOKEN, ts[Run(BACKSLASH, ts)..])
  }

  function AfterMatch(ts: seq<Token>): seq<Token> {
    ts[Run(BACKSLASH, ts)..][NulsAfterPairs(ts)..]
  }

  lemma MatchFromTokens(before: string, ts: seq<Token>)
    requires Valid(ts)
    ensures MatchFrom(before + Encode(ts), |before|).Some? <==> NulsAfterPairs(ts) > 0
    ensures NulsAfterPairs(ts) > 0 ==>
      && var m := MatchFrom(before + Encode(ts), |before|).value;
      && (before + Encode(ts))[..m.group] == before + Pairs(Run(BACKSLASH, ts))
      && (before + Encode(ts))[m.end..] == Encode(AfterMatch(ts))
  {
    hide Encode, PairRun, NulRun, Run, Pairs, ValidToken;
    var k := Run(BACKSLASH, ts);
    var text, g := before + Encode(ts), |before| + 2 * k;
    PairRunOfTokens(ts);
    NulRunOfTokens(ts[k..]);
    assert text[|before|..] == Encode(ts);
    assert text[g..] == Encode(ts)[2 * k..];
    assert text[..g] == before + Encode(ts)[..2 * k];
    var n := NulRun(text[g..]);
    assert text[g + 6 * n..] == text[g..][6 * n..];
  }

  lemma {:induction false} StripNuls(ts: seq<Token>)
    ensures Strip(ts, InRun) == Strip(ts[Run(NUL_TOKEN, ts)..], Blocked)
  {
    if ts != [] && ts[0] == NUL_TOKEN {
      StripNuls(ts[1..]);
      assert ts[1..][Run(NUL_TOKEN, ts[1..])..] == ts[Run(NUL_TOKEN, ts)..];
    } else {
      assert ts[0..] == ts;
    }
  }

  lemma EncodeCons(t: Token, ts: seq<Token>)
    ensures Encode([t] + ts) == Text(t) + Encode(ts)
  {
    assert ([t] + ts)[1..] == ts;
  }

  /** Where there is a match the run of NULs goes and what follows is blocked; where there is none it makes
      no difference whether one could start. */
  lemma {:induction false} StripAtMatch(ts: seq<Token>)
    ensures NulsAfterPairs(ts) > 0 ==>
      Encode(Strip(ts, Ready)) == Pairs(Run(BACKSLASH, ts)) + Encode(Strip(AfterMatch(ts), Blocked))
    ensures NulsAfterPairs(ts) == 0 ==> Strip(ts, Ready) == Strip(ts, Blocked)
  {
    if ts != [] && ts[0] == BACKSLASH {
      StripAtMatch(ts[1..]);
      assert ts[1..][Run(BACKSLASH, ts[1..])..] == ts[Run(BACKSLASH, ts)..];
      EncodeCons(BACKSLASH, Strip(ts[1..], Ready));
    } else {
      assert ts[0..] == ts;
      if ts != [] && ts[0] == NUL_TOKEN { StripNuls(ts); }
    }
  }

  /** Two plain steps: no match starts at a backslash, nor at a character before no NULs. */
  lemma NoMatchStep(c: char, text: string)
    requires c == '\\' || MatchFrom([c] + text, 1).None?
    ensures ReplaceAll([c] + text, false) == [c] + ReplaceAll(text, false)
  {
    assert ([c] + text)[1..] == text;
  }

  lemma NoNulHere(c: char, d: char, text: string)
    requires d != '\\'
    ensures MatchFrom([c, d] + text, 1).None?
  {
    assert ([c, d] + text)[1..][0] == d;
    assert ([c, d] + text)[1..][0..] == ([c, d] + text)[1..];
  }

  /** From a character that a match can start at. */
  lemma {:induction false} AnchoredText(c: char, ts: seq<Token>)
    requires Valid(ts) && c != '\\'
    ensures ReplaceAll([c] + Encode(ts), false) == [c] + Encode(Strip(ts, Ready))
    decreases |ts|, 1
  {
    hide Encode, Strip, Run, MatchFrom, ValidToken, Pairs;
    MatchFromTokens([c], ts);
    StripAtMatch(ts);
    if NulsAfterPairs(ts) > 0 {
      BlockedText(AfterMatch(ts));
    } else {
      NoMatchStep(c, Encode(ts));
      BlockedText(ts);
    }
  }

  /** Where no match can start until another character comes. */
  lemma {:induction false} BlockedText(ts: seq<Token>)
    requires Valid(ts)
    ensures ReplaceAll(Encode(ts), false) == Encode(Strip(ts, Blocked))
    decreases |ts|, 0
  {
    if ts != [] {
      hide ReplaceAll, MatchFrom, Encode, Strip, ValidToken;
      var rest := ts[1..];
      assert ts == [ts[0]] + rest;
      EncodeCons(ts[0], rest);
      StripBlocked(ts);
      if ts[0] == BACKSLASH {
        BackslashText(Encode(rest));
        BlockedText(rest);
      } else {
        var t := Text(ts[0]);
        TokenText(ts[0], Encode(rest));
        AnchoredText(t[|t| - 1], rest);
        InitLast(t, Encode(Strip(rest, Ready)));
      }
    }
  }

  lemma InitLast(t: string, rest: string)
    requires t != []
    ensures t[..|t| - 1] + ([t[|t| - 1]] + rest) == t + rest
  {
    assert t == t[..|t| - 1] + [t[|t| - 1]];
  }

  lemma StripBlocked(ts: seq<Token>)
    requires ts != []
    ensures Encode(Strip(ts, Blocked)) ==
      Text(ts[0]) + Encode(Strip(ts[1..], if ts[0] == BACKSLASH then Blocked else Ready))
  {
    EncodeCons(ts[0], Strip(ts[1..], if ts[0] == BACKSLASH then Blocked else Ready));
  }

  lemma BackslashText(text: string)
    ensures ReplaceAll(Text(BACKSLASH) + text, false) == Text(BACKSLASH) + ReplaceAll(text, false)
  {
    assert Text(BACKSLASH) + text == ['\\'] + (['\\'] + text);
    NoMatchStep('\\', ['\\'] + text);
    NoMatchStep('\\', text);
  }

  /** Nothing matches inside an escape: only its last character can start a match. */
  lemma TokenText(t: Token, text: string)
    requires ValidToken(t) && t != BACKSLASH
    ensures
      var last := Text(t)[|Text(t)| - 1];
      && last != '\\'
      && ReplaceAll(Text(t) + text, false) == Text(t)[..|Text(t)| - 1] + ReplaceAll([last] + text, false)
  {
    hide ReplaceAll, MatchFrom;
    match t
    case Plain(c) =>
    case Escape(c) =>
      assert Text(t) + text == ['\\'] + ([c] + text);
      NoMatchStep('\\', [c] + text);
    case Unicode(h) =>
      UnicodeText(h, text);
      assert Text(t)[..5] == ['\\', 'u', h[0], h[1], h[2]];
  }

  lemma PlainStep(c: char, d: char, text: string)
    requires d != '\\'
    ensures ReplaceAll([c] + ([d] + text), false) == [c] + ReplaceAll([d] + text, false)
  {
    hide ReplaceAll, MatchFrom;
    assert [c] + ([d] + text) == [c, d] + text;
    NoNulHere(c, d, text);
    NoMatchStep(c, [d] + text);
  }

  lemma OneByOne(a: char, b: char, c: char, d: char, e: char, rest: string)
    ensures [a, b, c, d, e] + rest == [a] + ([b] + ([c] + ([d] + ([e] + rest))))
  {
    assert [d, e] + rest == [d] + ([e] + rest);
    assert [c, d, e] + rest == [c] + ([d, e] + rest);
    assert [b, c, d, e] + rest == [b] + ([c, d, e] + rest);
  }

  lemma UnicodeText(h: string, text: string)
    requires ValidToken(Unicode(h))
    ensures ReplaceAll(Text(Unicode(h)) + text, false) ==
      ['\\', 'u', h[0], h[1], h[2]] + ReplaceAll([h[3]] + text, false)
  {
    var t3 := [h[3]] + text;
    var t2 := [h[2]] + t3;
    var t1 := [h[1]] + t2;
    var t0 := [h[0]] + t1;
    assert Text(Unicode(h)) + text == ['\\', 'u', h[0], h[1], h[2]] + t3;
    assert forall i :: 0 <= i < 4 ==> h[i] != '\\';
    hide *;
    OneByOne('\\', 'u', h[0], h[1], h[2], t3);
    PlainStep('\\', 'u', t0);
    PlainStep('u', h[0], t1);
    PlainStep(h[0], h[1], t2);
    PlainStep(h[1], h[2], t3);
    PlainStep(h[2], h[3], text);
    OneByOne('\\', 'u', h[0], h[1], h[2], ReplaceAll(t3, false));
  }

  lemma StartText(ts: seq<Token>)
    requires Valid(ts)
    ensures ReplaceAll(Encode(ts), true) == Encode(Strip(ts, Ready))
  {
    hide Encode, Strip, Run, MatchFrom, ValidToken;
    var text := Encode(ts);
    MatchFromTokens([], ts);
    assert [] + text == text && [] + Pairs(Run(BACKSLASH, ts)) == Pairs(Run(BACKSLASH, ts));
    StripAtMatch(ts);
    if NulsAfterPairs(ts) > 0 {
      BlockedText(AfterMatch(ts));
    } else {
      assert ReplaceAll(text, true) == ReplaceAll(text, false);
      BlockedText(ts);
    }
  }

  lemma {:induction false} TextContainsToken(ts: seq<Token>)
    requires NUL_TOKEN in ts
    ensures Contains(Encode(ts), NUL)
  {
    var text := Encode(ts);
    if ts[0] == NUL_TOKEN {
      assert Text(NUL_TOKEN) == NUL;
      assert text[0..] == text && NUL <= text[0..];
    } else {
      TextContainsToken(ts[1..]);
      var n := |Text(ts[0])|;
      assert text[n..] == Encode(ts[1..]);
      var i :| 0 <= i <= |text[n..]| && NUL <= text[n..][i..];
      assert text[n..][i..] == text[n + i..];
    }
  }

  lemma {:induction false} StripWithoutNul(ts: seq<Token>, st: State)
    requires NUL_TOKEN !in ts
    ensures Strip(ts, st) == ts
  {
    if ts != [] {
      StripWithoutNul(ts[1..], if ts[0] == BACKSLASH then if st == Ready then Ready else Blocked else Ready);
    }
  }

  lemma {:induction false} StripValid(ts: seq<Token>, st: State)
    requires Valid(ts)
    ensures Valid(Strip(ts, st))
    decreases |ts|
  {
    if ts != [] {
      StripValid(ts[1..], Ready);
      StripValid(ts[1..], InRun);
      StripValid(ts[1..], Blocked);
    }
  }

  /** For any JSON text: what comes out is JSON text, and its tokens are the stripped ones. */
  lemma JsonTextStrips(text: string)
    requires Decode(text).Some?
    ensures Decode(JsonText(text)) == Some(Strip(Decode(text).value, Ready))
  {
    var ts := Decode(text).value;
    EncodeDecode(text);
    StripValid(ts, Ready);
    DecodeEncode(Strip(ts, Ready));
    StartText(ts);
    if !Contains(text, NUL) {
      if NUL_TOKEN in ts { TextContainsToken(ts); }
      StripWithoutNul(ts, Ready);
    }
  }

  function Others(ts: seq<Token>): seq<Token> {
    if ts == [] then [] else (if ts[0] == NUL_TOKEN then [] else [ts[0]]) + Others(ts[1..])
  }

  /** Nothing but NULs is deleted: the other tokens stay, in order, escaped backslashes before "u0000" too. */
  lemma {:induction false} OnlyNulsDeleted(ts: seq<Token>, st: State)
    ensures Others(Strip(ts, st)) == Others(ts)
    decreases |ts|
  {
    if ts != [] {
      var next := if ts[0] == NUL_TOKEN then if st == Blocked then Ready else InRun
                  else if ts[0] == BACKSLASH && st != Ready then Blocked else Ready;
      var rest := Strip(ts[1..], next);
      OnlyNulsDeleted(ts[1..], next);
      assert ([ts[0]] + rest)[1..] == rest;
    }
  }

  /** Escaped backslashes, possibly none, and then a NUL. */
  predicate NulNext(ts: seq<Token>) {
    ts != [] && (ts[0] == NUL_TOKEN || (ts[0] == BACKSLASH && NulNext(ts[1..])))
  }

  /** At least one escaped backslash, and then a NUL. */
  predicate NulBehindBackslash(ts: seq<Token>) {
    ts != [] && ts[0] == BACKSLASH && NulNext(ts[1..])
  }

  /** Some NUL is separated from one before it by escaped backslashes alone. */
  ghost predicate Separated(ts: seq<Token>) {
    exists i :: 0 <= i < |ts| && ts[i] == NUL_TOKEN && NulBehindBackslash(ts[i + 1..])
  }

  lemma SeparatedTail(ts: seq<Token>)
    requires ts != []
    ensures Separated(ts) <==> Separated(ts[1..]) || (ts[0] == NUL_TOKEN && NulBehindBackslash(ts[1..]))
  {
    if i :| 0 <= i < |ts[1..]| && ts[1..][i] == NUL_TOKEN && NulBehindBackslash(ts[1..][i + 1..]) {
      assert ts[1..][i + 1..] == ts[i + 1 + 1..] && ts[i + 1] == NUL_TOKEN;
    }
    if i :| 0 <= i < |ts| && ts[i] == NUL_TOKEN && NulBehindBackslash(ts[i + 1..]) {
      if i > 0 { assert ts[1..][i - 1] == NUL_TOKEN && ts[1..][i - 1 + 1..] == ts[i + 1..]; }
    }
    if ts[0] == NUL_TOKEN && NulBehindBackslash(ts[1..]) { assert ts[0 + 1..] == ts[1..]; }
  }

  lemma {:induction false} NulLeftExactlyWhen(ts: seq<Token>, st: State)
    ensures NUL_TOKEN in Strip(ts, st) <==>
      Separated(ts) || (st == Blocked && NulNext(ts)) || (st == InRun && NulBehindBackslash(ts))
    decreases |ts|
  {
    if ts != [] {
      SeparatedTail(ts);
      var next := if ts[0] == NUL_TOKEN then if st == Blocked then Ready else InRun
                  else if ts[0] == BACKSLASH && st != Ready then Blocked else Ready;
      NulLeftExactlyWhen(ts[1..], next);
    }
  }

  /** No NUL is left exactly when none is separated from an earlier one by escaped backslashes alone. */
  lemma NulsGoneExactlyWhen(text: string)
    requires Decode(text).Some?
    ensures Decode(JsonText(text)).Some?
    ensures NUL_TOKEN !in Decode(JsonText(text)).value <==> !Separated(Decode(text).value)
    ensures Others(Decode(JsonText(text)).value) == Others(Decode(text).value)
  {
    JsonTextStrips(text);
    NulLeftExactlyWhen(Decode(text).value, Ready);
    OnlyNulsDeleted(Decode(text).value, Ready);
  }
}
