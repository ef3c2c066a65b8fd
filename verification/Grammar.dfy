/** Nothing but documents can be read: a text is read as given values exactly when it is a document
    that stands for them and nests within the limit. */
module Grammar {
  import opened Forms
  import opened Syntax
  import opened RoundTrip
  import opened Documents

  // ---- a text cut into tokens ----

  datatype Lexed = LastOf(gap: Gap) | Next(gap: Gap, text: string, token: Token, rest: Lexed)

  function LexedText(l: Lexed): string {
    match l
    case LastOf(g) => GapText(g)
    case Next(g, text, _, rest) => GapText(g) + text + LexedText(rest)
  }

  function LexedTokens(l: Lexed): seq<Token> {
    match l
    case LastOf(_) => [Eof]
    case Next(_, _, t, rest) => [t] + LexedTokens(rest)
  }

  predicate Quoted(text: string, s: string) {
    |text| >= 2 && text[0] == '"' && text[|text| - 1] == '"' && Quotes(text[1..|text| - 1], s)
  }

  predicate NumberText(text: string) {
    StartsNumber(text) && forall k :: 0 < k < |text| ==> IsDigit(text[k]) || text[k] == '.'
  }

  predicate NameText(text: string) {
    text != "" && IsSymbolStart(text[0]) && text[0] != '~' && !StartsNumber(text) && KeywordOk(text)
  }

  /** How a token is written in a dialect. */
  predicate Writes(text: string, t: Token, flags: Flags) {
    match t
    case LParen => text == "("
    case RParen => text == ")"
    case LBracket => text == "[" && flags.brackets
    case RBracket => text == "]" && flags.brackets
    case LBrace => text == "{" && flags.brackets
    case RBrace => text == "}" && flags.brackets
    case Tick => text == "'"
    case Backtick => text == "`"
    case Tilde => text == "~"
    case TildeAt => text == "~@"
    case At => text == "@"
    case Hash => text == "#"
    case FunctionRef => text == "#'" && flags.functionRef
    case HashParen => text == "#(" && flags.readerVector
    case Text(s) => Quoted(text, s)
    case Number(v) => text == v && NumberText(v)
    case Name(v) => text == v && NameText(v)
    case Keyword(v) => text == ":" + v && KeywordOk(v)
    case Eof => false
  }

  /** A token ends where it must. */
  predicate EndsBefore(t: Token, rest: string) {
    (t.Name? || t.Keyword? ==> Stop(rest)) && (t.Number? ==> NumberStop(rest))
  }

  predicate LexedOk(l: Lexed, flags: Flags) {
    match l
    case LastOf(g) => GapOk(g, true)
    case Next(g, text, t, rest) =>
      GapOk(g) && Writes(text, t, flags) && EndsBefore(t, LexedText(rest)) && LexedOk(rest, flags)
  }

  // ---- cutting ----

  lemma {:induction false} CommentSplits(s: string)
    ensures var c := Comment(s);
      && |c| <= |s| && s[|s| - |c|..] == c && (c == "" || c[0] == '\n' || c[0] == '\0')
      && '\n' !in s[..|s| - |c|] && '\0' !in s[..|s| - |c|]
  {
    if s == "" || s[0] == '\n' || s[0] == '\0' {
      assert s[..0] == "" && s[0..] == s;
    } else {
      CommentSplits(s[1..]);
      var c := Comment(s[1..]);
      assert s[..|s| - |c|] == [s[0]] + s[1..][..|s| - 1 - |c|];
      assert s[|s| - |c|..] == s[1..][|s| - 1 - |c|..];
    }
  }

  /** What is skipped before a token is a gap. */
  lemma {:induction false} StartSplits(s: string) returns (g: Gap)
    requires Start(s) == "" || Start(s)[0] != '\0'
    ensures GapOk(g, Start(s) == "") && GapText(g) + Start(s) == s
    decreases |s|
  {
    if s == "" {
      g := NoGap;
    } else if s[0] in " \t\n\r," {
      assert s == [s[0]] + s[1..];
      BlankSkipped(s[0], s[1..]);
      var rest := StartSplits(s[1..]);
      g := Space(s[0], rest);
      assert GapText(g) + Start(s) == [s[0]] + (GapText(rest) + Start(s));
    } else if s[0] == ';' {
      g := RemarkSplits(s);
    } else {
      StartHere(s);
      g := NoGap;
    }
  }

  lemma {:induction false} RemarkSplits(s: string) returns (g: Gap)
    requires s != "" && s[0] == ';' && (Start(s) == "" || Start(s)[0] != '\0')
    ensures GapOk(g, Start(s) == "") && GapText(g) + Start(s) == s
    decreases |s|, 0
  {
    hide Start, Comment;
    var c, text := RemarkText(s);
    if c == "" {
      g := LastRemark(text);
      assert Start(c) == "" by { StartNothing(); }
      assert ";" + text + "" == s;
    } else if c[0] == '\0' {
      StartHere(c);
      assert false;
    } else {
      assert c == "\n" + c[1..];
      BlankSkipped('\n', c[1..]);
      var rest := StartSplits(c[1..]);
      g := Remark(text, rest);
      assert GapText(g) + Start(s) == ";" + text + "\n" + (GapText(rest) + Start(s));
      assert ";" + text + "\n" + c[1..] == ";" + text + c;
    }
  }

  lemma {:induction false} StartNothing()
    ensures Start("") == ""
  {
  }

  lemma {:induction false} RemarkText(s: string) returns (c: string, text: string)
    requires s != "" && s[0] == ';'
    ensures s == ";" + text + c && '\n' !in text && '\0' !in text && (c == "" || c[0] == '\n' || c[0] == '\0')
    ensures Start(s) == Start(c) && |c| < |s|
  {
    CommentSplits(s[1..]);
    c := Comment(s[1..]);
    text := s[1..][..|s| - 1 - |c|];
    assert s[1..] == text + c;
    assert s == ";" + s[1..];
    assert Comment(s) == c;
    assert Blank(s) == s;
  }

  lemma {:induction false} SymbolEnds(s: string)
    ensures Stop(s[SymbolLen(s)..])
  {
    if s != "" && IsSymbolChar(s[0]) {
      SymbolEnds(s[1..]);
      assert s[SymbolLen(s)..] == s[1..][SymbolLen(s[1..])..];
    }
  }

  lemma {:induction false} NumberEnds(s: string)
    ensures var n := NumberLen(s);
      NumberStop(s[n..]) && forall k :: 0 <= k < n ==> IsDigit(s[k]) || s[k] == '.'
  {
    if s != "" && (IsDigit(s[0]) || s[0] == '.') {
      NumberEnds(s[1..]);
      var n := NumberLen(s[1..]);
      assert s[n + 1..] == s[1..][n..];
      assert forall k :: 0 < k < n + 1 ==> s[k] == s[1..][k - 1];
    }
  }

  lemma {:induction false} UnescapeIs(e: char)
    ensures Unescape(e).Some? ==> Escaped(e, Unescape(e).value)
  {
  }

  lemma {:induction false} BodySplits(s: string) returns (body: string)
    requires Body(s).Good?
    ensures var p := Body(s).value; Quotes(body, p.0) && s == body + "\"" + p.1
    decreases |s|
  {
    if s[0] == '"' {
      body := "";
      assert s == "\"" + s[1..];
    } else if s[0] == '\\' {
      UnescapeIs(s[1]);
      var more := BodySplits(s[2..]);
      body := s[..2] + more;
      var p, q := Body(s).value, Body(s[2..]).value;
      assert body[2..] == more && p.0[1..] == q.0 && body[1] == s[1];
      assert s == s[..2] + s[2..];
    } else {
      var more := BodySplits(s[1..]);
      body := [s[0]] + more;
      var p, q := Body(s).value, Body(s[1..]).value;
      assert body[1..] == more && p.0[1..] == q.0;
      assert s == [s[0]] + s[1..];
    }
  }

  lemma {:induction false} TextSplits(t: string) returns (text: string)
    requires t != "" && t[0] == '"' && Body(t[1..]).Good?
    ensures var p := Body(t[1..]).value; Quoted(text, p.0) && t == text + p.1
  {
    var body := BodySplits(t[1..]);
    var p := Body(t[1..]).value;
    text := "\"" + body + "\"";
    assert text[1..|text| - 1] == body;
    assert t == "\"" + t[1..];
    assert t == text + p.1;
  }

  /** What is scanned is a token as it is written. */
  lemma {:induction false} ScanSplits(s: string, flags: Flags) returns (text: string)
    requires Scan(s, flags).Good? && Scan(s, flags).value.0 != Eof
    ensures var (t, rest) := Scan(s, flags).value;
      Start(s) == text + rest && Writes(text, t, flags) && EndsBefore(t, rest)
  {
    hide Start, Body, SymbolLen, NumberLen, Quoted, Stop, NumberStop, IsSymbolStart, StartsNumber, KeywordOk, IsSpace;
    var (t, rest) := Scan(s, flags).value;
    var u := Start(s);
    if t.Text? {
      TextStarts(s, flags);
      text := TextSplits(u);
    } else if t.Number? {
      text := t.v;
      NumberToken(s, flags);
    } else if t.Name? {
      text := t.v;
      NameToken(s, flags);
    } else if t.Keyword? {
      text := ":" + t.v;
      KeywordToken(s, flags);
    } else {
      var n := if t.TildeAt? || t.FunctionRef? || t.HashParen? then 2 else 1;
      FixedToken(s, flags, n);
      text := u[..n];
    }
  }

  lemma {:induction false} TextStarts(s: string, flags: Flags)
    requires Scan(s, flags).Good? && Scan(s, flags).value.0.Text?
    ensures var u := Start(s); u != "" && u[0] == '"' && Body(u[1..]).Good?
    ensures Scan(s, flags).value == (Text(Body(Start(s)[1..]).value.0), Body(Start(s)[1..]).value.1)
  {
    hide Start, Body, SymbolLen, NumberLen, IsSymbolStart, StartsNumber;
  }

  lemma {:induction false} NumberToken(s: string, flags: Flags)
    requires Scan(s, flags).Good? && Scan(s, flags).value.0.Number?
    ensures var (t, rest) := Scan(s, flags).value; Start(s) == t.v + rest && NumberText(t.v) && NumberStop(rest)
  {
    hide Start, Body, SymbolLen, IsSymbolStart;
    var u := Start(s);
    NumberEnds(u[1..]);
    var n := 1 + NumberLen(u[1..]);
    assert u == u[..n] + u[n..] && u[n..] == u[1..][n - 1..];
    assert forall k :: 0 < k < n ==> u[k] == u[1..][k - 1];
    if !IsDigit(u[0]) {
      assert IsDigit(u[1]);
      assert u[1..] != "" && NumberLen(u[1..]) > 0;
    }
  }

  lemma {:induction false} NameToken(s: string, flags: Flags)
    requires Scan(s, flags).Good? && Scan(s, flags).value.0.Name?
    ensures var (t, rest) := Scan(s, flags).value; Start(s) == t.v + rest && NameText(t.v) && Stop(rest)
  {
    hide Start, Body, NumberLen, SymbolLen, IsSymbolStart, StartsNumber, KeywordOk, Stop, TokenOk;
    var u := Start(s);
    SymbolEnds(u);
    ScanOk(s, flags);
    TokenName(Scan(s, flags).value.0.v);
    var n := SymbolLen(u);
    assert u == u[..n] + u[n..];
  }

  lemma {:induction false} TokenName(v: string)
    requires TokenOk(Name(v))
    ensures NameText(v)
  {
  }

  lemma {:induction false} KeywordToken(s: string, flags: Flags)
    requires Scan(s, flags).Good? && Scan(s, flags).value.0.Keyword?
    ensures var (t, rest) := Scan(s, flags).value; Start(s) == ":" + t.v + rest && KeywordOk(t.v) && Stop(rest)
  {
    hide Start, Body, NumberLen, SymbolLen, IsSymbolStart, StartsNumber, KeywordOk, Stop;
    var u := Start(s);
    SymbolEnds(u[1..]);
    RunOk(u[1..]);
    var n := SymbolLen(u[1..]);
    assert u == ":" + u[1..] && u[1..] == u[1..][..n] + u[1..][n..];
  }

  lemma {:induction false} FixedToken(s: string, flags: Flags, n: nat)
    requires Scan(s, flags).Good?
    requires var t := Scan(s, flags).value.0;
      && t != Eof && !t.Text? && !t.Number? && !t.Name? && !t.Keyword?
      && n == if t.TildeAt? || t.FunctionRef? || t.HashParen? then 2 else 1
    ensures n <= |Start(s)|
    ensures var (t, rest) := Scan(s, flags).value; Start(s) == Start(s)[..n] + rest && Writes(Start(s)[..n], t, flags)
  {
    hide Start, Body, NumberLen, SymbolLen, IsSymbolStart, StartsNumber;
    var u := Start(s);
    assert u == u[..1] + u[1..];
    if n == 2 { assert u == u[..2] + u[1..][1..]; }
  }

  lemma {:induction false} NotNul(s: string, flags: Flags)
    requires Scan(s, flags).Good?
    ensures Start(s) == "" || Start(s)[0] != '\0'
    ensures Scan(s, flags).value.0 == Eof <==> Start(s) == ""
  {
    hide Start, Body, NumberLen, SymbolLen;
  }

  /** A text that has tokens is cut into them. */
  lemma {:induction false} Cuts(s: string, flags: Flags) returns (l: Lexed)
    requires Tokens(s, flags).Good?
    ensures LexedText(l) == s && LexedTokens(l) == Tokens(s, flags).value && LexedOk(l, flags)
    decreases |s|
  {
    hide Scan, Start, Writes, EndsBefore;
    NotNul(s, flags);
    var g := StartSplits(s);
    var (t, rest) := Scan(s, flags).value;
    if t == Eof {
      assert GapText(g) + "" == GapText(g);
      l := LastOf(g);
    } else {
      var text := ScanSplits(s, flags);
      var more := Cuts(rest, flags);
      l := Next(g, text, t, more);
      assert GapText(g) + text + LexedText(more) == GapText(g) + (text + rest);
    }
  }

  // ---- numbers ----

  /** Every run of digits is a numeral. */
  lemma {:induction false} DigitsAre(s: string) returns (k: nat, n: nat)
    requires s != "" && forall i :: 0 <= i < |s| ==> IsDigit(s[i])
    ensures s == Zeros(k) + Digits(n) && Decimal(s) == Some(n) && (n == 0 ==> |s| == k + 1)
    decreases |s|
  {
    hide Decimal, Digits, Zeros;
    var m := |s| - 1;
    var d: nat := s[m] as int - '0' as int;
    DecimalNext(s);
    OneDigit(d);
    assert s == s[..m] + [s[m]];
    if m == 0 {
      k, n := 0, d;
      NoZeros();
    } else {
      var k', n' := DigitsAre(s[..m]);
      if n' == 0 {
        k, n := m, d;
        ZerosEnd(m);
        OneDigit(0);
      } else {
        k, n := k', 10 * n' + d;
        DigitsGrow(n', d);
        assert Zeros(k) + Digits(n') + [s[m]] == Zeros(k) + (Digits(n') + [s[m]]);
      }
    }
  }

  lemma {:induction false} NoZeros()
    ensures Zeros(0) == ""
  {
  }

  lemma {:induction false} OneDigit(d: nat)
    requires d < 10
    ensures Digits(d) == [Digit(d)] && Digit(d) as int == '0' as int + d && (d == 0 ==> Digits(d) == "0")
  {
  }

  lemma {:induction false} DecimalNext(s: string)
    requires s != "" && forall i :: 0 <= i < |s| ==> IsDigit(s[i])
    ensures var m := |s| - 1;
      var before := if m == 0 then Some(0) else Decimal(s[..m]);
      before.Some? ==> Decimal(s) == Some(10 * before.value + (s[m] as int - '0' as int))
  {
    if |s| == 1 { assert s[..0] == "" && Decimal("") == Some(0); }
  }

  lemma {:induction false} DigitsGrow(n: nat, d: nat)
    requires n > 0 && d < 10
    ensures Digits(10 * n + d) == Digits(n) + [Digit(d)]
  {
    assert (10 * n + d) / 10 == n && (10 * n + d) % 10 == d;
  }

  lemma {:induction false} NumeralOf(text: string, i: int)
    requires NumberText(text) && Convert(text) == Good(Int(i))
    ensures Numeral(text, i)
  {
    var digits := if text[0] == '-' then text[1..] else text;
    forall k | 0 <= k < |digits| ensures IsDigit(digits[k]) {
      var j := if text[0] == '-' then k + 1 else k;
      assert digits[k] == text[j] && text[j] in text;
    }
    var k, n := DigitsAre(digits);
    if text[0] == '-' { assert text == "-" + digits; }
  }

  // ---- trees ----

  lemma {:induction false} AtomOf(text: string, t: Token, flags: Flags, depth: nat, max: nat, rest: seq<Token>)
    requires Writes(text, t, flags) && (t.Text? || t.Number? || t.Name? || t.Keyword?)
    requires Parse([t] + rest, depth, max).Good?
    ensures var p := Parse([t] + rest, depth, max).value;
      && p.1 == rest && Spells(text, p.0) && forall s :: EndsBefore(t, s) ==> ApartFrom(p.0, s)
  {
    hide ParseItems, Convert, Quotes, NumberText, Numeral;
    var ts := [t] + rest;
    assert ts[1..] == rest;
    if t.Number? {
      NumberIs(t.v);
      NumeralOf(t.v, Convert(t.v).value.i);
    }
    if t.Name? { SymbolIs(t.v); }
  }

  lemma {:induction false} NumberIs(s: string)
    ensures Convert(s).Good? ==> Convert(s).value.Int?
  {
  }

  lemma {:induction false} SymbolIs(name: string)
    requires NameText(name)
    ensures Spells(name, NameValue(name)) && (NameValue(name).Sym? || NameValue(name).Nil? || NameValue(name).Bool?)
  {
  }

  predicate IsMark(t: Token) {
    t.Tick? || t.Backtick? || t.Tilde? || t.TildeAt? || t.FunctionRef?
  }

  function MarkOf(t: Token): Mark {
    match t
    case Backtick => Quasiquoting
    case Tilde => Unquoting
    case TildeAt => Splicing
    case FunctionRef => Referring
    case _ => Quoting
  }

  function BracketOf(t: Token): Bracket {
    match t case LBracket => Square case HashParen => HashRound case _ => Round
  }

  lemma {:induction false} HeadOf(l: Lexed)
    ensures LexedTokens(l) != [] && Head(LexedTokens(l)) == LexedTokens(l)[0]
    ensures l.LastOf? ==> Head(LexedTokens(l)) == Eof
    ensures l.Next? ==> Head(LexedTokens(l)) == l.token && LexedTokens(l)[1..] == LexedTokens(l.rest)
  {
  }

  /** What parsing a token leads to. */
  lemma {:induction false} ParseIs(ts: seq<Token>, depth: nat, max: nat)
    requires ts != [] && Parse(ts, depth, max).Good?
    ensures var t := ts[0];
      && (IsMark(t) ==> Parse(ts, depth, max) == Wrapped(Documents.Word(MarkOf(t)), Parse(ts[1..], depth + 1, max)))
      && (t.LParen? ==> Parse(ts, depth, max) == Listed(ParseItems(ts[1..], depth + 1, max, RParen)))
      && (t.LBracket? ==> Parse(ts, depth, max) == Vectored(ParseItems(ts[1..], depth + 1, max, RBracket)))
      && (t.HashParen? ==> Parse(ts, depth, max) == Vectored(ParseItems(ts[1..], depth + 1, max, RParen)))
      && (IsMark(t) || t.LParen? || t.LBracket? || t.HashParen? || t.Text? || t.Number? || t.Name? || t.Keyword?)
  {
    hide ParseItems, Convert;
  }

  lemma {:induction false} NextIs(l: Lexed, flags: Flags)
    requires l.Next? && LexedOk(l, flags)
    ensures LexedText(l) == GapText(l.gap) + l.text + LexedText(l.rest)
    ensures GapOk(l.gap) && Writes(l.text, l.token, flags) && EndsBefore(l.token, LexedText(l.rest))
    ensures LexedOk(l.rest, flags)
  {
  }

  lemma {:induction false} Joins(a: string, b: string, c: string, d: string, e: string)
    ensures a + b + (c + d + e) == a + (b + c + d) + e
  {
    assert a + b + (c + d + e) == a + b + c + d + e;
    assert a + (b + c + d) + e == a + b + c + d + e;
  }

  lemma {:induction false} MarkedIs(m: Mark, g: Gap, d: Doc, flags: Flags, rest: string)
    requires GapOk(g) && DocOk(d, flags) && (m.Referring? ==> flags.functionRef) && Apart(d, rest)
    ensures DocOk(Marked(m, g, d), flags) && Apart(Marked(m, g, d), rest)
    ensures DocText(Marked(m, g, d)) == Sign(m) + GapText(g) + DocText(d)
  {
  }

  lemma {:induction false} GroupIs(b: Bracket, ps: Parts, flags: Flags, rest: string)
    requires PartsOk(ps, Closing(b), flags) && (b.Square? ==> flags.brackets) && (b.HashRound? ==> flags.readerVector)
    ensures DocOk(Group(b, ps), flags) && Apart(Group(b, ps), rest)
    ensures DocText(Group(b, ps)) == Opening(b) + PartsText(ps) + Closing(b)
    ensures Meaning(Group(b, ps)) == if b.Round? then List(Meanings(ps)) else Vec(Meanings(ps))
  {
  }

  /** A form that is parsed is a document. */
  lemma {:induction false} FormOf(l: Lexed, depth: nat, max: nat, flags: Flags) returns (g: Gap, d: Doc, after: Lexed)
    requires LexedOk(l, flags) && Parse(LexedTokens(l), depth, max).Good?
    ensures var p := Parse(LexedTokens(l), depth, max).value;
      && p.1 == LexedTokens(after) && Meaning(d) == p.0
    ensures LexedOk(after, flags) && GapOk(g) && DocOk(d, flags) && Apart(d, LexedText(after))
    ensures LexedText(l) == GapText(g) + DocText(d) + LexedText(after)
    decreases |LexedTokens(l)|, 0
  {
    hide Parse, ParseItems, Writes, EndsBefore, Spells, LexedText, LexedOk, GapText, GapOk, Apart, DocOk, DocText,
         PartsOk, PartsText, Sign, Opening, Closing;
    HeadOf(l);
    var ts := LexedTokens(l);
    ParseIs(ts, depth, max);
    var t := ts[0];
    if l.LastOf? {
      assert false;
    } else {
      NextIs(l, flags);
      g := l.gap;
      if IsMark(t) {
        var g1, d1;
        g1, d1, after := FormOf(l.rest, depth + 1, max, flags);
        d := Marked(MarkOf(t), g1, d1);
        MarkText(l.text, t, flags);
        MarkedIs(MarkOf(t), g1, d1, flags, LexedText(after));
        Joins(GapText(g), l.text, GapText(g1), DocText(d1), LexedText(after));
      } else if t.LParen? || t.LBracket? || t.HashParen? {
        var b, ps := BracketOf(t), Last(NoGap);
        ps, after := PartsOf(l.rest, b, depth + 1, max, flags);
        d := Group(b, ps);
        BracketText(l.text, t, flags);
        GroupIs(b, ps, flags, LexedText(after));
        Joins(GapText(g), l.text, PartsText(ps), Closing(b), LexedText(after));
      } else {
        after := l.rest;
        assert ts == [t] + LexedTokens(l.rest);
        AtomOf(l.text, t, flags, depth, max, LexedTokens(l.rest));
        d := Spelled(l.text, Parse(ts, depth, max).value.0);
        SpelledIs(d, flags, LexedText(after));
      }
    }
  }

  lemma {:induction false} SpelledIs(d: Doc, flags: Flags, rest: string)
    requires d.Spelled?
    ensures (DocOk(d, flags) <==> Spells(d.text, d.v)) && (Apart(d, rest) <==> ApartFrom(d.v, rest))
    ensures DocText(d) == d.text
  {
  }

  lemma {:induction false} MarkText(text: string, t: Token, flags: Flags)
    requires Writes(text, t, flags) && IsMark(t)
    ensures text == Sign(MarkOf(t)) && (MarkOf(t).Referring? ==> flags.functionRef)
  {
  }

  lemma {:induction false} BracketText(text: string, t: Token, flags: Flags)
    requires Writes(text, t, flags) && (t.LParen? || t.LBracket? || t.HashParen?)
    ensures var b := BracketOf(t);
      text == Opening(b) && (b.Square? ==> flags.brackets) && (b.HashRound? ==> flags.readerVector)
  {
  }

  lemma {:induction false} CloseText(text: string, b: Bracket, flags: Flags)
    requires Writes(text, Close1(b), flags)
    ensures text == Closing(b)
  {
  }

  lemma {:induction false} ItemsAre(ts: seq<Token>, depth: nat, max: nat, close: Token)
    requires ParseItems(ts, depth, max, close).Good?
    ensures Head(ts) != Eof
    ensures Head(ts) == close ==> ParseItems(ts, depth, max, close) == Good(([], ts[1..]))
    ensures Head(ts) != close ==>
      && Parse(ts, depth, max).Good?
      && var p := Parse(ts, depth, max).value;
      && ParseItems(p.1, depth, max, close).Good?
      && var q := ParseItems(p.1, depth, max, close).value;
      && ParseItems(ts, depth, max, close) == Good(([p.0] + q.0, q.1)) && |p.1| < |ts|
  {
    hide Parse;
  }

  lemma {:induction false} PartsOf(l: Lexed, b: Bracket, depth: nat, max: nat, flags: Flags)
    returns (ps: Parts, after: Lexed)
    requires LexedOk(l, flags) && ParseItems(LexedTokens(l), depth, max, Close1(b)).Good?
    ensures var p := ParseItems(LexedTokens(l), depth, max, Close1(b)).value;
      && p.1 == LexedTokens(after) && Meanings(ps) == p.0
    ensures LexedOk(after, flags) && PartsOk(ps, Closing(b), flags)
    ensures LexedText(l) == PartsText(ps) + Closing(b) + LexedText(after)
    decreases |LexedTokens(l)|, 1
  {
    hide Parse, ParseItems, Writes, EndsBefore, DocOk, Apart, LexedText, LexedOk, GapText, DocText, Closing, GapOk;
    var ts, close := LexedTokens(l), Close1(b);
    HeadOf(l);
    ItemsAre(ts, depth, max, close);
    if Head(ts) == close {
      NextIs(l, flags);
      ps, after := Last(l.gap), l.rest;
      CloseText(l.text, b, flags);
      GapAnyway(l.gap, Closing(b) == "");
    } else {
      var g, d, next := FormOf(l, depth, max, flags);
      var more;
      more, after := PartsOf(next, b, depth, max, flags);
      ps := More(g, d, more);
      MoreJoins(g, d, more, b, LexedText(after));
      ClosingShort(b, LexedText(after));
      ApartOn(d, PartsText(more), Closing(b), Closing(b) + LexedText(after));
    }
  }

  lemma {:induction false} GapAnyway(g: Gap, last: bool)
    requires GapOk(g)
    ensures GapOk(g, last)
    decreases g
  {
    if g.Space? || g.Remark? { GapAnyway(g.rest, last); }
  }

  lemma {:induction false} ClosingShort(b: Bracket, rest: string)
    ensures Closing(b) != "" && Closing(b) <= Closing(b) + rest
  {
  }

  lemma {:induction false} MoreJoins(g: Gap, d: Doc, more: Parts, b: Bracket, rest: string)
    ensures PartsText(more) + Closing(b) + rest == PartsText(more) + (Closing(b) + rest)
    ensures GapText(g) + DocText(d) + (PartsText(more) + Closing(b) + rest) ==
      PartsText(More(g, d, more)) + Closing(b) + rest
  {
    var x, y, z, c := GapText(g), DocText(d), PartsText(more), Closing(b);
    assert x + y + (z + c + rest) == x + y + z + c + rest;
  }

  lemma {:induction false} AllAre(ts: seq<Token>, max: nat)
    requires ParseAll(ts, max).Good? && Head(ts) != Eof
    ensures Parse(ts, 0, max).Good?
    ensures var p := Parse(ts, 0, max).value;
      && ParseAll(p.1, max).Good? && ParseAll(ts, max) == Good([p.0] + ParseAll(p.1, max).value) && |p.1| < |ts|
  {
    hide Parse;
  }

  lemma {:induction false} WholeOf(l: Lexed, max: nat, flags: Flags) returns (ps: Parts)
    requires LexedOk(l, flags) && ParseAll(LexedTokens(l), max).Good?
    ensures Meanings(ps) == ParseAll(LexedTokens(l), max).value
    ensures PartsOk(ps, "", flags) && PartsText(ps) == LexedText(l)
    decreases |LexedTokens(l)|
  {
    hide Parse, ParseAll, Writes, EndsBefore, DocOk, Apart;
    var ts := LexedTokens(l);
    HeadOf(l);
    if l.LastOf? {
      ps := Last(l.gap);
      NoForms(ts, max);
    } else {
      NotEof(l, flags);
      AllAre(ts, max);
      var g, d, next := FormOf(l, 0, max, flags);
      var more := WholeOf(next, max, flags);
      ps := More(g, d, more);
      assert PartsText(more) + "" == PartsText(more);
    }
  }

  lemma {:induction false} NoForms(ts: seq<Token>, max: nat)
    requires Head(ts) == Eof
    ensures ParseAll(ts, max) == Good([])
  {
  }

  lemma {:induction false} NotEof(l: Lexed, flags: Flags)
    requires l.Next? && LexedOk(l, flags)
    ensures l.token != Eof
  {
  }

  /** A text reads as vs exactly when it is a document that stands for them, within the limit. */
  lemma {:induction false} ReadsExactly(s: string, flags: Flags, max: nat, vs: seq<Value>)
    ensures Read(s, flags, max) == Good(vs) <==>
      Heights(vs) <= max && exists ps :: PartsOk(ps, "", flags) && PartsText(ps) == s && Meanings(ps) == vs
  {
    hide Tokens, ParseAll, PartsOk, PartsText, Heights, Meanings;
    if Read(s, flags, max) == Good(vs) {
      ReadWithin(s, flags, max);
      var l := Cuts(s, flags);
      var ps := WholeOf(l, max, flags);
      assert PartsOk(ps, "", flags) && PartsText(ps) == s && Meanings(ps) == vs;
    }
    if Heights(vs) <= max && exists ps :: PartsOk(ps, "", flags) && PartsText(ps) == s && Meanings(ps) == vs {
      var ps :| PartsOk(ps, "", flags) && PartsText(ps) == s && Meanings(ps) == vs;
      ReadsText(ps, flags, max);
    }
  }
}
