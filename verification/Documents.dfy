/** Written text as people write it: reader marks, round, square and hash brackets, numbers and
    strings in any spelling, and blanks, commas and comments wherever a token may begin. Reading it
    gives what it stands for, and nothing else can be read. */
module Documents {
  import opened Forms
  import opened Syntax
  import opened RoundTrip

  /** What may stand between two tokens; a comment may also end with the text. */
  datatype Gap = NoGap | Space(c: char, rest: Gap) | Remark(text: string, rest: Gap) | LastRemark(text: string)

  datatype Mark = Quoting | Quasiquoting | Unquoting | Splicing | Referring

  datatype Bracket = Round | Square | HashRound

  datatype Doc =
    | Printed(v: Value)
    | Spelled(text: string, v: Value)
    | Marked(mark: Mark, gap: Gap, doc: Doc)
    | Group(bracket: Bracket, parts: Parts)

  /** Documents one after another, each after a gap, and the gap after the last. */
  datatype Parts = Last(gap: Gap) | More(gap: Gap, doc: Doc, rest: Parts)

  // ---- the text ----

  function GapText(g: Gap): string {
    match g
    case NoGap => ""
    case Space(c, rest) => [c] + GapText(rest)
    case Remark(text, rest) => ";" + text + "\n" + GapText(rest)
    case LastRemark(text) => ";" + text
  }

  function Sign(m: Mark): string {
    match m
    case Quoting => "'"
    case Quasiquoting => "`"
    case Unquoting => "~"
    case Splicing => "~@"
    case Referring => "#'"
  }

  function Opening(b: Bracket): string {
    match b case Round => "(" case Square => "[" case HashRound => "#("
  }

  function Closing(b: Bracket): string {
    if b.Square? then "]" else ")"
  }

  function DocText(d: Doc): string {
    match d
    case Printed(v) => Show(v)
    case Spelled(text, _) => text
    case Marked(m, g, inner) => Sign(m) + GapText(g) + DocText(inner)
    case Group(b, parts) => Opening(b) + PartsText(parts) + Closing(b)
  }

  function PartsText(ps: Parts): string {
    match ps
    case Last(g) => GapText(g)
    case More(g, d, rest) => GapText(g) + DocText(d) + PartsText(rest)
  }

  // ---- what it stands for ----

  function Word(m: Mark): string {
    match m
    case Quoting => "quote"
    case Quasiquoting => "quasiquote"
    case Unquoting => "unquote"
    case Splicing => "unquote-splicing"
    case Referring => "function"
  }

  function Meaning(d: Doc): Value {
    match d
    case Printed(v) => v
    case Spelled(_, v) => v
    case Marked(m, _, inner) => List([Sym(Word(m)), Meaning(inner)])
    case Group(b, parts) => if b.Round? then List(Meanings(parts)) else Vec(Meanings(parts))
  }

  function Meanings(ps: Parts): seq<Value> {
    match ps
    case Last(_) => []
    case More(_, d, rest) => [Meaning(d)] + Meanings(rest)
  }

  // ---- well written ----

  /** Blanks and commas, and comments that end with their line or, at the end, with the text. */
  predicate GapOk(g: Gap, last: bool := false) {
    match g
    case NoGap => true
    case Space(c, rest) => c in " \t\n\r," && GapOk(rest, last)
    case Remark(text, rest) => '\n' !in text && '\0' !in text && GapOk(rest, last)
    case LastRemark(text) => last && '\n' !in text && '\0' !in text
  }

  predicate Escaped(e: char, c: char) {
    (e, c) in {('n', '\n'), ('t', '\t'), ('r', '\r'), ('"', '"'), ('\\', '\\')}
  }

  /** What stands between the quotes of a string literal: characters for themselves, newlines
      included, and escapes. */
  predicate Quotes(body: string, s: string)
    decreases |body|
  {
    if body == "" || s == "" then body == "" && s == ""
    else if body[0] == '\\' then |body| >= 2 && Escaped(body[1], s[0]) && Quotes(body[2..], s[1..])
    else body[0] != '"' && body[0] != '\0' && s[0] == body[0] && Quotes(body[1..], s[1..])
  }

  /** Decimal digits, zeros before them or not, with a minus sign or without. */
  ghost predicate Numeral(text: string, i: int) {
    InRange(i) && exists k: nat, n: nat ::
      (text == Zeros(k) + Digits(n) && i == n) || (text == "-" + (Zeros(k) + Digits(n)) && i + n == 0)
  }

  function Zeros(k: nat): string {
    if k == 0 then "" else "0" + Zeros(k - 1)
  }

  /** The ways to write an atom. */
  ghost predicate Spells(text: string, v: Value) {
    match v
    case Nil => text == "nil"
    case Bool(b) => text == if b then "true" else "false"
    case Int(i) => Numeral(text, i)
    case Str(s) => |text| >= 2 && text[0] == '"' && text[|text| - 1] == '"' && Quotes(text[1..|text| - 1], s)
    case Sym(name) => text == name && SymbolOk(name)
    case Key(name) => text == ":" + name && KeywordOk(name)
    case _ => false
  }

  /** A number goes on as far as there are digits and points. */
  predicate NumberStop(rest: string) {
    rest == "" || (!IsDigit(rest[0]) && rest[0] != '.')
  }

  /** The text after a document does not go on its last name, keyword or number. */
  predicate Apart(d: Doc, rest: string) {
    match d
    case Printed(v) => ApartFrom(v, rest)
    case Spelled(_, v) => ApartFrom(v, rest)
    case Marked(_, _, inner) => Apart(inner, rest)
    case Group(_, _) => true
  }

  predicate ApartFrom(v: Value, rest: string) {
    v.Str? || v.List? || v.Vec? || (if v.Int? then NumberStop(rest) else Stop(rest))
  }

  ghost predicate DocOk(d: Doc, flags: Flags) {
    match d
    case Printed(v) => Plain(v) && NamesOk(v) && Legible(v, flags)
    case Spelled(text, v) => Spells(text, v)
    case Marked(m, g, inner) => GapOk(g) && DocOk(inner, flags) && (m.Referring? ==> flags.functionRef)
    case Group(b, parts) =>
      && (b.Square? ==> flags.brackets) && (b.HashRound? ==> flags.readerVector)
      && PartsOk(parts, Closing(b), flags)
  }

  ghost predicate PartsOk(ps: Parts, close: string, flags: Flags) {
    match ps
    case Last(g) => GapOk(g, close == "")
    case More(g, d, rest) =>
      GapOk(g) && DocOk(d, flags) && Apart(d, PartsText(rest) + close) && PartsOk(rest, close, flags)
  }

  // ---- gaps ----

  lemma {:induction false} CommentEnds(text: string, s: string)
    requires '\n' !in text && '\0' !in text
    ensures Comment(text + "\n" + s) == "\n" + s
  {
    if text == "" {
      assert text + "\n" + s == "\n" + s;
    } else {
      assert (text + "\n" + s)[1..] == text[1..] + "\n" + s;
      CommentEnds(text[1..], s);
    }
  }

  lemma {:induction false} BlankSkipped(c: char, s: string)
    requires c in " \t\n\r,"
    ensures Start([c] + s) == Start(s)
  {
    assert ([c] + s)[1..] == s;
    assert Blank([c] + s) == Blank(s);
  }

  lemma {:induction false} GapSkipped(g: Gap, s: string, last: bool := false)
    requires GapOk(g, last) && (last ==> s == "")
    ensures Start(GapText(g) + s) == Start(s)
    decreases g
  {
    hide Start;
    match g
    case NoGap => assert GapText(g) + s == s;
    case Space(c, rest) =>
      GapSkipped(rest, s, last);
      assert GapText(g) + s == [c] + (GapText(rest) + s);
      BlankSkipped(c, GapText(rest) + s);
    case Remark(text, rest) =>
      GapSkipped(rest, s, last);
      RemarkSkipped(text, GapText(rest) + s);
      assert GapText(g) + s == ";" + text + "\n" + (GapText(rest) + s);
    case LastRemark(text) =>
      assert GapText(g) + s == ";" + text;
      LastSkipped(text);
  }

  lemma {:induction false} LastSkipped(text: string)
    requires '\n' !in text && '\0' !in text
    ensures Start(";" + text) == Start("")
  {
    NoEnd(";" + text);
  }

  lemma {:induction false} NoEnd(text: string)
    requires '\n' !in text && '\0' !in text
    ensures Comment(text) == ""
  {
    if text != "" { NoEnd(text[1..]); }
  }

  lemma {:induction false} RemarkSkipped(text: string, s: string)
    requires '\n' !in text && '\0' !in text
    ensures Start(";" + text + "\n" + s) == Start(s)
  {
    var t := ";" + text + "\n" + s;
    assert t == (";" + text) + "\n" + s;
    CommentEnds(";" + text, s);
    assert Start(t) == Start("\n" + s);
    BlankSkipped('\n', s);
  }

  /** Blanks, commas and comments before a token change nothing. */
  lemma {:induction false} GapTokens(g: Gap, s: string, flags: Flags, last: bool := false)
    requires GapOk(g, last) && (last ==> s == "")
    ensures Tokens(GapText(g) + s, flags) == Tokens(s, flags)
  {
    GapSkipped(g, s, last);
    hide Start;
    SameStart(GapText(g) + s, s, flags);
  }

  lemma {:induction false} SameStart(s: string, t: string, flags: Flags)
    requires Start(s) == Start(t)
    ensures Tokens(s, flags) == Tokens(t, flags)
  {
    hide Start, Body, SymbolLen, NumberLen, StartsNumber, IsSymbolStart;
    assert Scan(s, flags) == Scan(t, flags);
  }

  // ---- tokens ----

  function Token1(m: Mark): Token {
    match m
    case Quoting => Tick
    case Quasiquoting => Backtick
    case Unquoting => Tilde
    case Splicing => TildeAt
    case Referring => FunctionRef
  }

  function Open1(b: Bracket): Token {
    match b case Round => LParen case Square => LBracket case HashRound => HashParen
  }

  function Close1(b: Bracket): Token {
    if b.Square? then RBracket else RParen
  }

  function DocTokens(d: Doc): seq<Token> {
    match d
    case Printed(v) => TokensOf(v)
    case Spelled(text, v) => [SpelledToken(text, v)]
    case Marked(m, _, inner) => [Token1(m)] + DocTokens(inner)
    case Group(b, parts) => [Open1(b)] + PartsTokens(parts) + [Close1(b)]
  }

  function SpelledToken(text: string, v: Value): Token {
    match v
    case Int(_) => Number(text)
    case Str(s) => Text(s)
    case Key(name) => Keyword(name)
    case _ => Name(text)
  }

  function PartsTokens(ps: Parts): seq<Token> {
    match ps
    case Last(_) => []
    case More(_, d, rest) => DocTokens(d) + PartsTokens(rest)
  }

  /** No document begins with an at sign. */
  lemma {:induction false} NotAt(g: Gap, d: Doc, flags: Flags, rest: string)
    requires GapOk(g) && DocOk(d, flags)
    ensures GapText(g) + DocText(d) != "" && (GapText(g) + DocText(d) + rest)[0] != '@'
  {
    hide ShowInt, EscapeAll, ShowItems;
    if g.NoGap? && d.Printed? {
      assert Show(d.v) != "" && Show(d.v)[0] != '@' by { ShowNotAt(d.v); }
    }
    if g.NoGap? && d.Spelled? { SpelledNotAt(d.text, d.v); }
  }

  lemma {:induction false} SpelledNotAt(text: string, v: Value)
    requires Spells(text, v)
    ensures text != "" && text[0] != '@'
  {
    if v.Int? { NumeralReads(text, v.i); }
  }

  lemma {:induction false} ShowNotAt(v: Value)
    requires Plain(v) && NamesOk(v)
    ensures Show(v) != "" && Show(v)[0] != '@'
  {
    if v.Int? { IntReads(v.i); }
  }

  lemma {:induction false} ScanSign(m: Mark, rest: string, flags: Flags)
    requires (m.Referring? ==> flags.functionRef) && (m.Unquoting? ==> rest != "" && rest[0] != '@')
    ensures Scan(Sign(m) + rest, flags) == Good((Token1(m), rest))
  {
    hide Start, Body, SymbolLen, NumberLen;
    var s := Sign(m) + rest;
    StartHere(s);
    assert s[|Sign(m)|..] == rest;
    if m.Splicing? || m.Referring? {
      assert s[1..][1..] == rest && s[1..][0] == Sign(m)[1];
    } else {
      assert s[1..] == rest;
    }
  }

  lemma {:induction false} ScanOpening(b: Bracket, rest: string, flags: Flags)
    requires (b.Square? ==> flags.brackets) && (b.HashRound? ==> flags.readerVector)
    ensures Scan(Opening(b) + rest, flags) == Good((Open1(b), rest))
  {
    hide Start, Body, SymbolLen, NumberLen;
    var s := Opening(b) + rest;
    StartHere(s);
    if b.HashRound? { assert s[1..][1..] == rest && s[1..][0] == '('; } else { assert s[1..] == rest; }
  }

  lemma {:induction false} ScanClosing(b: Bracket, rest: string, flags: Flags)
    requires b.Square? ==> flags.brackets
    ensures Scan(Closing(b) + rest, flags) == Good((Close1(b), rest))
  {
    hide Scan;
    ScanMark(Closing(b)[0], Close1(b), rest, flags);
    assert [Closing(b)[0]] == Closing(b);
  }

  /** The tokens of a document are its own, whatever comes after it. */
  lemma {:induction false} LexDoc(d: Doc, rest: string, flags: Flags)
    requires DocOk(d, flags) && Apart(d, rest)
    ensures Tokens(DocText(d) + rest, flags) == Prepend(DocTokens(d), Tokens(rest, flags))
    decreases d
  {
    hide Tokens, Scan, Stop, Plain, NamesOk, Legible, Show, Spells, ApartFrom;
    match d {
      case Printed(v) => LexPrinted(v, rest, flags);
      case Spelled(text, v) => LexSpelled(text, v, rest, flags);
      case Marked(m, g, inner) =>
        var tail := DocText(inner) + rest;
        var after := GapText(g) + tail;
        LexDoc(inner, rest, flags);
        GapTokens(g, tail, flags);
        NotAt(g, inner, flags, rest);
        assert after == GapText(g) + DocText(inner) + rest;
        ScanSign(m, after, flags);
        assert DocText(d) + rest == Sign(m) + after;
        Step(Sign(m) + after, Token1(m), after, flags);
        PrependTwice([Token1(m)], DocTokens(inner), Tokens(rest, flags));
      case Group(b, parts) => LexGroup(d, rest, flags);
    }
  }

  /** A printed value ends where it must, also before text that would go on a name. */
  lemma {:induction false} LexPrinted(v: Value, rest: string, flags: Flags)
    requires Plain(v) && NamesOk(v) && Legible(v, flags) && ApartFrom(v, rest)
    ensures Tokens(Show(v) + rest, flags) == Prepend(TokensOf(v), Tokens(rest, flags))
  {
    hide Tokens, Scan, AllShown, AllLegible, EscapeAll, TextOk, ShowItems, ShowInt;
    if v.List? || v.Vec? {
      Items(v, flags);
      LexItems(v.items, (if v.List? then ")" else "]") + rest, flags);
      Enclosed(v, rest, flags);
    } else if v.Str? {
      ScanText(v.s, rest, flags);
      Step(Show(v) + rest, Text(v.s), rest, flags);
    } else if v.Int? {
      IntReads(v.i);
      ScanNumber(ShowInt(v.i), rest, flags);
      Step(Show(v) + rest, Number(ShowInt(v.i)), rest, flags);
    } else {
      LexAtom(v, rest, flags);
    }
  }

  lemma {:induction false} ScanNumber(text: string, rest: string, flags: Flags)
    requires StartsNumber(text) && (forall k :: 0 < k < |text| ==> IsDigit(text[k])) && NumberStop(rest)
    ensures Scan(text + rest, flags) == Good((Number(text), rest))
  {
    hide Start, NumberLen, Body, SymbolLen;
    var s := text + rest;
    StartHere(s);
    assert s[1..] == text[1..] + rest;
    DigitRun(text[1..], rest);
    assert s[..|text|] == text && s[|text|..] == rest;
    assert StartsNumber(s);
  }

  lemma {:induction false} DigitRun(digits: string, rest: string)
    requires (forall i :: 0 <= i < |digits| ==> IsDigit(digits[i])) && NumberStop(rest)
    ensures NumberLen(digits + rest) == |digits|
  {
    if digits == "" {
      assert digits + rest == rest;
    } else {
      assert (digits + rest)[1..] == digits[1..] + rest;
      DigitRun(digits[1..], rest);
    }
  }

  /** A numeral is a number token, and that token is its number. */
  lemma {:induction false} NumeralReads(text: string, i: int)
    requires Numeral(text, i)
    ensures Convert(text) == Good(Int(i)) && StartsNumber(text) && text != ""
    ensures forall k :: 0 < k < |text| ==> IsDigit(text[k])
  {
    var k: nat, n: nat :|
      (text == Zeros(k) + Digits(n) && i == n) || (text == "-" + (Zeros(k) + Digits(n)) && i + n == 0);
    NumberReads(k, n);
    AllDigits(k, n);
  }

  lemma {:induction false} AllDigits(k: nat, n: nat)
    ensures var d := Zeros(k) + Digits(n); d != "" && forall i :: 0 <= i < |d| ==> IsDigit(d[i])
  {
    DigitsRead(n);
    if k > 0 {
      AllDigits(k - 1, n);
      assert Zeros(k) + Digits(n) == "0" + (Zeros(k - 1) + Digits(n));
    } else {
      assert Zeros(0) + Digits(n) == Digits(n);
    }
  }

  lemma {:induction false} QuotesRead(body: string, s: string, rest: string)
    requires Quotes(body, s)
    ensures Body(body + "\"" + rest) == Good((s, rest))
    decreases |body|
  {
    var t := body + "\"" + rest;
    if body == "" {
      assert t == "\"" + rest && t[1..] == rest;
    } else {
      assert s == [s[0]] + s[1..];
      if body[0] == '\\' {
        QuotesRead(body[2..], s[1..], rest);
        assert t[1] == body[1] && t[2..] == body[2..] + "\"" + rest;
        assert Unescape(body[1]) == Some(s[0]);
      } else {
        QuotesRead(body[1..], s[1..], rest);
        assert t[1..] == body[1..] + "\"" + rest;
      }
    }
  }

  lemma {:induction false} ScanQuoted(text: string, s: string, rest: string, flags: Flags)
    requires Spells(text, Str(s))
    ensures Scan(text + rest, flags) == Good((Text(s), rest))
  {
    hide Start, Body, SymbolLen, NumberLen, Quotes;
    var body := text[1..|text| - 1];
    assert text == "\"" + body + "\"";
    QuotesRead(body, s, rest);
    StartHere(text + rest);
    assert (text + rest)[1..] == body + "\"" + rest;
  }

  lemma {:induction false} LexSpelled(text: string, v: Value, rest: string, flags: Flags)
    requires Spells(text, v) && ApartFrom(v, rest)
    ensures Tokens(text + rest, flags) == Prepend(DocTokens(Spelled(text, v)), Tokens(rest, flags))
  {
    hide Tokens, Scan, Quotes, Numeral, StartsNumber, IsSymbolStart, KeywordOk, Stop;
    match v {
      case Int(i) =>
        NumeralReads(text, i);
        ScanNumber(text, rest, flags);
        Step(text + rest, Number(text), rest, flags);
      case Str(s) =>
        ScanQuoted(text, s, rest, flags);
        Step(text + rest, Text(s), rest, flags);
      case Key(name) =>
        ScanKeyword(name, rest, flags);
        Step(text + rest, Keyword(name), rest, flags);
      case _ => NameLexes(v, rest, flags);
    }
  }

  lemma {:induction false} LexGroup(d: Doc, rest: string, flags: Flags)
    requires d.Group? && DocOk(d, flags)
    ensures Tokens(DocText(d) + rest, flags) == Prepend(DocTokens(d), Tokens(rest, flags))
    decreases d, 0
  {
    hide Tokens, Scan;
    var b, ts := d.bracket, PartsTokens(d.parts);
    var inner := Closing(b) + rest;
    var body := PartsText(d.parts) + inner;
    LexParts(d.parts, Closing(b), inner, flags);
    assert DocText(d) + rest == Opening(b) + body;
    ScanOpening(b, body, flags);
    Step(Opening(b) + body, Open1(b), body, flags);
    ScanClosing(b, rest, flags);
    Step(inner, Close1(b), rest, flags);
    PrependTwice(ts, [Close1(b)], Tokens(rest, flags));
    PrependTwice([Open1(b)], ts + [Close1(b)], Tokens(rest, flags));
    assert [Open1(b)] + (ts + [Close1(b)]) == DocTokens(d);
  }

  lemma {:induction false} LexParts(ps: Parts, close: string, rest: string, flags: Flags)
    requires PartsOk(ps, close, flags) && close <= rest && (close == "" <==> rest == "")
    ensures Tokens(PartsText(ps) + rest, flags) == Prepend(PartsTokens(ps), Tokens(rest, flags))
    decreases ps
  {
    hide Tokens, Scan, DocOk, Apart;
    match ps {
      case Last(g) =>
        GapTokens(g, rest, flags, close == "");
        NoItems(rest, flags);
      case More(g, d, more) =>
        var tail := PartsText(more) + rest;
        LexParts(more, close, rest, flags);
        ApartOn(d, PartsText(more), close, rest);
        LexDoc(d, tail, flags);
        GapTokens(g, DocText(d) + tail, flags);
        assert PartsText(ps) + rest == GapText(g) + (DocText(d) + tail);
        PrependTwice(DocTokens(d), PartsTokens(more), Tokens(rest, flags));
    }
  }

  /** Only the first character matters. */
  lemma {:induction false} ApartOn(d: Doc, s: string, close: string, rest: string)
    requires close <= rest && (close == "" <==> rest == "")
    ensures Apart(d, s + close) <==> Apart(d, s + rest)
    decreases d
  {
    if s + close != "" { assert (s + rest)[0] == (s + close)[0]; } else { assert s + rest == ""; }
    if d.Marked? { ApartOn(d.doc, s, close, rest); }
  }

  // ---- values ----

  lemma {:induction false} FirstDocToken(d: Doc, flags: Flags)
    requires DocOk(d, flags)
    ensures DocTokens(d) != [] && DocTokens(d)[0] !in {Eof, RParen, RBracket}
  {
    hide Plain, NamesOk, Legible, TokensOf, PartsTokens, Spells;
    if d.Printed? { FirstToken(d.v); }
  }

  lemma {:induction false} MarkedHeight(m: Mark, v: Value)
    ensures Height(List([Sym(Word(m)), v])) == 1 + Height(v)
  {
    var items := [Sym(Word(m)), v];
    assert items[1..] == [v];
    Single(v);
    assert Height(Sym(Word(m))) == 1;
    assert Heights(items) == Height(v);
  }

  /** The tokens of a document parse to what it stands for, whatever follows. */
  lemma {:induction false} ParseDoc(d: Doc, rest: seq<Token>, flags: Flags, depth: nat, max: nat)
    requires DocOk(d, flags) && depth + Height(Meaning(d)) <= max
    ensures Parse(DocTokens(d) + rest, depth, max) == Good((Meaning(d), rest))
    decreases d
  {
    hide ParseItems, Plain, NamesOk, Legible, Height, Heights, TokensOf, PartsTokens, Spells, Convert;
    var ts := DocTokens(d) + rest;
    match d {
      case Printed(v) => ParseBack(v, rest, depth, max);
      case Spelled(text, v) => ParseSpelled(text, v, rest, depth, max);
      case Marked(m, g, inner) =>
        MarkedHeight(m, Meaning(inner));
        ParseDoc(inner, rest, flags, depth + 1, max);
        assert ts[1..] == DocTokens(inner) + rest;
      case Group(b, parts) =>
        GroupHeight(b, parts);
        ParseParts(parts, b, rest, flags, depth + 1, max);
        assert ts[1..] == PartsTokens(parts) + [Close1(b)] + rest;
    }
  }

  lemma {:induction false} ParseSpelled(text: string, v: Value, rest: seq<Token>, depth: nat, max: nat)
    requires Spells(text, v) && depth < max
    ensures Parse(DocTokens(Spelled(text, v)) + rest, depth, max) == Good((v, rest))
  {
    hide ParseItems, Quotes, Numeral, Convert, IsSymbolStart, KeywordOk, StartsNumber;
    var ts := DocTokens(Spelled(text, v)) + rest;
    assert ts[1..] == rest;
    if v.Int? { NumeralReads(text, v.i); }
  }

  lemma {:induction false} GroupHeight(b: Bracket, ps: Parts)
    ensures Height(Meaning(Group(b, ps))) == 1 + Heights(Meanings(ps))
  {
  }

  lemma {:induction false} ParseParts(ps: Parts, b: Bracket, rest: seq<Token>, flags: Flags, depth: nat, max: nat)
    requires PartsOk(ps, Closing(b), flags) && depth + Heights(Meanings(ps)) <= max
    ensures ParseItems(PartsTokens(ps) + [Close1(b)] + rest, depth, max, Close1(b)) == Good((Meanings(ps), rest))
    decreases ps
  {
    hide Parse, DocTokens, Height, DocOk, Meaning;
    var close := Close1(b);
    var ts := PartsTokens(ps) + [close] + rest;
    match ps {
      case Last(_) => assert ts == [close] + rest && ts[1..] == rest;
      case More(g, d, more) =>
        var tail := PartsTokens(more) + [close] + rest;
        assert ts == DocTokens(d) + tail;
        FirstDocToken(d, flags);
        HeightsParts(d, more);
        ParseDoc(d, tail, flags, depth, max);
        ParseParts(more, b, rest, flags, depth, max);
    }
  }

  lemma {:induction false} HeightsParts(d: Doc, more: Parts)
    ensures var vs := [Meaning(d)] + Meanings(more);
      Height(Meaning(d)) <= Heights(vs) && Heights(Meanings(more)) <= Heights(vs)
  {
    hide Height, Meaning;
    var vs := [Meaning(d)] + Meanings(more);
    assert vs[1..] == Meanings(more);
  }

  lemma {:induction false} ParseText(ps: Parts, flags: Flags, max: nat)
    requires PartsOk(ps, "", flags) && Heights(Meanings(ps)) <= max
    ensures ParseAll(PartsTokens(ps) + [Eof], max) == Good(Meanings(ps))
    decreases ps
  {
    hide Parse, DocTokens, Height, DocOk, Meaning;
    var ts := PartsTokens(ps) + [Eof];
    match ps {
      case Last(_) => assert ts == [Eof];
      case More(g, d, more) =>
        var tail := PartsTokens(more) + [Eof];
        assert ts == DocTokens(d) + tail;
        FirstDocToken(d, flags);
        HeightsParts(d, more);
        ParseDoc(d, tail, flags, 0, max);
        ParseText(more, flags, max);
    }
  }

  // ---- the limit ----

  /** A higher limit changes nothing that could be read. */
  lemma {:induction false} ParseHigher(ts: seq<Token>, depth: nat, max: nat, higher: nat)
    requires Parse(ts, depth, max).Good? && max <= higher
    ensures Parse(ts, depth, higher) == Parse(ts, depth, max)
    decreases |ts|, 0
  {
    hide ParseItems, Convert;
    match Head(ts) {
      case LParen => ItemsHigher(ts[1..], depth + 1, max, higher, RParen);
      case LBracket => ItemsHigher(ts[1..], depth + 1, max, higher, RBracket);
      case HashParen => ItemsHigher(ts[1..], depth + 1, max, higher, RParen);
      case FunctionRef => ParseHigher(ts[1..], depth + 1, max, higher);
      case Tick => ParseHigher(ts[1..], depth + 1, max, higher);
      case Backtick => ParseHigher(ts[1..], depth + 1, max, higher);
      case Tilde => ParseHigher(ts[1..], depth + 1, max, higher);
      case TildeAt => ParseHigher(ts[1..], depth + 1, max, higher);
      case _ =>
    }
  }

  lemma {:induction false} ItemsHigher(ts: seq<Token>, depth: nat, max: nat, higher: nat, close: Token)
    requires ParseItems(ts, depth, max, close).Good? && max <= higher
    ensures ParseItems(ts, depth, higher, close) == ParseItems(ts, depth, max, close)
    decreases |ts|, 1
  {
    hide Parse;
    if Head(ts) != close {
      ParseHigher(ts, depth, max, higher);
      ItemsHigher(Parse(ts, depth, max).value.1, depth, max, higher, close);
    }
  }

  lemma {:induction false} AllHigher(ts: seq<Token>, max: nat, higher: nat)
    requires ParseAll(ts, max).Good? && max <= higher
    ensures ParseAll(ts, higher) == ParseAll(ts, max)
    decreases |ts|
  {
    hide Parse;
    if Head(ts) != Eof {
      ParseHigher(ts, 0, max, higher);
      AllHigher(Parse(ts, 0, max).value.1, max, higher);
    }
  }

  /** What is read nests within the limit. */
  lemma {:induction false} ReadWithin(s: string, flags: Flags, max: nat)
    requires Read(s, flags, max).Good?
    ensures Heights(Read(s, flags, max).value) <= max
    ensures forall higher :: max <= higher ==> Read(s, flags, higher) == Read(s, flags, max)
  {
    hide Tokens, ParseAll, Heights, NamesOk;
    LexOk(s, flags);
    ParseAllOk(Tokens(s, flags).value, max);
    forall higher | max <= higher ensures Read(s, flags, higher) == Read(s, flags, max) {
      AllHigher(Tokens(s, flags).value, max, higher);
    }
  }

  // ---- whole texts ----

  /** A text of any number of documents, with any gaps that keep names apart, reads as what they
      stand for, in order, exactly when they nest within the limit, and else not at all. */
  lemma {:induction false} ReadsText(ps: Parts, flags: Flags, max: nat)
    requires PartsOk(ps, "", flags)
    ensures if Heights(Meanings(ps)) <= max then Read(PartsText(ps), flags, max) == Good(Meanings(ps))
            else Read(PartsText(ps), flags, max).Bad?
  {
    hide Read, PartsOk, Heights, Meanings, PartsText;
    var high := if Heights(Meanings(ps)) <= max then max else Heights(Meanings(ps));
    ReadsWithin(ps, flags, high);
    if Read(PartsText(ps), flags, max).Good? { ReadWithin(PartsText(ps), flags, max); }
  }

  lemma {:induction false} ReadsWithin(ps: Parts, flags: Flags, max: nat)
    requires PartsOk(ps, "", flags) && Heights(Meanings(ps)) <= max
    ensures Read(PartsText(ps), flags, max) == Good(Meanings(ps))
  {
    hide Tokens, ParseAll, PartsOk, Heights, Meanings, PartsTokens, PartsText;
    LexParts(ps, "", "", flags);
    assert PartsText(ps) + "" == PartsText(ps);
    Nothing(flags);
    ParseText(ps, flags, max);
  }

  /** A mark before any readable value reads as the form it is short for. */
  lemma {:induction false} ReadsMarked(m: Mark, g: Gap, v: Value, flags: Flags, max: nat)
    requires Plain(v) && NamesOk(v) && Legible(v, flags) && GapOk(g) && Height(v) < max
    requires m.Referring? ==> flags.functionRef
    ensures Read(Sign(m) + GapText(g) + Show(v), flags, max) == Good([List([Sym(Word(m)), v])])
  {
    hide Plain, NamesOk, Legible, Height, Show, Read;
    var d := Marked(m, g, Printed(v));
    MarkedHeight(m, v);
    assert DocOk(Printed(v), flags) && DocOk(d, flags) && Apart(d, "");
    assert DocText(d) == Sign(m) + GapText(g) + Show(v);
    ReadsOne(d, flags, max);
  }

  /** One document alone. */
  lemma {:induction false} ReadsOne(d: Doc, flags: Flags, max: nat)
    requires DocOk(d, flags) && Apart(d, "") && Height(Meaning(d)) <= max
    ensures Read(DocText(d), flags, max) == Good([Meaning(d)])
  {
    hide DocOk, Apart, Height, Read, Meaning, DocText;
    var ps := More(NoGap, d, Last(NoGap));
    Single(Meaning(d));
    assert Meanings(ps) == [Meaning(d)];
    assert PartsText(Last(NoGap)) + "" == "";
    assert PartsText(ps) == DocText(d);
    ReadsText(ps, flags, max);
  }

  // ---- numbers ----

  lemma {:induction false} ZerosCount(k: nat, digits: string)
    ensures Decimal(Zeros(k) + digits) == Decimal(digits)
    decreases k + |digits|
  {
    var s := Zeros(k) + digits;
    if digits != "" {
      ZerosCount(k, digits[..|digits| - 1]);
      assert s[..|s| - 1] == Zeros(k) + digits[..|digits| - 1];
    } else if k > 0 {
      ZerosCount(k - 1, "");
      ZerosEnd(k);
      assert s[..|s| - 1] == Zeros(k - 1) + "";
    } else {
      assert s == "";
    }
  }

  lemma {:induction false} ZerosEnd(k: nat)
    requires k > 0
    ensures Zeros(k) == Zeros(k - 1) + "0"
  {
    if k > 1 { ZerosEnd(k - 1); } else { assert Zeros(0) == "" && Zeros(1) == "0" + Zeros(0); }
  }

  lemma {:induction false} NoPoint(k: nat, n: nat)
    ensures '.' !in Zeros(k) + Digits(n) && '-' !in Zeros(k) + Digits(n)
  {
    AllDigits(k, n);
    hide Zeros, Digits;
  }

  /** Digits with a sign or without, and with zeros before them or without, are the number they
      denote when 64 bits hold it, and are refused otherwise. */
  lemma {:induction false} NumberReads(k: nat, n: nat)
    ensures var digits, minus: int := Zeros(k) + Digits(n), 0 - n;
      && Convert(digits) == (if n <= 0x7FFF_FFFF_FFFF_FFFF then Good(Int(n)) else Bad(BadNumber))
      && Convert("-" + digits) == (if n <= 0x8000_0000_0000_0000 then Good(Int(minus)) else Bad(BadNumber))
  {
    var digits := Zeros(k) + Digits(n);
    NoPoint(k, n);
    ZerosCount(k, Digits(n));
    DigitsRead(n);
    assert ("-" + digits)[1..] == digits;
    assert digits != "" && digits[0] != '-';
  }

  // ---- characters ----

  const LOWER := "abcdefghijklmnopqrstuvwxyz"
  const UPPER := "ABCDEFGHIJKLMNOPQRSTUVWXYZ"

  /** The characters names are made of, one by one. */
  lemma {:induction false} Alphabet(c: char)
    ensures IsDigit(c) <==> c in "0123456789"
    ensures IsSymbolStart(c) <==> c in LOWER || c in UPPER || c in "_-+*/!?<>=%&^~."
    ensures IsSymbolChar(c) <==> IsSymbolStart(c) || c in "0123456789" || c in "#'"
  {
    assert c in "0123456789" <==> '0' <= c <= '9' by { InRun("0123456789", '0', c); }
    InRun(LOWER, 'a', c);
    InRun(UPPER, 'A', c);
  }

  /** A run of characters that follow each other. */
  lemma {:induction false} InRun(run: string, first: char, c: char)
    requires run != "" && first as int + |run| <= 128
    requires forall i :: 0 <= i < |run| ==> run[i] as int == first as int + i
    ensures c in run <==> first as int <= c as int < first as int + |run|
  {
    if first as int <= c as int < first as int + |run| { assert run[c as int - first as int] == c; }
  }

  // ---- what the printer prints ----

  /** No numeral of an integer is shorter than the printed one. */
  lemma {:induction false} ShortestInt(i: int, text: string)
    requires Numeral(text, i)
    ensures |ShowInt(i)| <= |text|
  {
    var k: nat, n: nat :|
      (text == Zeros(k) + Digits(n) && i == n) || (text == "-" + (Zeros(k) + Digits(n)) && i + n == 0);
    DigitsRead(n);
  }

  /** The letters of the escapes, and the codes they stand for. */
  const LETTERS := {('"', 34), ('\\', 92), ('n', 10), ('t', 9), ('r', 13), ('a', 7), ('b', 8), ('v', 11), ('f', 12)}

  function HexValue(d: char): int {
    if '0' <= d <= '9' then d as int - '0' as int else d as int - 'a' as int + 10
  }

  /** A character is printed as itself, as a backslash and a letter of its own, or as a backslash, an
      x and its code; always in printable characters. */
  lemma {:induction false} EscapeIs(c: char)
    requires Ascii(c)
    ensures var e := Escape(c);
      && (e == [c] <==> ' ' <= c <= '~' && c != '"' && c != '\\')
      && (forall i :: 0 <= i < |e| ==> ' ' <= e[i] <= '~') && (|e| > 1 ==> e[0] == '\\')
      && (|e| == 2 ==> (e[1], c as int) in LETTERS)
      && (|e| > 2 ==> |e| == 4 && e[1] == 'x' && 16 * HexValue(e[2]) + HexValue(e[3]) == c as int)
  {
  }
}
