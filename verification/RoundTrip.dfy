/** Reading a printed value gives the value back, and exactly when. */
module RoundTrip {
  import opened Forms
  import opened Syntax

  // ---- what can be read back ----

  predicate SymbolOk(name: string) {
    && name != "" && IsSymbolStart(name[0]) && name[0] != '~' && !StartsNumber(name)
    && KeywordOk(name)
    && name != "nil" && name != "true" && name != "false"
  }

  predicate KeywordOk(name: string) {
    forall i :: 0 <= i < |name| ==> IsSymbolChar(name[i])
  }

  predicate CharOk(c: char) {
    ' ' <= c <= '~' || c == '\n' || c == '\t' || c == '\r'
  }

  predicate Ascii(c: char) {
    c <= 127 as char
  }

  /** A value the printer is modelled for: 64-bit integers, ASCII text, no functions. */
  predicate Plain(v: Value) {
    match v
    case Int(i) => InRange(i)
    case Str(s) => forall i :: 0 <= i < |s| ==> Ascii(s[i])
    case List(items) => forall i :: 0 <= i < |items| ==> Plain(items[i])
    case Vec(items) => forall i :: 0 <= i < |items| ==> Plain(items[i])
    case Fn(_) => false
    case _ => true
  }

  predicate NamesOk(v: Value) {
    match v
    case Sym(name) => SymbolOk(name)
    case Key(name) => KeywordOk(name)
    case List(items) => forall i :: 0 <= i < |items| ==> NamesOk(items[i])
    case Vec(items) => forall i :: 0 <= i < |items| ==> NamesOk(items[i])
    case _ => true
  }

  predicate TextOk(s: string) {
    forall i :: 0 <= i < |s| ==> CharOk(s[i])
  }

  /** The dialect can read every character and bracket of the printed value. */
  predicate Legible(v: Value, flags: Flags) {
    match v
    case Str(s) => TextOk(s)
    case List(items) => forall i :: 0 <= i < |items| ==> Legible(items[i], flags)
    case Vec(items) => flags.brackets && forall i :: 0 <= i < |items| ==> Legible(items[i], flags)
    case _ => true
  }

  function Height(v: Value): (h: nat)
    ensures h > 0
  {
    match v
    case List(items) => 1 + Heights(items)
    case Vec(items) => 1 + Heights(items)
    case _ => 1
  }

  function Heights(vs: seq<Value>): nat {
    if vs == [] then 0
    else
      var h, t := Height(vs[0]), Heights(vs[1..]);
      if h > t then h else t
  }

  // ---- numbers ----

  lemma {:induction false} DigitsRead(n: nat)
    ensures Digits(n) != "" && Decimal(Digits(n)) == Some(n)
    ensures forall i :: 0 <= i < |Digits(n)| ==> IsDigit(Digits(n)[i])
  {
    if n >= 10 {
      DigitsRead(n / 10);
      assert Digits(n)[..|Digits(n)| - 1] == Digits(n / 10);
    } else {
      assert Digits(n)[..0] == "";
    }
  }

  lemma {:induction false} IntReads(i: int)
    requires InRange(i)
    ensures Convert(ShowInt(i)) == Good(Int(i))
    ensures StartsNumber(ShowInt(i))
    ensures forall k :: 0 < k < |ShowInt(i)| ==> IsDigit(ShowInt(i)[k])
  {
    var d := Digits(if i < 0 then -i else i);
    DigitsRead(if i < 0 then -i else i);
    if i < 0 { assert ShowInt(i)[1..] == d; }
  }

  // ---- runs ----

  /** What may follow a name or a number. */
  predicate Stop(rest: string) {
    rest == "" || !IsSymbolChar(rest[0])
  }

  lemma {:induction false} SymbolRun(name: string, rest: string)
    requires KeywordOk(name) && Stop(rest)
    ensures SymbolLen(name + rest) == |name|
  {
    if name == "" {
      assert name + rest == rest;
    } else {
      assert (name + rest)[1..] == name[1..] + rest;
      SymbolRun(name[1..], rest);
    }
  }

  lemma {:induction false} NumberRun(digits: string, rest: string)
    requires (forall i :: 0 <= i < |digits| ==> IsDigit(digits[i])) && Stop(rest)
    ensures NumberLen(digits + rest) == |digits|
  {
    if digits == "" {
      assert digits + rest == rest;
    } else {
      assert (digits + rest)[1..] == digits[1..] + rest;
      NumberRun(digits[1..], rest);
    }
  }

  // ---- text ----

  lemma {:induction false} EscapeReads(c: char, s: string)
    requires Ascii(c)
    ensures CharOk(c) ==> Body(Escape(c) + s) == Consed(c, Body(s))
    ensures !CharOk(c) ==> Body(Escape(c) + s).Bad?
  {
    var t := Escape(c) + s;
    if |Escape(c)| == 1 {
      assert t[1..] == s;
    } else {
      assert t[0] == '\\' && t[1] == Escape(c)[1];
      if CharOk(c) { assert t[2..] == s; }
    }
  }

  lemma {:induction false} BodyReads(s: string, rest: string)
    requires forall i :: 0 <= i < |s| ==> Ascii(s[i])
    ensures TextOk(s) ==> Body(EscapeAll(s) + "\"" + rest) == Good((s, rest))
    ensures !TextOk(s) ==> Body(EscapeAll(s) + "\"" + rest).Bad?
  {
    if s == "" {
      assert EscapeAll(s) + "\"" + rest == "\"" + rest;
      assert ("\"" + rest)[1..] == rest;
    } else {
      hide Escape, CharOk, Body;
      var tail := EscapeAll(s[1..]) + "\"" + rest;
      assert EscapeAll(s) + "\"" + rest == Escape(s[0]) + tail;
      EscapeReads(s[0], tail);
      BodyReads(s[1..], rest);
      assert s == [s[0]] + s[1..];
    }
  }

  // ---- tokens ----

  function TokensOf(v: Value): seq<Token> {
    match v
    case Nil => [Name("nil")]
    case Bool(b) => [Name(if b then "true" else "false")]
    case Int(i) => [Number(ShowInt(i))]
    case Str(s) => [Text(s)]
    case Sym(name) => [Name(name)]
    case Key(name) => [Keyword(name)]
    case List(items) => [LParen] + TokensOfAll(items) + [RParen]
    case Vec(items) => [LBracket] + TokensOfAll(items) + [RBracket]
    case Fn(_) => []
  }

  function TokensOfAll(vs: seq<Value>): seq<Token> {
    if vs == [] then [] else TokensOf(vs[0]) + TokensOfAll(vs[1..])
  }

  /** Nothing to skip before a character that starts a token. */
  lemma {:induction false} StartHere(s: string)
    requires s != "" && !IsSpace(s[0]) && s[0] != ',' && s[0] != ';'
    ensures Start(s) == s
  {
  }

  lemma {:induction false} ScanName(name: string, rest: string, flags: Flags)
    requires name != "" && IsSymbolStart(name[0]) && name[0] != '~' && !StartsNumber(name) && KeywordOk(name)
    requires Stop(rest)
    ensures Scan(name + rest, flags) == Good((Name(name), rest))
  {
    hide Start, SymbolLen, Body, StartsNumber, IsSymbolStart, KeywordOk, IsSpace, Stop;
    var s := name + rest;
    SymbolFirst(name, rest);
    StartHere(s);
    SymbolRun(name, rest);
    assert s[..|name|] == name && s[|name|..] == rest;
  }

  lemma {:induction false} SymbolFirst(name: string, rest: string)
    requires name != "" && IsSymbolStart(name[0]) && name[0] != '~' && !StartsNumber(name) && Stop(rest)
    ensures !IsSpace(name[0]) && name[0] !in ",;()[]{}'`~@#\":" && !StartsNumber(name + rest)
  {
    var s := name + rest;
    assert |s| > 1 ==> s[1] == if |name| > 1 then name[1] else rest[0];
  }

  lemma {:induction false} ScanKeyword(name: string, rest: string, flags: Flags)
    requires KeywordOk(name) && Stop(rest)
    ensures Scan(":" + name + rest, flags) == Good((Keyword(name), rest))
  {
    hide Start, SymbolLen, Body;
    var s := ":" + name + rest;
    StartHere(s);
    assert s[1..] == name + rest;
    SymbolRun(name, rest);
    assert s[1..][..|name|] == name && s[1..][|name|..] == rest;
  }

  lemma {:induction false} ScanInt(i: int, rest: string, flags: Flags)
    requires InRange(i) && Stop(rest)
    ensures Scan(ShowInt(i) + rest, flags) == Good((Number(ShowInt(i)), rest))
  {
    hide Start, ShowInt, NumberLen, Body;
    var d := ShowInt(i);
    var s := d + rest;
    IntReads(i);
    StartHere(s);
    assert s[1..] == d[1..] + rest;
    NumberRun(d[1..], rest);
    assert s[..|d|] == d && s[|d|..] == rest;
  }

  lemma {:induction false} ScanText(s: string, rest: string, flags: Flags)
    requires forall i :: 0 <= i < |s| ==> Ascii(s[i])
    ensures TextOk(s) ==> Scan(Show(Str(s)) + rest, flags) == Good((Text(s), rest))
    ensures !TextOk(s) ==> Scan(Show(Str(s)) + rest, flags).Bad?
  {
    hide Start, EscapeAll, Body;
    var t := Show(Str(s)) + rest;
    StartHere(t);
    assert t[1..] == EscapeAll(s) + "\"" + rest;
    BodyReads(s, rest);
  }

  /** A delimiter stands for itself. */
  lemma {:induction false} ScanMark(c: char, t: Token, rest: string, flags: Flags)
    requires flags.brackets || c == '(' || c == ')'
    requires
      || (c == '(' && t == LParen) || (c == ')' && t == RParen)
      || (c == '[' && t == LBracket) || (c == ']' && t == RBracket)
    ensures Scan([c] + rest, flags) == Good((t, rest))
  {
    hide Start, Body;
    StartHere([c] + rest);
    assert ([c] + rest)[1..] == rest;
  }

  lemma {:induction false} ScanSpace(rest: string, flags: Flags)
    ensures Scan(" " + rest, flags) == Scan(rest, flags)
    ensures Tokens(" " + rest, flags) == Tokens(rest, flags)
  {
    hide Body, SymbolLen, NumberLen;
    assert (" " + rest)[1..] == rest;
    assert Start(" " + rest) == Start(rest);
  }

  /** One token off the front. */
  lemma {:induction false} Step(s: string, t: Token, rest: string, flags: Flags)
    requires Scan(s, flags) == Good((t, rest)) && t != Eof
    ensures Tokens(s, flags) == Prepend([t], Tokens(rest, flags))
  {
    hide Scan;
  }

  lemma {:induction false} PrependTwice(a: seq<Token>, b: seq<Token>, r: Result<seq<Token>>)
    ensures Prepend(a, Prepend(b, r)) == Prepend(a + b, r)
  {
    if r.Good? { assert a + (b + r.value) == a + b + r.value; }
  }

  /** Atoms. */
  lemma {:induction false} LexAtom(v: Value, rest: string, flags: Flags)
    requires Plain(v) && NamesOk(v) && !v.List? && !v.Vec? && Stop(rest)
    ensures Legible(v, flags) ==> Tokens(Show(v) + rest, flags) == Prepend(TokensOf(v), Tokens(rest, flags))
    ensures !Legible(v, flags) ==> Tokens(Show(v) + rest, flags).Bad?
  {
    hide Scan, ShowInt, EscapeAll, SymbolOk, KeywordOk, StartsNumber, IsSymbolStart, TextOk, Tokens;
    match v {
      case Str(s) =>
        ScanText(s, rest, flags);
        if TextOk(s) { Step(Show(v) + rest, Text(s), rest, flags); } else { Fails(Show(v) + rest, flags); }
      case Int(i) => ScanInt(i, rest, flags); Step(Show(v) + rest, Number(ShowInt(i)), rest, flags);
      case Key(name) => ScanKeyword(name, rest, flags); Step(Show(v) + rest, Keyword(name), rest, flags);
      case _ => NameLexes(v, rest, flags);
    }
  }

  lemma {:induction false} Fails(s: string, flags: Flags)
    requires Scan(s, flags).Bad?
    ensures Tokens(s, flags).Bad?
  {
    hide Scan;
  }

  lemma {:induction false} NameLexes(v: Value, rest: string, flags: Flags)
    requires v.Nil? || v.Bool? || (v.Sym? && SymbolOk(v.name))
    requires Stop(rest)
    ensures Tokens(Show(v) + rest, flags) == Prepend(TokensOf(v), Tokens(rest, flags))
  {
    hide Scan, Tokens;
    var name := Show(v);
    ScanName(name, rest, flags);
    Step(name + rest, Name(name), rest, flags);
  }

  predicate AllShown(vs: seq<Value>) {
    forall i :: 0 <= i < |vs| ==> Plain(vs[i]) && NamesOk(vs[i])
  }

  predicate AllLegible(vs: seq<Value>, flags: Flags) {
    forall i :: 0 <= i < |vs| ==> Legible(vs[i], flags)
  }

  lemma {:induction false} ShownParts(vs: seq<Value>)
    requires vs != []
    ensures AllShown(vs) <==> Plain(vs[0]) && NamesOk(vs[0]) && AllShown(vs[1..])
  {
    hide Plain, NamesOk;
    assert forall i :: 0 < i < |vs| ==> vs[i] == vs[1..][i - 1];
  }

  lemma {:induction false} AllParts(vs: seq<Value>, flags: Flags)
    requires vs != []
    ensures AllShown(vs) <==> Plain(vs[0]) && NamesOk(vs[0]) && AllShown(vs[1..])
    ensures AllLegible(vs, flags) <==> Legible(vs[0], flags) && AllLegible(vs[1..], flags)
  {
    hide Plain, NamesOk, Legible;
    assert forall i :: 0 < i < |vs| ==> vs[i] == vs[1..][i - 1];
  }

  /** The tokens of a printed value are the value's tokens, whatever follows; text holding a
      character the reader has no escape for is refused. */
  lemma {:induction false} Lex(v: Value, rest: string, flags: Flags)
    requires Plain(v) && NamesOk(v) && Stop(rest)
    ensures Legible(v, flags) ==> Tokens(Show(v) + rest, flags) == Prepend(TokensOf(v), Tokens(rest, flags))
    ensures !Legible(v, flags) ==> Tokens(Show(v) + rest, flags).Bad?
    decreases v
  {
    hide Tokens, Scan, AllShown, AllLegible;
    if v.Vec? && !flags.brackets {
      NoBrackets(v, rest, flags);
    } else if v.List? || v.Vec? {
      Items(v, flags);
      LexItems(v.items, (if v.List? then ")" else "]") + rest, flags);
      Enclosed(v, rest, flags);
    } else {
      LexAtom(v, rest, flags);
    }
  }

  lemma {:induction false} NoBrackets(v: Value, rest: string, flags: Flags)
    requires v.Vec? && !flags.brackets
    ensures Tokens(Show(v) + rest, flags).Bad?
  {
    hide ShowItems, Start, Body;
    StartHere(Show(v) + rest);
    Fails(Show(v) + rest, flags);
  }

  lemma {:induction false} Items(v: Value, flags: Flags)
    requires v.List? || (v.Vec? && flags.brackets)
    ensures Plain(v) && NamesOk(v) <==> AllShown(v.items)
    ensures Legible(v, flags) <==> AllLegible(v.items, flags)
  {
  }

  lemma {:induction false} ShownItems(v: Value)
    requires v.List? || v.Vec?
    ensures Plain(v) && NamesOk(v) <==> AllShown(v.items)
  {
  }

  lemma {:induction false} Enclosed(v: Value, rest: string, flags: Flags)
    requires v.List? || (v.Vec? && flags.brackets)
    ensures var inner := (if v.List? then ")" else "]") + rest;
      var body := Tokens(ShowItems(v.items) + inner, flags);
      && (body.Bad? ==> Tokens(Show(v) + rest, flags).Bad?)
      && (body == Prepend(TokensOfAll(v.items), Tokens(inner, flags)) ==>
          Tokens(Show(v) + rest, flags) == Prepend(TokensOf(v), Tokens(rest, flags)))
  {
    hide Tokens, Scan, ShowItems, TokensOfAll;
    var (o, open, c, close) := if v.List? then ('(', LParen, ')', RParen) else ('[', LBracket, ']', RBracket);
    var inner := [c] + rest;
    var body := ShowItems(v.items) + inner;
    assert Show(v) + rest == [o] + body;
    ScanMark(o, open, body, flags);
    Step([o] + body, open, body, flags);
    ScanMark(c, close, rest, flags);
    Step(inner, close, rest, flags);
    if Tokens(body, flags) == Prepend(TokensOfAll(v.items), Tokens(inner, flags)) {
      PrependTwice(TokensOfAll(v.items), [close], Tokens(rest, flags));
      PrependTwice([open], TokensOfAll(v.items) + [close], Tokens(rest, flags));
      assert [open] + (TokensOfAll(v.items) + [close]) == TokensOf(v);
    }
  }

  lemma {:induction false} LexItems(vs: seq<Value>, rest: string, flags: Flags)
    requires AllShown(vs) && Stop(rest)
    ensures AllLegible(vs, flags) ==>
      Tokens(ShowItems(vs) + rest, flags) == Prepend(TokensOfAll(vs), Tokens(rest, flags))
    ensures !AllLegible(vs, flags) ==> Tokens(ShowItems(vs) + rest, flags).Bad?
    decreases vs
  {
    hide Tokens, Scan, Plain, NamesOk, Legible, AllShown, AllLegible, Show, TokensOf;
    if vs == [] {
      assert ShowItems(vs) + rest == rest;
      NoItems(rest, flags);
    } else {
      AllParts(vs, flags);
      var tail := ShowItems(vs[1..]) + rest;
      LexItems(vs[1..], rest, flags);
      if |vs| == 1 {
        assert tail == rest;
        Lex(vs[0], rest, flags);
      } else {
        assert ShowItems(vs) + rest == Show(vs[0]) + (" " + tail);
        Lex(vs[0], " " + tail, flags);
        ScanSpace(tail, flags);
      }
      PrependTwice(TokensOf(vs[0]), TokensOfAll(vs[1..]), Tokens(rest, flags));
    }
  }

  lemma {:induction false} NoItems(rest: string, flags: Flags)
    ensures AllLegible([], flags) && Tokens(rest, flags) == Prepend([], Tokens(rest, flags))
  {
    hide Tokens;
    var r := Tokens(rest, flags);
    if r.Good? { assert [] + r.value == r.value; }
  }

  // ---- values ----

  lemma {:induction false} FirstToken(v: Value)
    requires Plain(v)
    ensures TokensOf(v) != [] && TokensOf(v)[0] !in {Eof, RParen, RBracket}
  {
  }

  lemma {:induction false} ParseAtom(v: Value, rest: seq<Token>, depth: nat, max: nat)
    requires Plain(v) && NamesOk(v) && depth < max && !v.List? && !v.Vec?
    ensures Parse(TokensOf(v) + rest, depth, max) == Good((v, rest))
  {
    hide ShowInt, Convert, ParseItems, IsSymbolStart, KeywordOk, StartsNumber;
    var ts := TokensOf(v) + rest;
    assert ts[1..] == rest;
    if v.Int? { IntReads(v.i); }
  }

  /** The tokens of a value parse to the value, whatever follows. */
  lemma {:induction false} ParseBack(v: Value, rest: seq<Token>, depth: nat, max: nat)
    requires Plain(v) && NamesOk(v) && depth + Height(v) <= max
    ensures Parse(TokensOf(v) + rest, depth, max) == Good((v, rest))
    decreases v
  {
    hide ParseItems, AllShown, Plain, NamesOk, TokensOfAll, Heights;
    if v.List? || v.Vec? {
      ShownItems(v);
      var close := if v.List? then RParen else RBracket;
      ParseItemsBack(v.items, close, rest, depth + 1, max);
      var ts := TokensOf(v) + rest;
      assert ts[1..] == TokensOfAll(v.items) + [close] + rest;
    } else {
      ParseAtom(v, rest, depth, max);
    }
  }

  lemma {:induction false} ParseItemsBack(vs: seq<Value>, close: Token, rest: seq<Token>, depth: nat, max: nat)
    requires AllShown(vs) && depth + Heights(vs) <= max && (close == RParen || close == RBracket)
    ensures ParseItems(TokensOfAll(vs) + [close] + rest, depth, max, close) == Good((vs, rest))
    decreases vs
  {
    hide Parse, TokensOf, Height, Plain, NamesOk, AllShown;
    var ts := TokensOfAll(vs) + [close] + rest;
    if vs == [] {
      assert ts == [close] + rest && ts[1..] == rest;
    } else {
      ShownParts(vs);
      FirstToken(vs[0]);
      var tail := TokensOfAll(vs[1..]) + [close] + rest;
      assert ts == TokensOf(vs[0]) + tail;
      ParseBack(vs[0], tail, depth, max);
      ParseItemsBack(vs[1..], close, rest, depth, max);
      assert vs == [vs[0]] + vs[1..];
    }
  }

  // ---- printing under the limit ----

  lemma {:induction false} Untruncated(v: Value, depth: nat)
    requires depth + Height(v) <= MAX_DEPTH + 1
    ensures Bounded(v, depth) == Show(v)
    decreases v
  {
    if v.List? || v.Vec? { UntruncatedItems(v.items, depth + 1); }
  }

  lemma {:induction false} UntruncatedItems(vs: seq<Value>, depth: nat)
    requires depth + Heights(vs) <= MAX_DEPTH + 1
    ensures BoundedItems(vs, depth) == ShowItems(vs)
    decreases vs
  {
    if vs != [] {
      Untruncated(vs[0], depth);
      UntruncatedItems(vs[1..], depth);
    }
  }

  // ---- nothing else can be read ----

  predicate TokenOk(t: Token) {
    match t
    case Name(v) => v != "" && IsSymbolStart(v[0]) && v[0] != '~' && !StartsNumber(v) && KeywordOk(v)
    case Keyword(v) => KeywordOk(v)
    case _ => true
  }

  lemma {:induction false} RunOk(s: string)
    ensures KeywordOk(s[..SymbolLen(s)])
  {
    if s != "" && IsSymbolChar(s[0]) {
      RunOk(s[1..]);
      assert s[..SymbolLen(s)] == [s[0]] + s[1..][..SymbolLen(s[1..])];
    }
  }

  lemma {:induction false} ScanOk(s: string, flags: Flags)
    requires Scan(s, flags).Good?
    ensures TokenOk(Scan(s, flags).value.0)
  {
    hide Start, Body, KeywordOk, NumberLen;
    var t := Start(s);
    RunOk(t);
    if t != "" { RunOk(t[1..]); }
  }

  ghost predicate TokensOk(ts: seq<Token>) {
    forall i :: 0 <= i < |ts| ==> TokenOk(ts[i])
  }

  lemma {:induction false} LexOk(s: string, flags: Flags)
    requires Tokens(s, flags).Good?
    ensures TokensOk(Tokens(s, flags).value)
    decreases |s|
  {
    hide Scan, TokenOk;
    ScanOk(s, flags);
    var (t, rest) := Scan(s, flags).value;
    if t != Eof { LexOk(rest, flags); } else { EofOk(); }
  }

  lemma {:induction false} EofOk()
    ensures TokenOk(Eof)
  {
  }

  /** A value the parser returns: its names are readable and it nests no deeper than allowed. */
  ghost predicate Read1(v: Value, depth: nat, max: nat) {
    NamesOk(v) && depth + Height(v) <= max
  }

  ghost predicate ReadAll(vs: seq<Value>, depth: nat, max: nat) {
    (forall i :: 0 <= i < |vs| ==> NamesOk(vs[i])) && depth + Heights(vs) <= max
  }

  lemma {:induction false} NameRead(name: string)
    requires TokenOk(Name(name))
    ensures NamesOk(NameValue(name)) && Height(NameValue(name)) == 1
  {
  }

  lemma {:induction false} RestOk(ts: seq<Token>, k: nat)
    requires TokensOk(ts) && k <= |ts|
    ensures TokensOk(ts[k..])
  {
  }

  lemma {:induction false} WrapOk(head: string, v: Value, depth: nat, max: nat)
    requires Read1(v, depth + 1, max) && head in {"quote", "quasiquote", "unquote", "unquote-splicing", "function"}
    ensures Read1(List([Sym(head), v]), depth, max)
  {
    hide SymbolOk;
    var items := [Sym(head), v];
    HeadOk(head);
    Single(v);
    assert items[1..] == [v];
    assert Height(Sym(head)) == 1;
    assert Heights(items) == Height(v);
    forall i | 0 <= i < |items| ensures NamesOk(items[i]) { assert items[i] == Sym(head) || items[i] == v; }
  }

  lemma {:induction false} Single(v: Value)
    ensures Heights([v]) == Height(v)
  {
    hide Height;
    assert [v][1..] == [];
  }

  lemma {:induction false} HeadOk(head: string)
    requires head in {"quote", "quasiquote", "unquote", "unquote-splicing", "function"}
    ensures SymbolOk(head)
  {
  }

  lemma {:induction false} CollectionOk(vs: seq<Value>, depth: nat, max: nat)
    requires ReadAll(vs, depth + 1, max)
    ensures Read1(List(vs), depth, max) && Read1(Vec(vs), depth, max)
  {
  }

  lemma {:induction false} ConsOk(v: Value, vs: seq<Value>, depth: nat, max: nat)
    requires Read1(v, depth, max) && ReadAll(vs, depth, max)
    ensures ReadAll([v] + vs, depth, max)
  {
    hide NamesOk, Height;
    var all := [v] + vs;
    assert all[1..] == vs;
  }

  lemma {:induction false} ParseOk(ts: seq<Token>, depth: nat, max: nat)
    requires TokensOk(ts) && Parse(ts, depth, max).Good?
    ensures var p := Parse(ts, depth, max).value; Read1(p.0, depth, max) && TokensOk(p.1)
    decreases |ts|, 0
  {
    hide ParseItems, Read1, ReadAll, Convert, NameValue, NamesOk, Height, TokenOk, TokensOk;
    RestOk(ts, 1);
    match ts[0] {
      case LParen => ParseItemsOk(ts[1..], depth + 1, max, RParen);
          CollectionOk(ParseItems(ts[1..], depth + 1, max, RParen).value.0, depth, max);
      case LBracket => ParseItemsOk(ts[1..], depth + 1, max, RBracket);
          CollectionOk(ParseItems(ts[1..], depth + 1, max, RBracket).value.0, depth, max);
      case HashParen => ParseItemsOk(ts[1..], depth + 1, max, RParen);
          CollectionOk(ParseItems(ts[1..], depth + 1, max, RParen).value.0, depth, max);
      case FunctionRef => ParseOk(ts[1..], depth + 1, max);
          WrapOk("function", Parse(ts[1..], depth + 1, max).value.0, depth, max);
      case Tick => ParseOk(ts[1..], depth + 1, max);
          WrapOk("quote", Parse(ts[1..], depth + 1, max).value.0, depth, max);
      case Backtick => ParseOk(ts[1..], depth + 1, max);
          WrapOk("quasiquote", Parse(ts[1..], depth + 1, max).value.0, depth, max);
      case Tilde => ParseOk(ts[1..], depth + 1, max);
          WrapOk("unquote", Parse(ts[1..], depth + 1, max).value.0, depth, max);
      case TildeAt => ParseOk(ts[1..], depth + 1, max);
          WrapOk("unquote-splicing", Parse(ts[1..], depth + 1, max).value.0, depth, max);
      case _ => AtomOk(ts, depth, max);
    }
  }

  lemma {:induction false} AtomOk(ts: seq<Token>, depth: nat, max: nat)
    requires TokensOk(ts) && ts != [] && depth < max
    requires ts[0].Text? || ts[0].Number? || ts[0].Name? || ts[0].Keyword?
    requires Parse(ts, depth, max).Good?
    ensures Read1(Parse(ts, depth, max).value.0, depth, max)
  {
    hide ParseItems, SymbolOk;
    assert TokenOk(ts[0]);
    if ts[0].Name? { NameRead(ts[0].v); }
  }

  lemma {:induction false} ParseItemsOk(ts: seq<Token>, depth: nat, max: nat, close: Token)
    requires TokensOk(ts) && ParseItems(ts, depth, max, close).Good? && depth <= max
    ensures var p := ParseItems(ts, depth, max, close).value; ReadAll(p.0, depth, max) && TokensOk(p.1)
    decreases |ts|, 1
  {
    hide Parse, Read1, ReadAll, TokensOk;
    RestOk(ts, 1);
    if Head(ts) == close {
      NoneRead(depth, max);
    } else {
      ParseOk(ts, depth, max);
      var p := Parse(ts, depth, max).value;
      ParseItemsOk(p.1, depth, max, close);
      ConsOk(p.0, ParseItems(p.1, depth, max, close).value.0, depth, max);
    }
  }

  lemma {:induction false} NoneRead(depth: nat, max: nat)
    requires depth <= max
    ensures ReadAll([], depth, max)
  {
  }

  lemma {:induction false} ParseAllOk(ts: seq<Token>, max: nat)
    requires TokensOk(ts) && ParseAll(ts, max).Good?
    ensures ReadAll(ParseAll(ts, max).value, 0, max)
    decreases |ts|
  {
    hide Parse, Read1, ReadAll, TokensOk;
    if Head(ts) == Eof {
      NoneRead(0, max);
    } else {
      ParseOk(ts, 0, max);
      var p := Parse(ts, 0, max).value;
      ParseAllOk(p.1, max);
      ConsOk(p.0, ParseAll(p.1, max).value, 0, max);
    }
  }

  // ---- the round trip ----

  lemma {:induction false} ReadsBack(v: Value, flags: Flags, max: nat)
    requires Plain(v) && NamesOk(v) && Legible(v, flags) && Height(v) <= max
    ensures Read(Show(v), flags, max) == Good([v])
  {
    hide Tokens, Parse, TokensOf, Plain, NamesOk, Legible, Height, Show;
    Lex(v, "", flags);
    assert Show(v) + "" == Show(v);
    Nothing(flags);
    var ts := TokensOf(v) + [Eof];
    FirstToken(v);
    ParseBack(v, [Eof], 0, max);
    assert Tokens(Show(v), flags) == Good(ts);
    assert ParseAll([Eof], max) == Good([]);
    assert ParseAll(ts, max) == Good([v] + []);
    assert [v] + [] == [v];
  }

  lemma {:induction false} Nothing(flags: Flags)
    ensures Tokens("", flags) == Good([Eof])
  {
    assert Start("") == "";
    assert Scan("", flags) == Good((Eof, ""));
  }

  /** What the reader returns it could also have been asked for. */
  lemma {:induction false} OnlyReadable(s: string, flags: Flags, max: nat, v: Value)
    requires Read(s, flags, max) == Good([v])
    ensures NamesOk(v) && Height(v) <= max
  {
    hide Tokens, ParseAll, NamesOk, Height;
    LexOk(s, flags);
    ParseAllOk(Tokens(s, flags).value, max);
    Single(v);
    assert [v][0] == v;
  }

  /** A printed value reads back as itself exactly when its names and its text are readable, it
      nests within the limit, and it has no vector the dialect has no brackets for. */
  lemma {:induction false} ReadPrinted(v: Value, flags: Flags)
    requires Plain(v)
    ensures Read(Bounded(v, 0), flags, MAX_DEPTH) == Good([v])
      <==> NamesOk(v) && Legible(v, flags) && Height(v) <= MAX_DEPTH
  {
    hide Read, NamesOk, Legible, Height, Plain, Bounded, Show;
    if Read(Bounded(v, 0), flags, MAX_DEPTH) == Good([v]) {
      OnlyReadable(Bounded(v, 0), flags, MAX_DEPTH, v);
    }
    if NamesOk(v) && Height(v) <= MAX_DEPTH {
      Untruncated(v, 0);
      if Legible(v, flags) { ReadsBack(v, flags, MAX_DEPTH); } else { Refuses(v, flags, MAX_DEPTH); }
    }
  }

  lemma {:induction false} Refuses(v: Value, flags: Flags, max: nat)
    requires Plain(v) && NamesOk(v) && !Legible(v, flags)
    ensures Read(Show(v), flags, max).Bad?
  {
    hide Tokens, Plain, NamesOk, Legible, Show;
    Lex(v, "", flags);
    assert Show(v) + "" == Show(v);
  }
}
