/** The reader as it runs: a scanner moving over the text, and a parser over the tokens with
    one stack of children shared by all nesting levels. */
module Reader {
  import opened Forms
  import opened Syntax

  function Prefixed(p: string, r: Result<(string, string)>): Result<(string, string)> {
    match r
    case Bad(f) => Bad(f)
    case Good(q) => Good((p + q.0, q.1))
  }

  lemma {:induction false} PrefixedNext(p: string, c: char, r: Result<(string, string)>)
    ensures Prefixed(p + [c], r) == Prefixed(p, Consed(c, r))
  {
    if r.Good? { assert p + [c] + r.value.0 == p + ([c] + r.value.0); }
  }

  /** A string literal one character on. */
  lemma {:induction false} BodyStep(p: string, s: string)
    ensures s == "" || s[0] == '\0' ==> Prefixed(p, Body(s)) == Bad(Unterminated)
    ensures s != "" && s[0] == '"' ==> Prefixed(p, Body(s)) == Good((p, s[1..]))
    ensures s != "" && s[0] !in "\0\"\\" ==> Prefixed(p, Body(s)) == Prefixed(p + [s[0]], Body(s[1..]))
    ensures s != "" && s[0] == '\\' ==> (Prefixed(p, Body(s)) ==
      if |s| == 1 || Unescape(s[1]).None? then Bad(BadEscape) else Prefixed(p + [Unescape(s[1]).value], Body(s[2..])))
  {
    if s != "" && s[0] == '"' { assert p + "" == p; }
    if s != "" && s[0] !in "\0\"\\" { PrefixedNext(p, s[0], Body(s[1..])); }
    if |s| > 1 && s[0] == '\\' && Unescape(s[1]).Some? { PrefixedNext(p, Unescape(s[1]).value, Body(s[2..])); }
  }

  lemma {:induction false} PrefixedNone(r: Result<(string, string)>)
    ensures Prefixed("", r) == r
  {
    if r.Good? { assert "" + r.value.0 == r.value.0; }
  }

  lemma {:induction false} BlankTwice(s: string)
    ensures Blank(Blank(s)) == Blank(s)
  {
    if s != "" && (IsSpace(s[0]) || s[0] == ',') { BlankTwice(s[1..]); }
  }

  lemma {:induction false} StartTwice(s: string)
    ensures Start(Start(s)) == Start(s)
    decreases |s|
  {
    hide Comment;
    BlankTwice(s);
    var t := Blank(s);
    if t != "" && t[0] == ';' {
      CommentShrinks(t);
      StartTwice(Comment(t));
    }
  }

  lemma {:induction false} CommentShrinks(t: string)
    requires t != "" && t[0] == ';'
    ensures |Comment(t)| < |t|
  {
  }

  class Scanner {
    const input: string
    const flags: Flags
    var pos: nat

    constructor (input: string, flags: Flags)
      ensures Valid() && this.input == input && this.flags == flags && Rest() == input
    {
      this.input, this.flags, pos := input, flags, 0;
    }

    predicate Valid()
      reads this
    {
      pos <= |input|
    }

    function Rest(): string
      reads this
      requires Valid()
    {
      input[pos..]
    }

    function Peek(): char
      reads this
    {
      if pos >= |input| then '\0' else input[pos]
    }

    method Next() returns (c: char)
      requires Valid()
      modifies this`pos
      ensures Valid() && c == old(Peek())
      ensures if old(Rest()) == "" then pos == old(pos) else pos == old(pos) + 1 && Rest() == old(Rest())[1..]
    {
      if pos >= |input| { return '\0'; }
      c := input[pos];
      pos := pos + 1;
    }

    method SkipWhitespace()
      requires Valid()
      modifies this`pos
      ensures Valid() && Rest() == Blank(old(Rest()))
    {
      while true
        invariant Valid() && Blank(Rest()) == Blank(old(Rest()))
        decreases |input| - pos
      {
        var c := Peek();
        if c == '\0' || (!IsSpace(c) && c != ',') { break; }
        var _ := Next();
      }
    }

    method ReadComment()
      requires Valid()
      modifies this`pos
      ensures Valid() && Rest() == Comment(old(Rest()))
    {
      while Peek() != '\n' && Peek() != '\0'
        invariant Valid() && Comment(Rest()) == Comment(old(Rest()))
        decreases |input| - pos
      {
        var _ := Next();
      }
    }

    method ReadRun() returns (run: string)
      requires Valid()
      modifies this`pos
      ensures Valid()
      ensures var n := SymbolLen(old(Rest())); run == old(Rest())[..n] && Rest() == old(Rest())[n..]
    {
      var start := pos;
      while IsSymbolChar(Peek())
        invariant Valid() && start <= pos && SymbolLen(input[start..]) == pos - start + SymbolLen(Rest())
        decreases |input| - pos
      {
        var _ := Next();
      }
      return input[start..pos];
    }

    method ReadNumber() returns (t: Token)
      requires Valid() && StartsNumber(Rest())
      modifies this`pos
      ensures Valid()
      ensures var n := 1 + NumberLen(old(Rest())[1..]); t == Number(old(Rest())[..n]) && Rest() == old(Rest())[n..]
    {
      var start := pos;
      if Peek() == '-' { var _ := Next(); }
      assert NumberLen(input[start + 1..]) == pos - start - 1 + NumberLen(Rest());
      while IsDigit(Peek()) || Peek() == '.'
        invariant Valid() && start <= pos && NumberLen(input[start + 1..]) == pos - start - 1 + NumberLen(Rest())
        decreases |input| - pos
      {
        var _ := Next();
      }
      return Number(input[start..pos]);
    }

    /** After the opening quote: the run up to the first escape is taken as it stands. */
    method ReadString() returns (r: Result<Token>)
      requires Valid() && Rest() != ""
      modifies this`pos
      ensures Valid()
      ensures match Body(old(Rest())[1..])
        case Bad(f) => r == Bad(f)
        case Good(p) => r == Good(Text(p.0)) && Rest() == p.1
    {
      hide Body, Prefixed, Unescape;
      var _ := Next();
      var start := pos;
      PrefixedNone(Body(Rest()));
      assert input[start..pos] == "";
      while true
        invariant Valid() && start <= pos
        invariant Body(input[start..]) == Prefixed(input[start..pos], Body(Rest()))
        decreases |input| - pos
      {
        BodyStep(input[start..pos], Rest());
        var c := Next();
        if c == '\0' { return Bad(Unterminated); }
        if c == '"' { return Good(Text(input[start..pos - 1])); }
        if c == '\\' {
          r := ReadStringEscaped(input[start..pos - 1]);
          return;
        }
        assert input[start..pos] == input[start..pos - 1] + [c];
      }
    }

    method AppendEscape(buf: string) returns (r: Result<string>)
      requires Valid()
      modifies this`pos
      ensures Valid()
      ensures if old(Rest()) == "" || Unescape(old(Rest())[0]).None? then r == Bad(BadEscape)
        else r == Good(buf + [Unescape(old(Rest())[0]).value]) && Rest() == old(Rest())[1..]
    {
      var c := Next();
      match Unescape(c) {
        case None => return Bad(BadEscape);
        case Some(d) => return Good(buf + [d]);
      }
    }

    /** From a first escape on: the rest of the literal is copied. */
    method ReadStringEscaped(prefix: string) returns (r: Result<Token>)
      requires Valid() && pos > 0 && input[pos - 1] == '\\'
      modifies this`pos
      ensures Valid()
      ensures match Prefixed(prefix, Body(old(input[pos - 1..])))
        case Bad(f) => r == Bad(f)
        case Good(p) => r == Good(Text(p.0)) && Rest() == p.1
    {
      hide Body, Prefixed, Unescape;
      ghost var all := Prefixed(prefix, Body(input[pos - 1..]));
      BodyStep(prefix, input[pos - 1..]);
      var first := AppendEscape(prefix);
      if first.Bad? { return Bad(first.fault); }
      var buf := first.value;
      while true
        invariant Valid() && all == Prefixed(buf, Body(Rest()))
        decreases |input| - pos
      {
        BodyStep(buf, Rest());
        var c := Next();
        if c == '\0' { return Bad(Unterminated); }
        if c == '"' { break; }
        if c == '\\' {
          var more := AppendEscape(buf);
          if more.Bad? { return Bad(more.fault); }
          buf := more.value;
        } else {
          buf := buf + [c];
        }
      }
      return Good(Text(buf));
    }

    /** The next token: blanks and comments are skipped first. */
    method ScanToken() returns (r: Result<Token>)
      requires Valid()
      modifies this`pos
      ensures Valid()
      ensures match Scan(old(Rest()), flags)
        case Bad(f) => r == Bad(f)
        case Good(p) => r == Good(p.0) && Rest() == p.1
    {
      hide Start, Body, SymbolLen, NumberLen, IsSymbolStart;
      StartTwice(Rest());
      SkipToToken();
      if pos >= |input| { return Good(Eof); }
      r := ReadToken();
    }

    method SkipToToken()
      requires Valid()
      modifies this`pos
      ensures Valid() && Rest() == Start(old(Rest()))
    {
      while true
        invariant Valid() && Start(Rest()) == Start(old(Rest()))
        decreases |input| - pos
      {
        ghost var here := pos;
        SkipWhitespace();
        if Peek() != ';' { break; }
        ReadComment();
      }
    }

    method ReadToken() returns (r: Result<Token>)
      requires Valid() && Rest() != "" && Start(Rest()) == Rest()
      modifies this`pos
      ensures Valid()
      ensures match Scan(old(Rest()), flags)
        case Bad(f) => r == Bad(f)
        case Good(p) => r == Good(p.0) && Rest() == p.1
    {
      hide Start, Body, SymbolLen, NumberLen, IsSymbolStart;
      var c := Peek();
      if c == '"' {
        r := ReadString();
      } else if c == ':' {
        var _ := Next();
        var name := ReadRun();
        r := Good(Keyword(name));
      } else if c in "()[]{}'`~@#" {
        r := ReadMark();
      } else if StartsNumber(Rest()) {
        var t := ReadNumber();
        r := Good(t);
      } else if IsSymbolStart(c) {
        var name := ReadRun();
        r := Good(Name(name));
      } else {
        r := Bad(UnexpectedChar);
      }
    }

    method ReadMark() returns (r: Result<Token>)
      requires Valid() && Rest() != "" && Start(Rest()) == Rest() && Rest()[0] in "()[]{}'`~@#"
      modifies this`pos
      ensures Valid()
      ensures match Scan(old(Rest()), flags)
        case Bad(f) => r == Bad(f)
        case Good(p) => r == Good(p.0) && Rest() == p.1
    {
      hide Start, Body, SymbolLen, NumberLen, IsSymbolStart;
      var c := Peek();
      if c in "[]{}" && !flags.brackets { return Bad(UnexpectedChar); }
      var _ := Next();
      var d := Peek();
      match c {
        case '(' => return Good(LParen);
        case ')' => return Good(RParen);
        case '[' => return Good(LBracket);
        case ']' => return Good(RBracket);
        case '{' => return Good(LBrace);
        case '}' => return Good(RBrace);
        case '\'' => return Good(Tick);
        case '`' => return Good(Backtick);
        case '@' => return Good(At);
        case '~' =>
          if d != '@' { return Good(Tilde); }
          var _ := Next();
          return Good(TildeAt);
        case _ =>
          if flags.functionRef && d == '\'' {
            var _ := Next();
            return Good(FunctionRef);
          } else if flags.readerVector && d == '(' {
            var _ := Next();
            return Good(HashParen);
          } else {
            return Good(Hash);
          }
      }
    }

    method Tokenize() returns (r: Result<seq<Token>>)
      requires Valid()
      modifies this`pos
      ensures r == Tokens(old(Rest()), flags)
    {
      hide Scan;
      var tokens: seq<Token> := [];
      ghost var all := Tokens(Rest(), flags);
      assert all == Prepend(tokens, all) by { if all.Good? { assert [] + all.value == all.value; } }
      while true
        invariant Valid() && all == Prepend(tokens, Tokens(Rest(), flags))
        decreases |input| - pos
      {
        ghost var s := Rest();
        var t := ScanToken();
        if t.Bad? { return Bad(t.fault); }
        TokensStep(tokens, s);
        tokens := tokens + [t.value];
        if t.value == Eof { return Good(tokens); }
      }
    }

    lemma TokensStep(tokens: seq<Token>, s: string)
      requires Scan(s, flags).Good?
      ensures var (t, rest) := Scan(s, flags).value;
        Prepend(tokens, Tokens(s, flags)) == if t == Eof then Good(tokens + [t])
            else Prepend(tokens + [t], Tokens(rest, flags))
    {
      hide Scan;
      var (t, rest) := Scan(s, flags).value;
      if t != Eof && Tokens(rest, flags).Good? {
        assert tokens + ([t] + Tokens(rest, flags).value) == tokens + [t] + Tokens(rest, flags).value;
      }
    }
  }

  // ---- parsing ----

  const LINK_BATCH: nat := 128

  function ItemsFrom(items: seq<Value>, r: Result<(seq<Value>, seq<Token>)>): Result<(seq<Value>, seq<Token>)> {
    match r
    case Bad(f) => Bad(f)
    case Good(p) => Good((items + p.0, p.1))
  }

  lemma {:induction false} ItemsStep(items: seq<Value>, ts: seq<Token>, depth: nat, max: nat, close: Token)
    requires Head(ts) != Eof && Head(ts) != close
    ensures var all := ItemsFrom(items, ParseItems(ts, depth, max, close));
      match Parse(ts, depth, max)
      case Bad(f) => all == Bad(f)
      case Good(p) => all == ItemsFrom(items + [p.0], ParseItems(p.1, depth, max, close))
  {
    hide Parse;
    match Parse(ts, depth, max) {
      case Bad(f) =>
      case Good(p) =>
        var rest := ParseItems(p.1, depth, max, close);
        if rest.Good? { assert items + ([p.0] + rest.value.0) == items + [p.0] + rest.value.0; }
    }
  }

  lemma {:induction false} ItemsEnd(items: seq<Value>, ts: seq<Token>, depth: nat, max: nat, close: Token)
    requires Head(ts) == Eof || Head(ts) == close
    ensures ItemsFrom(items, ParseItems(ts, depth, max, close)) == if Head(ts) == Eof then Bad(UnexpectedToken)
        else Good((items, ts[1..]))
  {
    hide Parse;
    assert items + [] == items;
  }

  class Parser {
    const tokens: seq<Token>
    const max: nat
    var pos: nat
    var depth: nat
    var nodes: seq<Value>

    constructor (tokens: seq<Token>, max: nat)
      ensures this.tokens == tokens && this.max == max && pos == 0 && depth == 0 && nodes == []
    {
      this.tokens, this.max, pos, depth, nodes := tokens, max, 0, 0, [];
    }

    function Rest(): seq<Token>
      reads this
    {
      if pos <= |tokens| then tokens[pos..] else []
    }

    function Peek(): (t: Token)
      reads this
      ensures t == Head(Rest())
    {
      if pos >= |tokens| then Eof else tokens[pos]
    }

    /** Copies out the children stacked since the mark, batch by batch, and unwinds the stack. */
    method TakeChildren(mark: nat) returns (items: seq<Value>)
      requires mark <= |nodes|
      modifies this`nodes
      ensures items == old(nodes)[mark..] && nodes == old(nodes)[..mark]
    {
      var n := |nodes| - mark;
      items := [];
      var i := 0;
      while i < n
        invariant 0 <= i <= n && items == nodes[mark..mark + i]
      {
        var end := if i + LINK_BATCH < n then i + LINK_BATCH else n;
        items := items + nodes[mark + i..mark + end];
        i := end;
      }
      nodes := nodes[..mark];
    }

    /** One form. It leaves the shared stack and the nesting as it found them, whether it
        succeeds or fails. */
    method ParseForm() returns (r: Result<Value>)
      requires pos <= |tokens|
      modifies this
      ensures depth == old(depth) && nodes == old(nodes)
      ensures match Parse(old(Rest()), old(depth), max)
        case Bad(f) => r == Bad(f)
        case Good(p) => r == Good(p.0) && pos <= |tokens| && Rest() == p.1
      decreases |tokens| - pos, 0
    {
      hide ParseItems, Convert, NameValue;
      depth := depth + 1;
      if depth > max {
        r := Bad(TooDeep);
      } else {
        match Peek() {
          case Eof => r := Bad(UnexpectedEnd);
          case LParen => r := ParseList();
          case LBracket => r := ParseVector(RBracket);
          case HashParen => r := ParseVector(RParen);
          case LBrace => r := Bad(MapLiteral);
          case FunctionRef => r := WrapForm("function");
          case Tick => r := WrapForm("quote");
          case Backtick => r := WrapForm("quasiquote");
          case Tilde => r := WrapForm("unquote");
          case TildeAt => r := WrapForm("unquote-splicing");
          case Text(v) => pos := pos + 1; r := Good(Str(v));
          case Number(v) => pos := pos + 1; r := Convert(v);
          case Name(v) => pos := pos + 1; r := Good(NameValue(v));
          case Keyword(v) => pos := pos + 1; r := Good(Key(v));
          case _ => r := Bad(UnexpectedToken);
        }
      }
      depth := depth - 1;
    }

    method ParseList() returns (r: Result<Value>)
      requires pos < |tokens|
      modifies this
      ensures depth == old(depth) && nodes == old(nodes)
      ensures match Listed(ParseItems(old(Rest())[1..], old(depth), max, RParen))
        case Bad(f) => r == Bad(f)
        case Good(p) => r == Good(p.0) && pos <= |tokens| && Rest() == p.1
      decreases |tokens| - pos - 1, 2
    {
      hide ParseItems;
      pos := pos + 1;
      var items := ParseChildren(RParen);
      r := if items.Good? then Good(List(items.value)) else Bad(items.fault);
    }

    method ParseVector(close: Token) returns (r: Result<Value>)
      requires pos < |tokens| && close != Eof
      modifies this
      ensures depth == old(depth) && nodes == old(nodes)
      ensures match Vectored(ParseItems(old(Rest())[1..], old(depth), max, close))
        case Bad(f) => r == Bad(f)
        case Good(p) => r == Good(p.0) && pos <= |tokens| && Rest() == p.1
      decreases |tokens| - pos - 1, 2
    {
      hide ParseItems;
      pos := pos + 1;
      var items := ParseChildren(close);
      r := if items.Good? then Good(Vec(items.value)) else Bad(items.fault);
    }

    method WrapForm(head: string) returns (r: Result<Value>)
      requires pos < |tokens|
      modifies this
      ensures depth == old(depth) && nodes == old(nodes)
      ensures match Wrapped(head, Parse(old(Rest())[1..], old(depth), max))
        case Bad(f) => r == Bad(f)
        case Good(p) => r == Good(p.0) && pos <= |tokens| && Rest() == p.1
      decreases |tokens| - pos - 1, 1
    {
      hide Parse;
      pos := pos + 1;
      var form := ParseForm();
      r := if form.Good? then Good(List([Sym(head), form.value])) else Bad(form.fault);
    }

    /** The forms up to a closing token, gathered on the shared stack. */
    method ParseChildren(close: Token) returns (r: Result<seq<Value>>)
      requires pos <= |tokens| && close != Eof
      modifies this
      ensures depth == old(depth) && nodes == old(nodes)
      ensures match ParseItems(old(Rest()), old(depth), max, close)
        case Bad(f) => r == Bad(f)
        case Good(p) => r == Good(p.0) && pos <= |tokens| && Rest() == p.1
      decreases |tokens| - pos, 1
    {
      hide Parse, ParseItems;
      var mark := |nodes|;
      ghost var items: seq<Value>, start := [], nodes;
      ghost var all := ParseItems(Rest(), depth, max, close);
      assert all == ItemsFrom(items, all) by { if all.Good? { assert [] + all.value.0 == all.value.0; } }
      while Peek() != close && Peek() != Eof
        invariant pos <= |tokens| && old(pos) <= pos && depth == old(depth) && nodes == start + items && mark == |start|
        invariant all == ItemsFrom(items, ParseItems(Rest(), depth, max, close))
        decreases |tokens| - pos
      {
        ItemsStep(items, Rest(), depth, max, close);
        ghost var rest := Rest();
        var item := ParseForm();
        if item.Bad? {
          nodes := nodes[..mark];
          return Bad(item.fault);
        }
        nodes := nodes + [item.value];
        items := items + [item.value];
      }
      ItemsEnd(items, Rest(), depth, max, close);
      if Peek() != close {
        pos := pos + 1;
        nodes := nodes[..mark];
        return Bad(UnexpectedToken);
      }
      pos := pos + 1;
      var taken := TakeChildren(mark);
      return Good(taken);
    }
  }

  /** All the forms of a text. */
  method ReadText(src: string, flags: Flags, max: nat) returns (r: Result<seq<Value>>)
    ensures r == Read(src, flags, if max == 0 then MAX_DEPTH else max)
  {
    hide Tokens, Parse, ParseAll, Joined;
    var limit := if max == 0 then MAX_DEPTH else max;
    var scanner := new Scanner(src, flags);
    var tokens := scanner.Tokenize();
    if tokens.Bad? { return Bad(tokens.fault); }
    var parser := new Parser(tokens.value, limit);
    var forms: seq<Value> := [];
    ghost var all := ParseAll(parser.Rest(), limit);
    JoinedNone(all);
    while parser.Peek() != Eof
      invariant parser.pos <= |parser.tokens| && parser.depth == 0 && parser.max == limit && fresh(parser)
      invariant all == Joined(forms, ParseAll(parser.Rest(), limit))
      decreases |parser.tokens| - parser.pos
    {
      AllStep(forms, parser.Rest(), limit);
      var form := parser.ParseForm();
      if form.Bad? { return Bad(form.fault); }
      forms := forms + [form.value];
    }
    AllStep(forms, parser.Rest(), limit);
    return Good(forms);
  }

  lemma {:induction false} JoinedNone(r: Result<seq<Value>>)
    ensures Joined([], r) == r
  {
    if r.Good? { assert [] + r.value == r.value; }
  }

  lemma {:induction false} AllStep(forms: seq<Value>, ts: seq<Token>, max: nat)
    ensures Head(ts) == Eof ==> Joined(forms, ParseAll(ts, max)) == Good(forms)
    ensures Head(ts) != Eof ==>
      match Parse(ts, 0, max)
      case Bad(f) => Joined(forms, ParseAll(ts, max)) == Bad(f)
      case Good(p) => Joined(forms, ParseAll(ts, max)) == Joined(forms + [p.0], ParseAll(p.1, max))
  {
    hide Parse;
    assert forms + [] == forms;
    if Head(ts) != Eof && Parse(ts, 0, max).Good? {
      var p := Parse(ts, 0, max).value;
      var more := ParseAll(p.1, max);
      if more.Good? { assert forms + ([p.0] + more.value) == forms + [p.0] + more.value; }
    }
  }

  function Joined(forms: seq<Value>, r: Result<seq<Value>>): Result<seq<Value>> {
    match r
    case Bad(f) => Bad(f)
    case Good(vs) => Good(forms + vs)
  }
}
