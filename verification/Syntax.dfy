/** The reader and the printer as functions: text to tokens, tokens to values, values to text. */
module Syntax {
  import opened Forms
  import opened Arithmetic

  datatype Fault =
    | UnexpectedChar
    | Unterminated
    | BadEscape
    | UnexpectedEnd
    | UnexpectedToken
    | BadNumber
    | TooDeep
    | FloatLiteral      // read by the source into a float, which the value model does not have
    | MapLiteral        // likewise a map

  datatype Result<+T> = Good(value: T) | Bad(fault: Fault)

  datatype Token =
    | LParen | RParen | LBracket | RBracket | LBrace | RBrace
    | Tick | Backtick | Tilde | TildeAt | At | Hash | FunctionRef | HashParen
    | Text(v: string)
    | Number(v: string)
    | Name(v: string)
    | Keyword(v: string)
    | Eof

  /** The reader syntax a dialect turns on. */
  datatype Flags = Flags(brackets: bool, functionRef: bool, readerVector: bool)

  const DEFAULT := Flags(true, false, false)

  const MAX_DEPTH: nat := 1024

  // ---- character classes ----

  predicate IsSpace(c: char) {
    c == ' ' || c == '\t' || c == '\n' || c == '\r'
  }

  predicate IsDigit(c: char) {
    '0' <= c <= '9'
  }

  predicate IsSymbolStart(c: char) {
    'a' <= c <= 'z' || 'A' <= c <= 'Z' || c in "_-+*/!?<>=%&^~."
  }

  predicate IsSymbolChar(c: char) {
    IsSymbolStart(c) || IsDigit(c) || c == '#' || c == '\''
  }

  // ---- printing ----

  function Digit(n: nat): char
    requires n < 10
  {
    ('0' as int + n) as char
  }

  function Digits(n: nat): string {
    if n < 10 then [Digit(n)] else Digits(n / 10) + [Digit(n % 10)]
  }

  function ShowInt(i: int): string {
    if i < 0 then "-" + Digits(-i) else Digits(i)
  }

  function Hex(n: nat): char
    requires n < 16
  {
    if n < 10 then Digit(n) else ('a' as int + n - 10) as char
  }

  /** Quoting of an ASCII character. */
  function Escape(c: char): string {
    if c == '"' then "\\\""
    else if c == '\\' then "\\\\"
    else if c == '\n' then "\\n"
    else if c == '\t' then "\\t"
    else if c == '\r' then "\\r"
    else if c == 7 as char then "\\a"
    else if c == 8 as char then "\\b"
    else if c == 11 as char then "\\v"
    else if c == 12 as char then "\\f"
    else if c < ' ' || c == 127 as char then "\\x" + [Hex((c as int) / 16), Hex((c as int) % 16)]
    else [c]
  }

  function EscapeAll(s: string): string {
    if s == "" then "" else Escape(s[0]) + EscapeAll(s[1..])
  }

  function Show(v: Value): string {
    match v
    case Nil => "nil"
    case Bool(b) => if b then "true" else "false"
    case Int(i) => ShowInt(i)
    case Str(s) => "\"" + EscapeAll(s) + "\""
    case Sym(name) => name
    case Key(name) => ":" + name
    case List(items) => "(" + ShowItems(items) + ")"
    case Vec(items) => "[" + ShowItems(items) + "]"
    case Fn(name) => "#<builtin:" + name + ">"
  }

  function ShowItems(vs: seq<Value>): string {
    if vs == [] then ""
    else if |vs| == 1 then Show(vs[0])
    else Show(vs[0]) + " " + ShowItems(vs[1..])
  }

  /** The printer, which cuts off below its depth limit: a list or vector at the limit shows
      one mark for all its elements. */
  function Bounded(v: Value, depth: nat): string
    decreases v
  {
    if depth > MAX_DEPTH then "..."
    else match v
      case List(items) => "(" + BoundedItems(items, depth + 1) + ")"
      case Vec(items) => "[" + BoundedItems(items, depth + 1) + "]"
      case _ => Show(v)
  }

  function BoundedItems(vs: seq<Value>, depth: nat): string
    decreases vs
  {
    if vs == [] then ""
    else if |vs| == 1 || depth > MAX_DEPTH then Bounded(vs[0], depth)
    else Bounded(vs[0], depth) + " " + BoundedItems(vs[1..], depth)
  }

  // ---- tokens ----

  function Blank(s: string): (r: string)
    ensures |r| <= |s|
  {
    if s != "" && (IsSpace(s[0]) || s[0] == ',') then Blank(s[1..]) else s
  }

  function Comment(s: string): (r: string)
    ensures |r| <= |s|
  {
    if s == "" || s[0] == '\n' || s[0] == '\0' then s else Comment(s[1..])
  }

  /** The text from the next token on. */
  function Start(s: string): (r: string)
    ensures |r| <= |s|
    decreases |s|
  {
    var t := Blank(s);
    if t != "" && t[0] == ';' then Start(Comment(t)) else t
  }

  /** The longest run of symbol characters. */
  function SymbolLen(s: string): (n: nat)
    ensures n <= |s|
  {
    if s != "" && IsSymbolChar(s[0]) then 1 + SymbolLen(s[1..]) else 0
  }

  function NumberLen(s: string): (n: nat)
    ensures n <= |s|
  {
    if s != "" && (IsDigit(s[0]) || s[0] == '.') then 1 + NumberLen(s[1..]) else 0
  }

  function Unescape(c: char): Option<char> {
    match c
    case 'n' => Some('\n')
    case 't' => Some('\t')
    case '"' => Some('"')
    case '\\' => Some('\\')
    case 'r' => Some('\r')
    case _ => None
  }

  /** The text of a string literal after its opening quote, and what follows the closing one. */
  function Body(s: string): (r: Result<(string, string)>)
    ensures r.Good? ==> |r.value.1| < |s|
    decreases |s|
  {
    if s == "" || s[0] == '\0' then Bad(Unterminated)
    else if s[0] == '"' then Good(("", s[1..]))
    else if s[0] == '\\' then
      if |s| == 1 then Bad(BadEscape)
      else match Unescape(s[1])
        case None => Bad(BadEscape)
        case Some(c) => Consed(c, Body(s[2..]))
    else Consed(s[0], Body(s[1..]))
  }

  function Consed(c: char, r: Result<(string, string)>): Result<(string, string)> {
    match r
    case Bad(f) => Bad(f)
    case Good(p) => Good(([c] + p.0, p.1))
  }

  predicate StartsNumber(s: string) {
    s != "" && (IsDigit(s[0]) || (s[0] == '-' && |s| > 1 && IsDigit(s[1])))
  }

  /** The next token and the text after it. */
  function Scan(s: string, flags: Flags): (r: Result<(Token, string)>)
    ensures r.Good? && r.value.0 != Eof ==> |r.value.1| < |s|
  {
    var t := Start(s);
    if t == "" then Good((Eof, ""))
    else
      var c, u := t[0], t[1..];
      if c == '(' then Good((LParen, u))
      else if c == ')' then Good((RParen, u))
      else if c in "[]{}" then
        if !flags.brackets then Bad(UnexpectedChar)
        else Good((if c == '[' then LBracket else if c == ']' then RBracket else if c == '{' then LBrace
            else RBrace, u))
      else if c == '\'' then Good((Tick, u))
      else if c == '`' then Good((Backtick, u))
      else if c == '~' then (if u != "" && u[0] == '@' then Good((TildeAt, u[1..])) else Good((Tilde, u)))
      else if c == '@' then Good((At, u))
      else if c == '#' then
        if flags.functionRef && u != "" && u[0] == '\'' then Good((FunctionRef, u[1..]))
        else if flags.readerVector && u != "" && u[0] == '(' then Good((HashParen, u[1..]))
        else Good((Hash, u))
      else if c == '"' then
        match Body(u)
          case Bad(f) => Bad(f)
          case Good(p) => Good((Text(p.0), p.1))
      else if c == ':' then
        var n := SymbolLen(u);
        Good((Keyword(u[..n]), u[n..]))
      else if StartsNumber(t) then
        var n := 1 + NumberLen(u);
        Good((Number(t[..n]), t[n..]))
      else if IsSymbolStart(c) then
        var n := SymbolLen(t);
        Good((Name(t[..n]), t[n..]))
      else Bad(UnexpectedChar)
  }

  function Prepend(ts: seq<Token>, r: Result<seq<Token>>): Result<seq<Token>> {
    match r
    case Bad(f) => Bad(f)
    case Good(us) => Good(ts + us)
  }

  function Tokens(s: string, flags: Flags): Result<seq<Token>>
    decreases |s|
  {
    match Scan(s, flags)
    case Bad(f) => Bad(f)
    case Good((Eof, _)) => Good([Eof])
    case Good((t, rest)) => Prepend([t], Tokens(rest, flags))
  }

  // ---- values ----

  predicate InRange(i: int) {
    -MAX - 1 <= i <= MAX
  }

  /** The number a run of digits denotes. */
  function Decimal(s: string): Option<nat> {
    if s == "" then Some(0)
    else if !IsDigit(s[|s| - 1]) then None
    else match Decimal(s[..|s| - 1])
      case None => None
      case Some(n) => Some(10 * n + (s[|s| - 1] as int - '0' as int))
  }

  function Convert(s: string): Result<Value> {
    if '.' in s then Bad(FloatLiteral)
    else
      var digits := if s != "" && s[0] == '-' then s[1..] else s;
      if digits == "" then Bad(BadNumber)
      else match Decimal(digits)
        case None => Bad(BadNumber)
        case Some(n) =>
          var i: int := if s[0] == '-' then 0 - n else n;
          if InRange(i) then Good(Int(i)) else Bad(BadNumber)
  }

  function Head(ts: seq<Token>): Token {
    if ts == [] then Eof else ts[0]
  }

  function NameValue(name: string): Value {
    if name == "nil" then Nil
    else if name == "true" then Bool(true)
    else if name == "false" then Bool(false)
    else Sym(name)
  }

  /** One form at the given nesting, and the tokens after it. */
  function Parse(ts: seq<Token>, depth: nat, max: nat): (r: Result<(Value, seq<Token>)>)
    ensures r.Good? ==> |r.value.1| < |ts|
    decreases |ts|, 0
  {
    if depth + 1 > max then Bad(TooDeep)
    else match Head(ts)
      case Eof => Bad(UnexpectedEnd)
      case LParen => Listed(ParseItems(ts[1..], depth + 1, max, RParen))
      case LBracket => Vectored(ParseItems(ts[1..], depth + 1, max, RBracket))
      case HashParen => Vectored(ParseItems(ts[1..], depth + 1, max, RParen))
      case LBrace => Bad(MapLiteral)
      case FunctionRef => Wrapped("function", Parse(ts[1..], depth + 1, max))
      case Tick => Wrapped("quote", Parse(ts[1..], depth + 1, max))
      case Backtick => Wrapped("quasiquote", Parse(ts[1..], depth + 1, max))
      case Tilde => Wrapped("unquote", Parse(ts[1..], depth + 1, max))
      case TildeAt => Wrapped("unquote-splicing", Parse(ts[1..], depth + 1, max))
      case Text(v) => Good((Str(v), ts[1..]))
      case Number(v) => (match Convert(v) case Bad(f) => Bad(f) case Good(n) => Good((n, ts[1..])))
      case Name(v) => Good((NameValue(v), ts[1..]))
      case Keyword(v) => Good((Key(v), ts[1..]))
      case _ => Bad(UnexpectedToken)
  }

  function Listed(r: Result<(seq<Value>, seq<Token>)>): Result<(Value, seq<Token>)> {
    match r
    case Bad(f) => Bad(f)
    case Good(p) => Good((List(p.0), p.1))
  }

  function Vectored(r: Result<(seq<Value>, seq<Token>)>): Result<(Value, seq<Token>)> {
    match r
    case Bad(f) => Bad(f)
    case Good(p) => Good((Vec(p.0), p.1))
  }

  function Wrapped(head: string, r: Result<(Value, seq<Token>)>): Result<(Value, seq<Token>)> {
    match r
    case Bad(f) => Bad(f)
    case Good(p) => Good((List([Sym(head), p.0]), p.1))
  }

  /** The forms up to a closing token. */
  function ParseItems(ts: seq<Token>, depth: nat, max: nat, close: Token): (r: Result<(seq<Value>, seq<Token>)>)
    ensures r.Good? ==> |r.value.1| <= |ts|
    decreases |ts|, 1
  {
    if Head(ts) == Eof then Bad(UnexpectedToken)
    else if Head(ts) == close then Good(([], ts[1..]))
    else match Parse(ts, depth, max)
      case Bad(f) => Bad(f)
      case Good(p) =>
        match ParseItems(p.1, depth, max, close)
          case Bad(f) => Bad(f)
          case Good(q) => Good(([p.0] + q.0, q.1))
  }

  function ParseAll(ts: seq<Token>, max: nat): Result<seq<Value>>
    decreases |ts|
  {
    if Head(ts) == Eof then Good([])
    else match Parse(ts, 0, max)
      case Bad(f) => Bad(f)
      case Good(p) =>
        match ParseAll(p.1, max)
          case Bad(f) => Bad(f)
          case Good(vs) => Good([p.0] + vs)
  }

  /** All the forms of a text. */
  function Read(s: string, flags: Flags, max: nat): Result<seq<Value>> {
    match Tokens(s, flags)
    case Bad(f) => Bad(f)
    case Good(ts) => ParseAll(ts, max)
  }
}
