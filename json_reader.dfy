/**
 * The JSON reader: a recursive-descent parser from text to a tagged value,
 * or to an (error kind, line, column) diagnostic.
 *
 * The text is a sequence of characters read like a C string: `At` yields
 * '\0' past the end, and an embedded '\0' ends the input as well.
 */
module JsonReader {

  /** The reader refuses to nest values deeper than this (kStackLimit). */
  const StackLimit: nat := 100

  const MinInt32: int := -0x8000_0000
  const MaxInt32: int := 0x7fff_ffff

  datatype Option<T> = None | Some(value: T)

  datatype Result<T, E> = Ok(value: T) | Err(error: E)

  /** The value tree. A Double keeps its literal text (see README, Left out). */
  datatype Value =
    | Null
    | Bool(b: bool)
    | Integer(i: int)
    | Double(literal: string)
    | Str(units: seq<int>)
    | List(items: seq<Value>)
    | Dict(entries: map<seq<int>, Value>)

  datatype ErrorKind =
    | BadRootElementType
    | InvalidEscape
    | SyntaxError
    | TrailingComma
    | TooMuchNesting
    | UnexpectedDataAfterRoot
    | UnquotedDictionaryKey

  /** What the diagnostics entry point reports: the kind and a 1-based position. */
  datatype ParseError = ParseError(kind: ErrorKind, line: nat, column: nat)

  datatype Token =
    | NullToken
    | TrueToken
    | FalseToken
    | NumberToken(literal: string)
    | StringToken(units: seq<int>)
    | ArrayBegin
    | ArrayEnd
    | ObjectBegin
    | ObjectEnd
    | PairSeparator
    | ListSeparator
    | EndOfInput
      // A token the lexer refused; `code` is set when the lexer recorded an
      // error of its own (a bad escape) at a position of its own.
    | InvalidToken(code: Option<(ErrorKind, nat)>)

  /** A token and the offset just past it (equal to its start when nothing is consumed). */
  datatype Lexed = Lexed(token: Token, end: nat)

  /** Outcome of parsing one production from an offset. */
  datatype Parsed<T> = Parsed(value: T, next: nat) | Failed(kind: ErrorKind, at: nat)

  // ---------------------------------------------------------------------------
  // Characters

  function At(s: string, i: nat): char
  {
    if i < |s| then s[i] else '\0'
  }

  predicate IsDigit(c: char)
  {
    '0' <= c <= '9'
  }

  predicate IsHexDigit(c: char)
  {
    '0' <= c <= '9' || 'a' <= c <= 'f' || 'A' <= c <= 'F'
  }

  function HexDigitValue(c: char): (v: nat)
    requires IsHexDigit(c)
    ensures v < 16
  {
    if '0' <= c <= '9' then c as nat - '0' as nat
    else if 'a' <= c <= 'f' then c as nat - 'a' as nat + 10
    else c as nat - 'A' as nat + 10
  }

  /** The n characters from offset i are all hexadecimal digits. */
  predicate HexRun(s: string, i: nat, n: nat)
  {
    forall k :: i <= k < i + n ==> IsHexDigit(At(s, k))
  }

  /** The number the n hexadecimal digits from offset i spell, most significant first. */
  function HexNumber(s: string, i: nat, n: nat): (r: nat)
    requires HexRun(s, i, n)
  {
    if n == 0 then 0
    else HexNumber(s, i, n - 1) * 16 + HexDigitValue(At(s, i + n - 1))
  }

  /** n hex digits give a value below 16 to the n. */
  lemma {:induction false} HexNumberBelow(s: string, i: nat, n: nat)
    requires HexRun(s, i, n)
    ensures HexNumber(s, i, n) < Pow16(n)
  {
    if n > 0 {
      HexNumberBelow(s, i, n - 1);
      assert HexDigitValue(At(s, i + n - 1)) < 16;
    }
  }

  // ---------------------------------------------------------------------------
  // Trivia: whitespace and comments

  /** Past a `//` comment: through the first line break, or to the end. */
  function LineCommentEnd(s: string, i: nat): (j: nat)
    requires i <= |s|
    ensures i <= j <= |s|
    decreases |s| - i
  {
    if At(s, i) == '\0' then i
    else if At(s, i) == '\n' || At(s, i) == '\r' then i + 1
    else LineCommentEnd(s, i + 1)
  }

  /** Past the closing `*` `/` of a block comment, or None when it is never closed. */
  function BlockCommentEnd(s: string, i: nat): (r: Option<nat>)
    requires i <= |s|
    ensures r.Some? ==> i < r.value <= |s|
    decreases |s| - i
  {
    if At(s, i) == '\0' then None
    else if At(s, i) == '*' && At(s, i + 1) == '/' then Some(i + 2)
    else BlockCommentEnd(s, i + 1)
  }

  /** Skips spaces, tabs, line breaks and comments from offset i. */
  function SkipTrivia(s: string, i: nat): (j: nat)
    requires i <= |s|
    ensures i <= j <= |s|
    decreases |s| - i
  {
    var c := At(s, i);
    if c == ' ' || c == '\n' || c == '\r' || c == '\t' then SkipTrivia(s, i + 1)
    else if c == '/' && At(s, i + 1) == '/' then SkipTrivia(s, LineCommentEnd(s, i + 2))
    else if c == '/' && At(s, i + 1) == '*' then
      match BlockCommentEnd(s, i + 2)
      case Some(j) => SkipTrivia(s, j)
      case None => i
    else i
  }

  // ---------------------------------------------------------------------------
  // Numbers

  function DigitRunEnd(s: string, i: nat): (j: nat)
    requires i <= |s|
    ensures i <= j <= |s|
    ensures forall k :: i <= k < j ==> IsDigit(s[k])
    ensures !IsDigit(At(s, j))
    decreases |s| - i
  {
    if IsDigit(At(s, i)) then DigitRunEnd(s, i + 1) else i
  }

  /** End of the optional exponent starting at offset i, or None when it has no digit. */
  function ExponentEnd(s: string, i: nat): (r: Option<nat>)
    requires i <= |s|
  {
    if At(s, i) == 'e' || At(s, i) == 'E' then
      var d := if At(s, i + 1) == '-' || At(s, i + 1) == '+' then i + 2 else i + 1;
      var e := DigitRunEnd(s, d);
      if e == d then None else Some(e)
    else Some(i)
  }

  /**
   * Without `e` or `E` the exponent is empty; a taken exponent ends within
   * the text, on a digit that no digit follows.
   */
  lemma ExponentEndShape(s: string, i: nat)
    requires i <= |s|
    ensures var r := ExponentEnd(s, i);
            && (r.Some? ==> i <= r.value <= |s|)
            && (r == Some(i) <==> At(s, i) != 'e' && At(s, i) != 'E')
            && (r.Some? && r.value > i ==> IsDigit(s[r.value - 1]) && !IsDigit(At(s, r.value)))
  {
  }

  /** Scans `-? int frac? exp?` from offset p; p holds '-' or a digit. */
  function LexNumber(s: string, p: nat): (r: Lexed)
    requires p < |s|
    ensures r.token.NumberToken? ==> p < r.end <= |s| && r.token.literal == s[p..r.end]
    ensures !r.token.NumberToken? ==> r == Lexed(InvalidToken(None), p)
  {
    var a := if s[p] == '-' then p + 1 else p;
    var b := DigitRunEnd(s, a);
    if b == a || (b - a > 1 && s[a] == '0') then Lexed(InvalidToken(None), p)
    else
      var f := if At(s, b) == '.' then DigitRunEnd(s, b + 1) else b;
      if At(s, b) == '.' && f == b + 1 then Lexed(InvalidToken(None), p)
      else
        match ExponentEnd(s, f)
        case None => Lexed(InvalidToken(None), p)
        case Some(e) => Lexed(NumberToken(s[p..e]), e)
  }

  predicate AllDigits(t: string)
  {
    forall k :: 0 <= k < |t| ==> IsDigit(t[k])
  }

  /** The decimal value of a run of digits. */
  function DigitsValue(t: string): nat
    requires AllDigits(t)
  {
    if t == [] then 0 else DigitsValue(t[..|t| - 1]) * 10 + (t[|t| - 1] as nat - '0' as nat)
  }

  /** A literal with neither fraction nor exponent: `-? digits`. */
  predicate IsIntegerLiteral(t: string)
  {
    if |t| > 0 && t[0] == '-' then |t| > 1 && AllDigits(t[1..]) else |t| > 0 && AllDigits(t)
  }

  function IntegerLiteralValue(t: string): int
    requires IsIntegerLiteral(t)
  {
    if t[0] == '-' then -(DigitsValue(t[1..]) as int) else DigitsValue(t)
  }

  /** Integer when the literal is an integer that fits 32 bits, Double otherwise. */
  function DecodeNumber(t: string): (v: Value)
  {
    if IsIntegerLiteral(t) && MinInt32 <= IntegerLiteralValue(t) <= MaxInt32
    then Integer(IntegerLiteralValue(t))
    else Double(t)
  }

  /** A number is an integer exactly when its literal is an integer that fits in 32 bits; any other keeps its text as a double. */
  lemma DecodeNumberMeaning(t: string)
    ensures var v := DecodeNumber(t);
            && (v.Integer? || v.Double?)
            && (v.Integer? <==> IsIntegerLiteral(t) && MinInt32 <= IntegerLiteralValue(t) <= MaxInt32)
            && (v.Integer? ==> v.i == IntegerLiteralValue(t))
            && (v.Double? ==> v.literal == t)
  {
  }

  // ---------------------------------------------------------------------------
  // Strings

  /** The code unit a one-character escape stands for. */
  function SimpleEscape(e: char): (r: Option<int>)
  {
    match e
    case '"' => Some(34)
    case '\\' => Some(92)
    case '/' => Some(47)
    case 'b' => Some(8)
    case 'f' => Some(12)
    case 'n' => Some(10)
    case 'r' => Some(13)
    case 't' => Some(9)
    case 'v' => Some(11)
    case _ => None
  }

  /** A one-character escape decodes to an ASCII code unit; `x`, `u` and the end of input are not one-character escapes. */
  lemma SimpleEscapeIsAscii(e: char)
    ensures SimpleEscape(e).Some? ==> 0 < SimpleEscape(e).value < 0x80
    ensures e == 'x' || e == 'u' || e == '\0' ==> SimpleEscape(e).None?
  {
  }

  /**
   * Scans the body of a string literal that opened at `start`, decoding as it
   * goes; `i` is the next character and `acc` what was decoded so far.
   */
  function LexString(s: string, start: nat, i: nat, acc: seq<int>): (r: Lexed)
    requires start < i <= |s|
    ensures r.token.StringToken? ==> i < r.end <= |s|
    ensures r.token.InvalidToken? ==> r.end == start
    ensures r.token.InvalidToken? && r.token.code.Some? ==> r.token.code.value.1 <= |s|
    ensures r.token.StringToken? || r.token.InvalidToken?
    decreases |s| - i
  {
    var c := At(s, i);
    if c == '\0' then Lexed(InvalidToken(None), start)
    else if c == '"' then Lexed(StringToken(acc), i + 1)
    else if c == '\\' then
      var e := At(s, i + 1);
      if e == 'x' then
        if HexRun(s, i + 2, 2) then
          assert IsHexDigit(At(s, i + 3));
          LexString(s, start, i + 4, acc + [HexNumber(s, i + 2, 2)])
        else Lexed(InvalidToken(Some((InvalidEscape, i + 1))), start)
      else if e == 'u' then
        if HexRun(s, i + 2, 4) then
          assert IsHexDigit(At(s, i + 5));
          LexString(s, start, i + 6, acc + [HexNumber(s, i + 2, 4)])
        else Lexed(InvalidToken(Some((InvalidEscape, i + 1))), start)
      else
        match SimpleEscape(e)
        case Some(u) => LexString(s, start, i + 2, acc + [u])
        case None => Lexed(InvalidToken(Some((InvalidEscape, i + 1))), start)
    else LexString(s, start, i + 1, acc + [c as int])
  }

  // ---------------------------------------------------------------------------
  // Tokens

  /** The token starting at offset p (trivia already skipped). */
  function Lex(s: string, p: nat): (r: Lexed)
    requires p <= |s|
    ensures r.token.InvalidToken? || r.token.EndOfInput? ==> r.end == p
    ensures !(r.token.InvalidToken? || r.token.EndOfInput?) ==> p < r.end <= |s|
    ensures r.token.InvalidToken? && r.token.code.Some? ==> r.token.code.value.1 <= |s|
    ensures r.token.EndOfInput? <==> At(s, p) == '\0'
  {
    var c := At(s, p);
    if c == '\0' then Lexed(EndOfInput, p)
    else if c == 'n' then
      if p + 4 <= |s| && s[p..p + 4] == "null" then Lexed(NullToken, p + 4) else Lexed(InvalidToken(None), p)
    else if c == 't' then
      if p + 4 <= |s| && s[p..p + 4] == "true" then Lexed(TrueToken, p + 4) else Lexed(InvalidToken(None), p)
    else if c == 'f' then
      if p + 5 <= |s| && s[p..p + 5] == "false" then Lexed(FalseToken, p + 5) else Lexed(InvalidToken(None), p)
    else if c == '[' then Lexed(ArrayBegin, p + 1)
    else if c == ']' then Lexed(ArrayEnd, p + 1)
    else if c == '{' then Lexed(ObjectBegin, p + 1)
    else if c == '}' then Lexed(ObjectEnd, p + 1)
    else if c == ':' then Lexed(PairSeparator, p + 1)
    else if c == ',' then Lexed(ListSeparator, p + 1)
    else if c == '-' || IsDigit(c) then LexNumber(s, p)
    else if c == '"' then LexString(s, p, p + 1, [])
    else Lexed(InvalidToken(None), p)
  }

  /**
   * The failure for an unexpected token at p: the lexer's own error if it
   * recorded one, otherwise a syntax error at the token.
   */
  function TokenFailure<T>(t: Token, p: nat): Parsed<T>
  {
    match t
    case InvalidToken(Some(code)) => Failed(code.0, code.1)
    case _ => Failed(SyntaxError, p)
  }

  // ---------------------------------------------------------------------------
  // The parser

  /**
   * One value from offset pos; `depth` counts the values being parsed around
   * it. The root may be required to be a list or a dictionary.
   */
  function ParseValue(s: string, pos: nat, depth: nat, isRoot: bool, allowTrailingComma: bool): (r: Parsed<Value>)
    requires pos <= |s|
    ensures r.Parsed? ==> pos < r.next <= |s|
    ensures r.Failed? ==> r.at <= |s|
    decreases |s| - pos, 0
  {
    var p := SkipTrivia(s, pos);
    if depth + 1 > StackLimit then Failed(TooMuchNesting, p)
    else
      var lexed := Lex(s, p);
      if isRoot && !(lexed.token.ArrayBegin? || lexed.token.ObjectBegin?) then Failed(BadRootElementType, p)
      else
        match lexed.token
        case NullToken => Parsed(Null, lexed.end)
        case TrueToken => Parsed(Bool(true), lexed.end)
        case FalseToken => Parsed(Bool(false), lexed.end)
        case NumberToken(literal) => Parsed(DecodeNumber(literal), lexed.end)
        case StringToken(units) => Parsed(Str(units), lexed.end)
        case ArrayBegin => ParseArray(s, lexed.end, depth + 1, allowTrailingComma)
        case ObjectBegin => ParseObject(s, lexed.end, depth + 1, allowTrailingComma)
        case _ => TokenFailure(lexed.token, p)
  }

  /** The rest of a list after its `[`, at offset q. */
  function ParseArray(s: string, q: nat, depth: nat, allowTrailingComma: bool): (r: Parsed<Value>)
    requires q <= |s|
    ensures r.Parsed? ==> q < r.next <= |s| && r.value.List?
    ensures r.Failed? ==> r.at <= |s|
    decreases |s| - q, 2
  {
    var p := SkipTrivia(s, q);
    if Lex(s, p).token.ArrayEnd? then Parsed(List([]), p + 1)
    else ParseElements(s, p, depth, [], allowTrailingComma)
  }

  /** List elements from offset p (a token other than `]`), after `acc`. */
  function ParseElements(s: string, p: nat, depth: nat, acc: seq<Value>, allowTrailingComma: bool): (r: Parsed<Value>)
    requires p <= |s|
    ensures r.Parsed? ==> p < r.next <= |s| && r.value.List?
    ensures r.Failed? ==> r.at <= |s|
    decreases |s| - p, 1
  {
    match ParseValue(s, p, depth, false, allowTrailingComma)
    case Failed(k, at) => Failed(k, at)
    case Parsed(v, e) =>
      var p2 := SkipTrivia(s, e);
      var t2 := Lex(s, p2).token;
      if t2.ListSeparator? then
        var p3 := SkipTrivia(s, p2 + 1);
        if Lex(s, p3).token.ArrayEnd? then
          if allowTrailingComma then Parsed(List(acc + [v]), p3 + 1) else Failed(TrailingComma, p3)
        else ParseElements(s, p3, depth, acc + [v], allowTrailingComma)
      else if t2.ArrayEnd? then Parsed(List(acc + [v]), p2 + 1)
      else TokenFailure(t2, p2)
  }

  /** The rest of a dictionary after its `{`, at offset q. */
  function ParseObject(s: string, q: nat, depth: nat, allowTrailingComma: bool): (r: Parsed<Value>)
    requires q <= |s|
    ensures r.Parsed? ==> q < r.next <= |s| && r.value.Dict?
    ensures r.Failed? ==> r.at <= |s|
    decreases |s| - q, 2
  {
    var p := SkipTrivia(s, q);
    if Lex(s, p).token.ObjectEnd? then Parsed(Dict(map[]), p + 1)
    else ParseMembers(s, p, depth, map[], allowTrailingComma)
  }

  /** Dictionary entries from offset p (a token other than `}`), after `acc`; later keys overwrite. */
  function ParseMembers(s: string, p: nat, depth: nat, acc: map<seq<int>, Value>, allowTrailingComma: bool): (r: Parsed<Value>)
    requires p <= |s|
    ensures r.Parsed? ==> p < r.next <= |s| && r.value.Dict?
    ensures r.Failed? ==> r.at <= |s|
    decreases |s| - p, 1
  {
    var key := Lex(s, p);
    if !key.token.StringToken? then Failed(UnquotedDictionaryKey, p)
    else
      var p1 := SkipTrivia(s, key.end);
      var t1 := Lex(s, p1).token;
      if !t1.PairSeparator? then TokenFailure(t1, p1)
      else ParseMemberValue(s, SkipTrivia(s, p1 + 1), depth, acc, key.token.units, allowTrailingComma)
  }

  /** The value of the entry for `key`, from offset p2 past its `:`, and the entries after it. */
  function ParseMemberValue(s: string, p2: nat, depth: nat, acc: map<seq<int>, Value>, key: seq<int>,
                            allowTrailingComma: bool): (r: Parsed<Value>)
    requires p2 <= |s|
    ensures r.Parsed? ==> p2 < r.next <= |s| && r.value.Dict?
    ensures r.Failed? ==> r.at <= |s|
    decreases |s| - p2, 1
  {
    match ParseValue(s, p2, depth, false, allowTrailingComma)
    case Failed(k, at) => Failed(k, at)
    case Parsed(v, e) =>
      var entries := acc[key := v];
      var p3 := SkipTrivia(s, e);
      var t3 := Lex(s, p3).token;
      if t3.ListSeparator? then
        var p4 := SkipTrivia(s, p3 + 1);
        if Lex(s, p4).token.ObjectEnd? then
          if allowTrailingComma then Parsed(Dict(entries), p4 + 1) else Failed(TrailingComma, p4)
        else ParseMembers(s, p4, depth, entries, allowTrailingComma)
      else if t3.ObjectEnd? then Parsed(Dict(entries), p3 + 1)
      else TokenFailure(t3, p3)
  }

  // ---------------------------------------------------------------------------
  // Positions

  /** Line and column after scanning `t`: a '\n' starts a new line, any other character moves one column. */
  function LineColumn(t: string): (lc: (nat, nat))
    ensures lc.0 >= 1 && lc.1 >= 1
  {
    if t == [] then (1, 1)
    else
      var lc := LineColumn(t[..|t| - 1]);
      if t[|t| - 1] == '\n' then (lc.0 + 1, 1) else (lc.0, lc.1 + 1)
  }

  /** The diagnostic for an error of the given kind at offset `at`. */
  function ErrorAt(s: string, kind: ErrorKind, at: nat): ParseError
    requires at <= |s|
  {
    var lc := LineColumn(s[..at]);
    ParseError(kind, lc.0, lc.1)
  }

  // ---------------------------------------------------------------------------
  // Entry points

  /**
   * The whole text as one value followed only by trivia. With `checkRoot`
   * the value must be a list or a dictionary.
   */
  function JsonToValue(s: string, checkRoot: bool, allowTrailingComma: bool): (r: Result<Value, ParseError>)
    ensures checkRoot && r.Ok? ==> r.value.List? || r.value.Dict?
    ensures r.Err? ==> r.error.line >= 1 && r.error.column >= 1
  {
    match ParseValue(s, 0, 0, checkRoot, allowTrailingComma)
    case Failed(k, at) => Err(ErrorAt(s, k, at))
    case Parsed(v, e) =>
      var p := SkipTrivia(s, e);
      if Lex(s, p).token.EndOfInput? then Ok(v) else Err(ErrorAt(s, UnexpectedDataAfterRoot, p))
  }

  /** The convenience form: a list or dictionary root, or nothing. */
  function Read(s: string, allowTrailingComma: bool): (r: Option<Value>)
    ensures r.Some? ==> r.value.List? || r.value.Dict?
  {
    match JsonToValue(s, true, allowTrailingComma)
    case Ok(v) => Some(v)
    case Err(_) => None
  }

  /** The stable numeric code of each error kind; 0 means no error. */
  function ErrorCode(kind: ErrorKind): (code: int)
    ensures code != 0
  {
    match kind
    case BadRootElementType => 1
    case InvalidEscape => 2
    case SyntaxError => 3
    case TrailingComma => 4
    case TooMuchNesting => 5
    case UnexpectedDataAfterRoot => 6
    case UnquotedDictionaryKey => 7
  }

  const NoError: int := 0

  /** What the diagnostics entry point hands back: the root, the code and the message. */
  datatype Report = Report(root: Option<Value>, code: int, message: Option<ParseError>)

  /**
   * The diagnostics form. `code` and `message` are what the caller's output
   * variables held before the call: success leaves them as they were.
   */
  function ReadAndReturnError(s: string, allowTrailingComma: bool, code: int, message: Option<ParseError>): (r: Report)
    ensures r.root == Read(s, allowTrailingComma)
    ensures r.root.Some? ==> r.code == code && r.message == message
    ensures r.root.None? ==> r.message.Some? && JsonToValue(s, true, allowTrailingComma) == Err(r.message.value)
    ensures r.root.None? ==> r.code == ErrorCode(r.message.value.kind) && r.code != NoError
  {
    match JsonToValue(s, true, allowTrailingComma)
    case Ok(v) => Report(Some(v), code, message)
    case Err(e) => Report(None, ErrorCode(e.kind), Some(e))
  }

  // ---------------------------------------------------------------------------
  // Properties

  /**
   * Line and column count characters: the line is one more than the number of
   * line breaks, and the column is one more than the length of the longest
   * break-free suffix.
   */
  lemma {:induction false} LineColumnCounts(t: string)
    ensures LineColumn(t).0 == 1 + multiset(t)['\n']
    ensures LineColumn(t).1 <= |t| + 1
    ensures forall k :: |t| + 1 - LineColumn(t).1 <= k < |t| ==> t[k] != '\n'
    ensures LineColumn(t).1 <= |t| ==> t[|t| - LineColumn(t).1] == '\n'
  {
    if t != [] {
      var u := t[..|t| - 1];
      LineColumnCounts(u);
      assert t == u + [t[|t| - 1]];
      assert multiset(t) == multiset(u) + multiset{t[|t| - 1]};
    }
  }

  /** On text without a line break the error lies on line 1, one column past the text. */
  lemma LineColumnSingleLine(t: string)
    requires forall k :: 0 <= k < |t| ==> t[k] != '\n'
    ensures LineColumn(t) == (1, |t| + 1)
  {
    LineColumnCounts(t);
    assert '\n' !in multiset(t);
  }

  /** A run of digits from i up to a non-digit at j is exactly what DigitRunEnd scans. */
  lemma {:induction false} DigitRunEndOfRun(s: string, i: nat, j: nat)
    requires i <= j <= |s|
    requires forall k :: i <= k < j ==> IsDigit(s[k])
    requires !IsDigit(At(s, j))
    ensures DigitRunEnd(s, i) == j
    decreases j - i
  {
    if i < j {
      DigitRunEndOfRun(s, i + 1, j);
    }
  }

  /** The integer part of a number in section 2.4 of RFC 4627: `0`, or digits without a leading zero. */
  predicate RfcInt(t: string)
  {
    |t| >= 1 && AllDigits(t) && (t[0] == '0' ==> |t| == 1)
  }

  /** An optional fraction: nothing, or `.` and at least one digit. */
  predicate RfcFrac(t: string)
  {
    t == [] || (|t| >= 2 && t[0] == '.' && AllDigits(t[1..]))
  }

  /** An optional exponent: nothing, or `e`/`E`, an optional sign and at least one digit. */
  predicate RfcExp(t: string)
  {
    t == [] ||
    (|t| >= 2 && (t[0] == 'e' || t[0] == 'E') &&
     (if t[1] == '+' || t[1] == '-' then |t| >= 3 && AllDigits(t[2..]) else AllDigits(t[1..])))
  }

  /** `t` splits at a <= b <= c into minus, int, frac and exp. */
  predicate RfcSplit(t: string, a: nat, b: nat, c: nat)
  {
    a <= b <= c <= |t| &&
    (a == 0 || (a == 1 && t[0] == '-')) &&
    RfcInt(t[a..b]) && RfcFrac(t[b..c]) && RfcExp(t[c..])
  }

  /** The number grammar of section 2.4 of RFC 4627: `[ minus ] int [ frac ] [ exp ]`. */
  ghost predicate RfcNumber(t: string)
  {
    exists a: nat, b: nat, c: nat :: RfcSplit(t, a, b, c)
  }

  /** A slice is all digits exactly when each of its characters is a digit. */
  lemma AllDigitsSlice(s: string, i: nat, j: nat)
    requires i <= j <= |s|
    ensures AllDigits(s[i..j]) <==> forall k :: i <= k < j ==> IsDigit(s[k])
  {
    if AllDigits(s[i..j]) {
      forall k | i <= k < j ensures IsDigit(s[k]) {
        assert s[i..j][k - i] == s[k];
      }
    }
  }

  /** The fraction the lexer scans from b (a '.' and digits up to f, or nothing) follows the grammar. */
  lemma LexFracPart(s: string, b: nat, f: nat)
    requires b <= f <= |s|
    requires f == (if At(s, b) == '.' then DigitRunEnd(s, b + 1) else b)
    requires At(s, b) == '.' ==> f > b + 1
    ensures RfcFrac(s[b..f])
  {
    if At(s, b) == '.' {
      AllDigitsSlice(s, b + 1, f);
      assert s[b..f][1..] == s[b + 1..f];
    }
  }

  /** The exponent the lexer scans from f up to e follows the grammar. */
  lemma LexExpPart(s: string, f: nat, e: nat)
    requires f <= |s|
    requires ExponentEnd(s, f) == Some(e)
    ensures f <= e <= |s| && RfcExp(s[f..e])
  {
    if At(s, f) == 'e' || At(s, f) == 'E' {
      var d := if At(s, f + 1) == '-' || At(s, f + 1) == '+' then f + 2 else f + 1;
      AllDigitsSlice(s, d, e);
      if d == f + 2 {
        assert s[f..e][2..] == s[d..e];
      } else {
        assert s[f..e][1..] == s[d..e];
      }
    }
  }

  /** Every number token the lexer produces follows the grammar. */
  lemma LexedNumberIsRfc(s: string, p: nat)
    requires p < |s|
    requires Lex(s, p).token.NumberToken?
    ensures RfcNumber(Lex(s, p).token.literal)
  {
    assert Lex(s, p) == LexNumber(s, p) by {
      assert At(s, p) == '-' || IsDigit(At(s, p));
    }
    NumberTokenIsRfc(s, p);
  }

  /** A number the number lexer accepts splits into the parts of the grammar. */
  lemma NumberTokenIsRfc(s: string, p: nat)
    requires p < |s|
    requires LexNumber(s, p).token.NumberToken?
    ensures RfcNumber(LexNumber(s, p).token.literal)
  {
    var a := if s[p] == '-' then p + 1 else p;
    var b := DigitRunEnd(s, a);
    var f := if At(s, b) == '.' then DigitRunEnd(s, b + 1) else b;
    var e := LexNumber(s, p).end;
    assert ExponentEnd(s, f) == Some(e);
    assert b > a && !(b - a > 1 && s[a] == '0');
    IntPartIsRfc(s, a, b);
    LexFracPart(s, b, f);
    LexExpPart(s, f, e);
    SlicesMakeRfcNumber(s, p, a, b, f, e);
  }

  /** A digit run without a leading zero (unless it is a lone 0) is an integer part. */
  lemma IntPartIsRfc(s: string, a: nat, b: nat)
    requires a < b <= |s| && !(b - a > 1 && s[a] == '0')
    requires forall k :: a <= k < b ==> IsDigit(s[k])
    ensures RfcInt(s[a..b])
  {
    AllDigitsSlice(s, a, b);
    assert s[a..b][0] == s[a];
  }

  /** A sign, an integer part, a fraction and an exponent side by side make a number. */
  lemma SlicesMakeRfcNumber(s: string, p: nat, a: nat, b: nat, f: nat, e: nat)
    requires p <= a <= b <= f <= e <= |s|
    requires a == p || (a == p + 1 && s[p] == '-')
    requires RfcInt(s[a..b]) && RfcFrac(s[b..f]) && RfcExp(s[f..e])
    ensures RfcNumber(s[p..e])
  {
    var t := s[p..e];
    SliceOfSlice(s, p, e, a, b);
    SliceOfSlice(s, p, e, b, f);
    SliceOfSlice(s, p, e, f, e);
    assert t[f - p..] == t[f - p..e - p];
    assert RfcSplit(t, a - p, b - p, f - p);
  }

  lemma SliceOfSlice(s: string, p: nat, e: nat, i: nat, j: nat)
    requires p <= i <= j <= e <= |s|
    ensures s[p..e][i - p..j - p] == s[i..j]
  {
    var t := s[p..e][i - p..j - p];
    assert |t| == j - i;
    forall k | 0 <= k < j - i ensures t[k] == s[i + k] {
    }
  }

  /** The lexer scans the grammar's integer part and fraction of t (split at a, b, c) exactly. */
  lemma RfcIntFracScan(t: string, a: nat, b: nat, c: nat)
    requires RfcSplit(t, a, b, c)
    ensures DigitRunEnd(t, a) == b
    ensures (if At(t, b) == '.' then DigitRunEnd(t, b + 1) else b) == c
  {
    assert t[a..b][0] == t[a];
    assert !IsDigit(At(t, b)) by {
      if b < c {
        assert t[b..c][0] == t[b];
      } else if c < |t| {
        assert t[c..][0] == t[c];
      }
    }
    AllDigitsSlice(t, a, b);
    DigitRunEndOfRun(t, a, b);
    if b < c {
      assert t[b..c][0] == t[b];
      assert t[b..c][1..] == t[b + 1..c];
      AllDigitsSlice(t, b + 1, c);
      assert !IsDigit(At(t, c)) by {
        if c < |t| {
          assert t[c..][0] == t[c];
        }
      }
      DigitRunEndOfRun(t, b + 1, c);
    } else if c < |t| {
      assert t[c..][0] == t[c];
    }
  }

  /** The lexer scans the grammar's exponent of t (from c) to the end of t. */
  lemma RfcExpScan(t: string, c: nat)
    requires c <= |t| && RfcExp(t[c..])
    ensures ExponentEnd(t, c) == Some(|t|)
  {
    if c < |t| {
      assert t[c..][0] == t[c];
      assert t[c..][1] == t[c + 1];
      var d := if t[c + 1] == '-' || t[c + 1] == '+' then c + 2 else c + 1;
      if d == c + 2 {
        assert t[c..][2..] == t[d..];
      } else {
        assert t[c..][1..] == t[d..];
      }
      AllDigitsSlice(t, d, |t|);
      DigitRunEndOfRun(t, d, |t|);
    }
  }

  /** A text that is exactly a number in the grammar lexes to one number token covering it. */
  lemma RfcNumberLexes(t: string)
    requires RfcNumber(t)
    ensures Lex(t, 0) == Lexed(NumberToken(t), |t|)
  {
    var a: nat, b: nat, c: nat :| RfcSplit(t, a, b, c);
    assert t[a..b][0] == t[a];
    assert t[0] == '-' || IsDigit(t[0]);
    RfcNumberScans(t, a, b, c);
  }

  /** The number lexer takes the whole of a text split into the parts of the grammar. */
  lemma RfcNumberScans(t: string, a: nat, b: nat, c: nat)
    requires RfcSplit(t, a, b, c)
    ensures LexNumber(t, 0) == Lexed(NumberToken(t), |t|)
  {
    RfcIntFracScan(t, a, b, c);
    RfcExpScan(t, c);
    RfcSplitStart(t, a, b, c);
  }

  /** A split number starts with its sign, if any, then a digit. */
  lemma RfcSplitStart(t: string, a: nat, b: nat, c: nat)
    requires RfcSplit(t, a, b, c)
    ensures a < |t| && IsDigit(t[a]) && a == (if t[0] == '-' then 1 else 0)
    ensures t[0..|t|] == t
  {
    assert t[a..b][0] == t[a];
  }

  /**
   * From offset k inside a run of `[` that reaches offset StackLimit, parsing
   * fails for nesting at the `[` that would be the 101st level.
   */
  lemma {:induction false} OpenBracketsFail(s: string, k: nat, isRoot: bool, allowTrailingComma: bool)
    requires k <= StackLimit < |s|
    requires forall j :: k <= j <= StackLimit ==> s[j] == '['
    ensures ParseValue(s, k, k, isRoot, allowTrailingComma) == Failed(TooMuchNesting, StackLimit)
    decreases StackLimit - k
  {
    assert SkipTrivia(s, k) == k;
    if k < StackLimit {
      assert Lex(s, k) == Lexed(ArrayBegin, k + 1);
      OpenBracketsFail(s, k + 1, false, allowTrailingComma);
      assert SkipTrivia(s, k + 1) == k + 1;
      assert Lex(s, k + 1) == Lexed(ArrayBegin, k + 2);
      assert ParseElements(s, k + 1, k + 1, [], allowTrailingComma) == Failed(TooMuchNesting, StackLimit);
    }
  }

  /** Text opening with 101 `[` is refused for nesting, on line 1 at column 101, whatever follows. */
  lemma TooDeepIsRefused(s: string, checkRoot: bool, allowTrailingComma: bool)
    requires StackLimit < |s|
    requires forall j :: 0 <= j <= StackLimit ==> s[j] == '['
    ensures JsonToValue(s, checkRoot, allowTrailingComma) == Err(ParseError(TooMuchNesting, 1, StackLimit + 1))
  {
    OpenBracketsFail(s, 0, checkRoot, allowTrailingComma);
    LineColumnSingleLine(s[..StackLimit]);
  }

  /** `n` copies of `[],`. */
  function EmptyListsWithCommas(n: nat): (t: string)
    ensures |t| == 3 * n
  {
    if n == 0 then "" else EmptyListsWithCommas(n - 1) + "[],"
  }

  /** The i-th copy in EmptyListsWithCommas(n) is `[],`. */
  lemma {:induction false} EmptyListAtCopy(n: nat, i: nat)
    requires i < n
    ensures var t := EmptyListsWithCommas(n);
            t[3 * i] == '[' && t[3 * i + 1] == ']' && t[3 * i + 2] == ','
  {
    var u := EmptyListsWithCommas(n - 1);
    assert EmptyListsWithCommas(n) == u + "[],";
    if i < n - 1 {
      EmptyListAtCopy(n - 1, i);
      assert (u + "[],")[3 * i] == u[3 * i];
      assert (u + "[],")[3 * i + 1] == u[3 * i + 1];
      assert (u + "[],")[3 * i + 2] == u[3 * i + 2];
    }
  }

  /** A list of n + 1 empty lists written side by side: `[[],[],...,[]]`. */
  function SiblingLists(n: nat): (t: string)
    ensures |t| == 3 * n + 4
    ensures t[0] == '['
    ensures t[3 * n + 1] == '[' && t[3 * n + 2] == ']' && t[3 * n + 3] == ']'
  {
    "[" + EmptyListsWithCommas(n) + "[]]"
  }

  /** Each of the first n lists in SiblingLists(n) is `[]` followed by a comma. */
  lemma SiblingListAt(n: nat, i: nat)
    requires i < n
    ensures var t := SiblingLists(n);
            t[3 * i + 1] == '[' && t[3 * i + 2] == ']' && t[3 * i + 3] == ','
  {
    var e := EmptyListsWithCommas(n);
    EmptyListAtCopy(n, i);
    assert SiblingLists(n) == "[" + e + "[]]";
    assert ("[" + e + "[]]")[3 * i + 1] == e[3 * i];
    assert ("[" + e + "[]]")[3 * i + 2] == e[3 * i + 1];
    assert ("[" + e + "[]]")[3 * i + 3] == e[3 * i + 2];
  }

  /** From the j-th of n + 1 empty lists on, at offset p with `left` lists after it, whatever was read before into acc. */
  lemma {:induction false} SiblingElements(n: nat, j: nat, p: nat, left: nat, acc: seq<Value>, allowTrailingComma: bool)
    requires j <= n && p == 3 * j + 1 && left == n - j
    ensures ParseElements(SiblingLists(n), p, 1, acc, allowTrailingComma)
         == Parsed(List(acc + Empties(left + 1)), 3 * n + 4)
    decreases left
  {
    if j < n {
      SiblingElements(n, j + 1, p + 3, left - 1, acc + [List([])], allowTrailingComma);
      SiblingThenRest(n, j, p, left, left - 1, acc, allowTrailingComma);
    } else {
      SiblingLast(n, j, p, left, acc, allowTrailingComma);
    }
  }

  /** Reading the j-th sibling list and then the `rest` after it reads acc followed by all the lists from the j-th on. */
  lemma SiblingThenRest(n: nat, j: nat, p: nat, left: nat, rest: nat, acc: seq<Value>, allowTrailingComma: bool)
    requires j < n && p == 3 * j + 1 && left == n - j && rest + 1 == left
    requires ParseElements(SiblingLists(n), p + 3, 1, acc + [List([])], allowTrailingComma)
          == Parsed(List(acc + [List([])] + Empties(rest + 1)), 3 * n + 4)
    ensures ParseElements(SiblingLists(n), p, 1, acc, allowTrailingComma)
         == Parsed(List(acc + Empties(left + 1)), 3 * n + 4)
  {
    SiblingStep(n, j, p, acc, allowTrailingComma);
    MoreEmpties(acc, left);
  }

  /** The last of the sibling lists is read and closes the outer list. */
  lemma SiblingLast(n: nat, j: nat, p: nat, left: nat, acc: seq<Value>, allowTrailingComma: bool)
    requires j == n && p == 3 * j + 1 && left == 0
    ensures ParseElements(SiblingLists(n), p, 1, acc, allowTrailingComma)
         == Parsed(List(acc + Empties(left + 1)), 3 * n + 4)
  {
    EmptyListLast(SiblingLists(n), p, acc, allowTrailingComma);
    assert Empties(1) == [List([])];
  }

  /** k empty lists in a row. */
  function Empties(k: nat): (r: seq<Value>)
    ensures |r| == k
  {
    if k == 0 then [] else [List([])] + Empties(k - 1)
  }

  /** One more empty list after acc, then k of them, is k + 1 of them after acc. */
  lemma MoreEmpties(acc: seq<Value>, k: nat)
    ensures acc + [List([])] + Empties(k) == acc + Empties(k + 1)
  {
    assert Empties(k + 1) == [List([])] + Empties(k);
  }

  /** The j-th of the sibling lists, at offset p and not the last, is read and the loop goes on at the next. */
  lemma SiblingStep(n: nat, j: nat, p: nat, acc: seq<Value>, allowTrailingComma: bool)
    requires j < n && p == 3 * j + 1
    ensures ParseElements(SiblingLists(n), p, 1, acc, allowTrailingComma)
         == ParseElements(SiblingLists(n), p + 3, 1, acc + [List([])], allowTrailingComma)
  {
    var s := SiblingLists(n);
    SiblingListAt(n, j);
    assert s[p + 3] == '[' by {
      if j + 1 < n {
        SiblingListAt(n, j + 1);
      }
    }
    EmptyListThenMore(s, p, acc, allowTrailingComma);
  }

  /** `[],[` inside a list: the empty list is read and the elements go on at the next `[`. */
  lemma EmptyListThenMore(s: string, p: nat, acc: seq<Value>, allowTrailingComma: bool)
    requires p + 4 <= |s| && s[p] == '[' && s[p + 1] == ']' && s[p + 2] == ',' && s[p + 3] == '['
    ensures ParseElements(s, p, 1, acc, allowTrailingComma)
         == ParseElements(s, p + 3, 1, acc + [List([])], allowTrailingComma)
  {
    EmptyListAt(s, p, allowTrailingComma);
    ElementsContinue(s, p, 1, acc, allowTrailingComma, List([]), p + 2);
  }

  /** An element followed by `,[`: the element loop goes on at the `[`. */
  lemma {:induction false} ElementsContinue(s: string, p: nat, depth: nat, acc: seq<Value>, allowTrailingComma: bool, v: Value, e: nat)
    requires p <= |s| && e + 2 <= |s| && s[e] == ',' && s[e + 1] == '['
    requires ParseValue(s, p, depth, false, allowTrailingComma) == Parsed(v, e)
    ensures ParseElements(s, p, depth, acc, allowTrailingComma) == ParseElements(s, e + 1, depth, acc + [v], allowTrailingComma)
  {
    CommaThenList(s, e);
    ElementsAfterSeparator(s, p, depth, acc, allowTrailingComma, v, e);
  }

  /** After an element, a separator and then a `[` that are found at once send the element loop on at the `[`. */
  lemma ElementsAfterSeparator(s: string, p: nat, depth: nat, acc: seq<Value>, allowTrailingComma: bool, v: Value, e: nat)
    requires p <= |s| && e < |s|
    requires ParseValue(s, p, depth, false, allowTrailingComma) == Parsed(v, e)
    requires SkipTrivia(s, e) == e && Lex(s, e).token == ListSeparator
    requires SkipTrivia(s, e + 1) == e + 1 && Lex(s, e + 1).token == ArrayBegin
    ensures ParseElements(s, p, depth, acc, allowTrailingComma) == ParseElements(s, e + 1, depth, acc + [v], allowTrailingComma)
  {
    ElementsAfterValue(s, p, depth, acc, allowTrailingComma, v, e, e + 1);
  }

  /** An element, then a separator, then a token other than `]` at p3: the element loop goes on at p3. */
  lemma ElementsAfterValue(s: string, p: nat, depth: nat, acc: seq<Value>, allowTrailingComma: bool, v: Value, e: nat, p3: nat)
    requires p <= |s| && e <= |s|
    requires ParseValue(s, p, depth, false, allowTrailingComma) == Parsed(v, e)
    requires Lex(s, SkipTrivia(s, e)).token.ListSeparator?
    requires p3 == SkipTrivia(s, SkipTrivia(s, e) + 1) && !Lex(s, p3).token.ArrayEnd?
    ensures ParseElements(s, p, depth, acc, allowTrailingComma) == ParseElements(s, p3, depth, acc + [v], allowTrailingComma)
  {
  }

  /** `,[` at offset q: a separator that no `]` follows. */
  lemma CommaThenList(s: string, q: nat)
    requires q + 2 <= |s| && s[q] == ',' && s[q + 1] == '['
    ensures SkipTrivia(s, q) == q && Lex(s, q).token == ListSeparator
    ensures SkipTrivia(s, q + 1) == q + 1 && Lex(s, q + 1).token == ArrayBegin
  {
    assert SkipTrivia(s, q) == q;
    assert SkipTrivia(s, q + 1) == q + 1;
  }

  /** `[]]` inside a list: the empty list is its last element. */
  lemma EmptyListLast(s: string, p: nat, acc: seq<Value>, allowTrailingComma: bool)
    requires p + 3 <= |s| && s[p] == '[' && s[p + 1] == ']' && s[p + 2] == ']'
    ensures ParseElements(s, p, 1, acc, allowTrailingComma) == Parsed(List(acc + [List([])]), p + 3)
  {
    EmptyListAt(s, p, allowTrailingComma);
    assert SkipTrivia(s, p + 2) == p + 2;
    assert Lex(s, p + 2).token == ArrayEnd;
  }

  /** `[]` at offset p, inside one list, is read as an empty list. */
  lemma EmptyListAt(s: string, p: nat, allowTrailingComma: bool)
    requires p + 2 <= |s| && s[p] == '[' && s[p + 1] == ']'
    ensures ParseValue(s, p, 1, false, allowTrailingComma) == Parsed(List([]), p + 2)
  {
    assert SkipTrivia(s, p) == p;
    assert SkipTrivia(s, p + 1) == p + 1;
    assert Lex(s, p) == Lexed(ArrayBegin, p + 1);
    assert Lex(s, p + 1).token == ArrayEnd;
  }

  /** A list of n + 1 empty lists side by side is read back as exactly that, however large n is. */
  lemma SiblingListsRead(n: nat, allowTrailingComma: bool)
    ensures Read(SiblingLists(n), allowTrailingComma) == Some(List(Empties(n + 1)))
  {
    SiblingListsOpen(n);
    SiblingListsElements(n, allowTrailingComma);
    OuterListRead(SiblingLists(n), allowTrailingComma, List(Empties(n + 1)));
  }

  /** The text of n + 1 sibling lists opens with `[[`. */
  lemma SiblingListsOpen(n: nat)
    ensures SiblingLists(n)[0] == '[' && SiblingLists(n)[1] == '['
  {
    if n > 0 {
      SiblingListAt(n, 0);
    }
  }

  /** The element loop, from the first sibling list, reads all n + 1 of them and stops at the end of the text. */
  lemma SiblingListsElements(n: nat, allowTrailingComma: bool)
    ensures ParseElements(SiblingLists(n), 1, 1, [], allowTrailingComma) == Parsed(List(Empties(n + 1)), 3 * n + 4)
  {
    SiblingElements(n, 0, 1, n, [], allowTrailingComma);
    assert [] + Empties(n + 1) == Empties(n + 1);
  }

  /** A text `[[…` whose elements, read from the inner `[`, fill the whole text is read as those elements. */
  lemma OuterListRead(s: string, allowTrailingComma: bool, v: Value)
    requires |s| >= 2 && s[0] == '[' && s[1] == '['
    requires ParseElements(s, 1, 1, [], allowTrailingComma) == Parsed(v, |s|)
    ensures Read(s, allowTrailingComma) == Some(v)
  {
    assert SkipTrivia(s, 0) == 0;
    assert Lex(s, 0) == Lexed(ArrayBegin, 1);
    assert SkipTrivia(s, 1) == 1;
    assert Lex(s, 1).token == ArrayBegin;
    assert ParseArray(s, 1, 1, allowTrailingComma) == Parsed(v, |s|);
    assert ParseValue(s, 0, 0, true, allowTrailingComma) == Parsed(v, |s|);
    assert SkipTrivia(s, |s|) == |s|;
    assert Lex(s, |s|).token.EndOfInput?;
  }

  /**
   * Allowing trailing commas only widens what is accepted: `a` is the outcome
   * without the option and `b` with it.
   */
  predicate Widens(a: Parsed<Value>, b: Parsed<Value>)
  {
    (a.Parsed? ==> b == a) && (b.Parsed? ==> b == a || (a.Failed? && a.kind == TrailingComma))
  }

  lemma {:induction false} ValueWidens(s: string, pos: nat, depth: nat, isRoot: bool)
    requires pos <= |s|
    ensures Widens(ParseValue(s, pos, depth, isRoot, false), ParseValue(s, pos, depth, isRoot, true))
    decreases |s| - pos, 0
  {
    var p := SkipTrivia(s, pos);
    if depth + 1 <= StackLimit {
      var lexed := Lex(s, p);
      if lexed.token.ArrayBegin? {
        ArrayWidens(s, lexed.end, depth + 1);
      } else if lexed.token.ObjectBegin? {
        ObjectWidens(s, lexed.end, depth + 1);
      }
    }
  }

  lemma {:induction false} ArrayWidens(s: string, q: nat, depth: nat)
    requires q <= |s|
    ensures Widens(ParseArray(s, q, depth, false), ParseArray(s, q, depth, true))
    decreases |s| - q, 2
  {
    var p := SkipTrivia(s, q);
    if !Lex(s, p).token.ArrayEnd? {
      ElementsWidens(s, p, depth, []);
    }
  }

  lemma {:induction false} ElementsWidens(s: string, p: nat, depth: nat, acc: seq<Value>)
    requires p <= |s|
    ensures Widens(ParseElements(s, p, depth, acc, false), ParseElements(s, p, depth, acc, true))
    decreases |s| - p, 1
  {
    ValueWidens(s, p, depth, false);
    match ParseValue(s, p, depth, false, false)
    case Failed(_, _) =>
    case Parsed(v, e) =>
      var p2 := SkipTrivia(s, e);
      if Lex(s, p2).token.ListSeparator? {
        var p3 := SkipTrivia(s, p2 + 1);
        if !Lex(s, p3).token.ArrayEnd? {
          ElementsWidens(s, p3, depth, acc + [v]);
        }
      }
  }

  lemma {:induction false} ObjectWidens(s: string, q: nat, depth: nat)
    requires q <= |s|
    ensures Widens(ParseObject(s, q, depth, false), ParseObject(s, q, depth, true))
    decreases |s| - q, 3
  {
    var p := SkipTrivia(s, q);
    if !Lex(s, p).token.ObjectEnd? {
      MembersWidens(s, p, depth, map[]);
    }
  }

  lemma {:induction false} MembersWidens(s: string, p: nat, depth: nat, acc: map<seq<int>, Value>)
    requires p <= |s|
    ensures Widens(ParseMembers(s, p, depth, acc, false), ParseMembers(s, p, depth, acc, true))
    decreases |s| - p, 2
  {
    var key := Lex(s, p);
    if key.token.StringToken? {
      var p1 := SkipTrivia(s, key.end);
      if Lex(s, p1).token.PairSeparator? {
        var p2 := SkipTrivia(s, p1 + 1);
        MemberValueWidens(s, p2, depth, acc, key.token.units);
        assert ParseMembers(s, p, depth, acc, false) == ParseMemberValue(s, p2, depth, acc, key.token.units, false);
        assert ParseMembers(s, p, depth, acc, true) == ParseMemberValue(s, p2, depth, acc, key.token.units, true);
      } else {
        assert ParseMembers(s, p, depth, acc, false) == ParseMembers(s, p, depth, acc, true);
      }
    } else {
      assert ParseMembers(s, p, depth, acc, false) == ParseMembers(s, p, depth, acc, true);
    }
  }

  lemma {:induction false} MemberValueWidens(s: string, p2: nat, depth: nat, acc: map<seq<int>, Value>, key: seq<int>)
    requires p2 <= |s|
    ensures Widens(ParseMemberValue(s, p2, depth, acc, key, false), ParseMemberValue(s, p2, depth, acc, key, true))
    decreases |s| - p2, 1
  {
    ValueWidens(s, p2, depth, false);
    var a := ParseValue(s, p2, depth, false, false);
    if a.Parsed? {
      assert ParseValue(s, p2, depth, false, true) == a;
      var entries := acc[key := a.value];
      var p3 := SkipTrivia(s, a.next);
      if Lex(s, p3).token.ListSeparator? {
        var p4 := SkipTrivia(s, p3 + 1);
        if !Lex(s, p4).token.ObjectEnd? {
          MembersWidens(s, p4, depth, entries);
          assert ParseMemberValue(s, p2, depth, acc, key, false) == ParseMembers(s, p4, depth, entries, false);
          assert ParseMemberValue(s, p2, depth, acc, key, true) == ParseMembers(s, p4, depth, entries, true);
        }
      }
    }
  }

  /**
   * Whatever is read without trailing commas is read the same with them
   * allowed, and what is read only with them allowed is refused without them
   * for a trailing comma.
   */
  lemma TrailingCommaWidens(s: string, checkRoot: bool)
    ensures JsonToValue(s, checkRoot, false).Ok? ==> JsonToValue(s, checkRoot, true) == JsonToValue(s, checkRoot, false)
    ensures JsonToValue(s, checkRoot, true).Ok? ==>
              JsonToValue(s, checkRoot, false) == JsonToValue(s, checkRoot, true) ||
              JsonToValue(s, checkRoot, false).error.kind == TrailingComma
  {
    ValueWidens(s, 0, 0, checkRoot);
  }

  /** Characters taken one for one as units: each unit is the character's code point, so one above U+FFFF stays a single unit. */
  function Units(t: string): (u: seq<int>)
    ensures |u| == |t| && forall k :: 0 <= k < |t| ==> u[k] == t[k] as int
  {
    seq(|t|, k requires 0 <= k < |t| => t[k] as int)
  }

  /** Distinct texts give distinct code-unit sequences, so keys never collide. */
  lemma UnitsInjective(t: string, w: string)
    ensures Units(t) == Units(w) ==> t == w
  {
    if Units(t) == Units(w) {
      forall k | 0 <= k < |t|
        ensures t[k] == w[k]
      {
        assert Units(t)[k] == Units(w)[k];
      }
    }
  }

  /** Characters other than NUL, quote and backslash are copied into a string one for one. */
  lemma {:induction false} PlainRun(s: string, start: nat, i: nat, j: nat, acc: seq<int>)
    requires start < i <= j <= |s|
    requires forall k :: i <= k < j ==> s[k] != '\0' && s[k] != '"' && s[k] != '\\'
    ensures LexString(s, start, i, acc) == LexString(s, start, j, acc + Units(s[i..j]))
    decreases j - i
  {
    if i < j {
      PlainRun(s, start, i + 1, j, acc + [s[i] as int]);
      assert acc + [s[i] as int] + Units(s[i + 1..j]) == acc + Units(s[i..j]);
    } else {
      assert acc + Units(s[i..j]) == acc;
    }
  }

  // ---------------------------------------------------------------------------
  // Writing string literals: an encoder the scanner must undo

  /** Every entry is a 16-bit code unit. */
  predicate CodeUnits(units: seq<int>)
  {
    forall k :: 0 <= k < |units| ==> 0 <= units[k] < 0x10000
  }

  /** The lower-case hexadecimal digit for `d`. */
  function HexDigit(d: nat): (c: char)
    requires d < 16
    ensures IsHexDigit(c) && HexDigitValue(c) == d
  {
    if d < 10 then ('0' as int + d) as char else ('a' as int + d - 10) as char
  }

  function Pow16(n: nat): (p: nat)
    ensures p >= 1
  {
    if n == 0 then 1 else 16 * Pow16(n - 1)
  }

  /** The `n` hexadecimal digits of `u`, most significant first. */
  function HexDigits(u: nat, n: nat): (h: string)
    requires u < Pow16(n)
    ensures |h| == n
  {
    if n == 0 then [] else HexDigits(u / 16, n - 1) + [HexDigit(u % 16)]
  }

  /**
   * A code unit as it is written inside a string literal: as its own
   * character when that character may stand there, otherwise as `\uHHHH`.
   */
  function EscapeUnit(u: int): (e: string)
    requires 0 <= u < 0x10000
    ensures |e| > 0
  {
    if 0 < u < 0xD800 && u != 34 && u != 92 then [u as char]
    else
      assert Pow16(4) == 0x10000;
      "\\u" + HexDigits(u, 4)
  }

  /** The body of a string literal spelling `units`. */
  function QuoteBody(units: seq<int>): string
    requires CodeUnits(units)
  {
    if units == [] then "" else EscapeUnit(units[0]) + QuoteBody(units[1..])
  }

  /** A string literal spelling `units`. */
  function Quote(units: seq<int>): string
    requires CodeUnits(units)
  {
    "\"" + QuoteBody(units) + "\""
  }

  /** Four hexadecimal digits written for `u` are scanned back as `u`. */
  lemma {:induction false} HexDigitsScan(s: string, i: nat, u: nat, n: nat)
    requires u < Pow16(n) && i + n <= |s| && s[i..i + n] == HexDigits(u, n)
    ensures HexRun(s, i, n) && HexNumber(s, i, n) == u
    decreases n
  {
    if n > 0 {
      var h := HexDigits(u, n);
      assert s[i..i + n - 1] == h[..n - 1];
      HexDigitsScan(s, i, u / 16, n - 1);
      assert At(s, i + n - 1) == h[n - 1] == HexDigit(u % 16);
      forall k | i <= k < i + n
        ensures IsHexDigit(At(s, k))
      {
        if k < i + n - 1 {
          assert HexRun(s, i, n - 1);
        }
      }
    }
  }

  /** The scanner reads one written code unit back and moves past it. */
  lemma UnitScan(s: string, start: nat, i: nat, acc: seq<int>, u: int)
    requires 0 <= u < 0x10000 && start < i
    requires i + |EscapeUnit(u)| < |s| && s[i..i + |EscapeUnit(u)|] == EscapeUnit(u)
    ensures LexString(s, start, i, acc) == LexString(s, start, i + |EscapeUnit(u)|, acc + [u])
  {
    var e := EscapeUnit(u);
    assert s[i] == e[0];
    if !(0 < u < 0xD800 && u != 34 && u != 92) {
      assert Pow16(4) == 0x10000;
      assert s[i + 1] == e[1] == 'u';
      assert s[i + 2..i + 6] == e[2..] == HexDigits(u, 4);
      HexDigitsScan(s, i + 2, u, 4);
    }
  }

  /** The scanner reads a written body back, whatever follows the closing quote. */
  lemma {:induction false} QuoteBodyScan(s: string, start: nat, i: nat, acc: seq<int>, units: seq<int>)
    requires CodeUnits(units) && start < i
    requires i + |QuoteBody(units)| < |s| && s[i..i + |QuoteBody(units)|] == QuoteBody(units)
    requires s[i + |QuoteBody(units)|] == '"'
    ensures LexString(s, start, i, acc) == Lexed(StringToken(acc + units), i + |QuoteBody(units)| + 1)
    decreases |units|
  {
    if units == [] {
      ClosingQuote(s, start, i, acc);
    } else {
      FirstUnitScan(s, start, i, acc, units);
      QuoteBodyScan(s, start, i + |EscapeUnit(units[0])|, acc + [units[0]], units[1..]);
      HeadThenTail(acc, units);
    }
  }

  /** Scanning a written body starts by reading its first unit back; the rest of the body follows. */
  lemma FirstUnitScan(s: string, start: nat, i: nat, acc: seq<int>, units: seq<int>)
    requires CodeUnits(units) && units != [] && start < i
    requires i + |QuoteBody(units)| < |s| && s[i..i + |QuoteBody(units)|] == QuoteBody(units)
    ensures |QuoteBody(units)| == |EscapeUnit(units[0])| + |QuoteBody(units[1..])|
    ensures s[i + |EscapeUnit(units[0])|..i + |QuoteBody(units)|] == QuoteBody(units[1..])
    ensures LexString(s, start, i, acc) == LexString(s, start, i + |EscapeUnit(units[0])|, acc + [units[0]])
  {
    FirstUnitSlices(s, i, units);
    UnitScan(s, start, i, acc, units[0]);
  }

  /** A written body, found in a text, starts with its first unit's spelling, then the rest of the body. */
  lemma FirstUnitSlices(s: string, i: nat, units: seq<int>)
    requires CodeUnits(units) && units != []
    requires i + |QuoteBody(units)| < |s| && s[i..i + |QuoteBody(units)|] == QuoteBody(units)
    ensures |QuoteBody(units)| == |EscapeUnit(units[0])| + |QuoteBody(units[1..])|
    ensures s[i..i + |EscapeUnit(units[0])|] == EscapeUnit(units[0])
    ensures s[i + |EscapeUnit(units[0])|..i + |QuoteBody(units)|] == QuoteBody(units[1..])
  {
    var e := EscapeUnit(units[0]);
    var rest := QuoteBody(units[1..]);
    assert QuoteBody(units) == e + rest;
    assert |QuoteBody(units)| == |e| + |rest|;
    SliceSplit(s, i, e, rest);
  }

  /** Appending the head of a sequence and then its tail appends the sequence. */
  lemma HeadThenTail(acc: seq<int>, units: seq<int>)
    requires units != []
    ensures acc + [units[0]] + units[1..] == acc + units
  {
    assert [units[0]] + units[1..] == units;
  }

  /** A closing quote ends the literal with what was decoded so far. */
  lemma ClosingQuote(s: string, start: nat, i: nat, acc: seq<int>)
    requires start < i < |s| && s[i] == '"'
    ensures LexString(s, start, i, acc) == Lexed(StringToken(acc), i + 1)
  {
  }

  /** A slice that spells `a + b` is a slice spelling `a` followed by one spelling `b`. */
  lemma SliceSplit(s: string, i: nat, a: string, b: string)
    requires i + |a| + |b| <= |s| && s[i..i + |a| + |b|] == a + b
    ensures s[i..i + |a|] == a && s[i + |a|..i + |a| + |b|] == b
  {
    assert s[i..i + |a|] == (a + b)[..|a|];
    assert s[i + |a|..i + |a| + |b|] == (a + b)[|a|..];
  }

  /** Any code units written as a string literal are scanned back as exactly those units. */
  lemma QuoteScans(units: seq<int>)
    requires CodeUnits(units)
    ensures Lex(Quote(units), 0) == Lexed(StringToken(units), |Quote(units)|)
  {
    var s := Quote(units);
    var body := QuoteBody(units);
    assert s[1..1 + |body|] == body;
    QuoteBodyScan(s, 0, 1, [], units);
  }

  /** A document that is one number in the grammar is read as that number. */
  lemma NumberDocument(t: string, allowTrailingComma: bool)
    requires RfcNumber(t)
    ensures JsonToValue(t, false, allowTrailingComma) == Ok(DecodeNumber(t))
  {
    RfcNumberLexes(t);
    var a: nat, b: nat, c: nat :| RfcSplit(t, a, b, c);
    assert t[a..b][0] == t[a];
    assert SkipTrivia(t, 0) == 0;
    assert SkipTrivia(t, |t|) == |t|;
  }
}
