/** The template tree that the parser hands to the compiler, and the questions
    the compiler asks about its nodes. */
module HandlebarsAst {

  /** A path such as `../person.name` or `@index`; `original` is its source text. */
  datatype Path = Path(original: string, parts: seq<string>, depth: nat, data: bool)

  datatype Literal = TextLiteral(text: string) | NumberLiteral(number: int) | BooleanLiteral(flag: bool)
                   | UndefinedLiteral | NullLiteral

  datatype Expr = PathExpression(path: Path)
                | LiteralExpression(literal: Literal)
                | SubExpression(call: Call)

  /** What mustaches, blocks and sub-expressions share. */
  datatype Call = Call(path: Path, args: Args)

  /** No hash is an empty `hash`. */
  datatype Args = Args(params: seq<Expr>, hash: seq<Pair>)

  datatype Pair = Pair(key: string, value: Expr)

  datatype PartialName = StaticName(name: string) | DynamicName(expr: Call)

  datatype Statement =
    | ContentStatement(value: string)
    | CommentStatement
    | MustacheStatement(call: Call, escaped: bool)
    | BlockStatement(call: Call, program: Child, inverse: Child)
    | PartialStatement(name: PartialName, args: Args, indent: string, block: Child)
    | DecoratorStatement(call: Call, block: Child)

  /** An optional nested program. */
  datatype Child = Absent | Present(program: Program)

  datatype Program = Program(body: seq<Statement>, blockParams: seq<string>)

  predicate IsWordChar(c: char) {
    'a' <= c <= 'z' || 'A' <= c <= 'Z' || '0' <= c <= '9' || c == '_'
  }

  predicate WordEndThis(text: string, i: nat)
    requires i + 4 <= |text|
  {
    text[i..i + 4] == "this" && (i + 4 == |text| || !IsWordChar(text[i + 4]))
  }

  /** The text starts with a dot, or holds the word end `this`. */
  predicate ScopedId(path: Path) {
    var o := path.original;
    || (|o| > 0 && o[0] == '.')
    || exists i :: 0 <= i <= |o| - 4 && WordEndThis(o, i)
  }

  predicate SimpleId(path: Path) {
    |path.parts| == 1 && !ScopedId(path) && path.depth == 0
  }

  predicate HelperExpression(call: Call, isSubExpression: bool) {
    isSubExpression || |call.args.params| > 0 || |call.args.hash| > 0
  }
}
