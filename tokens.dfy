/** Tokens as the lexer produces them and the parser consumes them (interpreter.py, class Token). */
module Tokens {
  import opened Wrappers

  datatype TokenKind =
    | Var | Function | Print | If | Else | For | While | Return | In | True | False
    | Identifier | Number | String
    | Plus | Minus | Multiply | Divide | Modulo
    | Equal | Assign | NotEqual | Not | LessEqual | Less | GreaterEqual | Greater
    | LParen | RParen | LBrace | RBrace | LBracket | RBracket | Comma | Colon | Dot
    | EOF

  /** A token: its kind, its text (the decoded value for strings) and the line where it starts. */
  datatype Token = Token(kind: TokenKind, text: string, line: nat)

  /** The keyword table: exact spellings that get their own kind. */
  const Keywords: map<string, TokenKind> := map[
    "var" := Var, "function" := Function, "print" := Print, "if" := If,
    "else" := Else, "for" := For, "while" := While, "return" := Return,
    "in" := In, "True" := True, "False" := False]

  /** The kind of a word read as an identifier: its keyword kind, or Identifier. */
  function WordKind(word: string): (k: TokenKind)
    ensures k != Identifier <==> word in Keywords
    ensures word in Keywords ==> k == Keywords[word]
  {
    if word in Keywords then Keywords[word] else Identifier
  }

  lemma AndOrAreIdentifiers()
    ensures WordKind("and") == Identifier && WordKind("or") == Identifier
  {
  }

  /** The name the interpreter uses for a kind in its error messages. */
  function KindName(k: TokenKind): string
  {
    match k
    case Var => "VAR" case Function => "FUNCTION" case Print => "PRINT" case If => "IF"
    case Else => "ELSE" case For => "FOR" case While => "WHILE" case Return => "RETURN"
    case In => "IN" case True => "TRUE" case False => "FALSE"
    case Identifier => "IDENTIFIER" case Number => "NUMBER" case String => "STRING"
    case Plus => "PLUS" case Minus => "MINUS" case Multiply => "MULTIPLY"
    case Divide => "DIVIDE" case Modulo => "MODULO"
    case Equal => "EQUAL" case Assign => "ASSIGN" case NotEqual => "NOT_EQUAL" case Not => "NOT"
    case LessEqual => "LESS_EQUAL" case Less => "LESS"
    case GreaterEqual => "GREATER_EQUAL" case Greater => "GREATER"
    case LParen => "LPAREN" case RParen => "RPAREN" case LBrace => "LBRACE" case RBrace => "RBRACE"
    case LBracket => "LBRACKET" case RBracket => "RBRACKET" case Comma => "COMMA"
    case Colon => "COLON" case Dot => "DOT" case EOF => "EOF"
  }
}
