/** The grammar of JSON text (RFC 8259, sections 2 to 7), as trees that keep their whitespace and escapes. */
module JsonText {

  /** One character of a string: itself, a two-character escape, or four hexadecimal digits. */
  datatype Piece = Plain(c: char) | Escape(c: char) | Unicode(hex: string)

  type Text = seq<Piece>

  datatype Tree =
    | Bare(name: string)                       // a number, true, false or null
    | Quoted(text: Text)
    | Array(blank: string, elements: Elements)
    | Object(blank: string, members: Members)

  datatype Elements =
    | NoElement
    | Element(before: string, value: Tree, after: string, rest: Elements)

  datatype Members =
    | NoMember
    | Member(before: string, key: Text, afterKey: string, beforeValue: string, value: Tree, after: string, rest: Members)

  predicate Blank(s: string) {
    forall c :: c in s ==> c == ' ' || c == '\t' || c == '\n' || c == '\r'
  }

  predicate Hex(c: char) {
    '0' <= c <= '9' || 'a' <= c <= 'f' || 'A' <= c <= 'F'
  }

  predicate ValidPiece(p: Piece) {
    match p
    case Plain(c) => c >= ' ' && c != '"' && c != '\\'
    case Escape(c) => c in "\"\\/bfnrt"
    case Unicode(hex) => |hex| == 4 && forall c :: c in hex ==> Hex(c)
  }

  predicate ValidText(t: Text) {
    forall p :: p in t ==> ValidPiece(p)
  }

  /** The characters that numbers and the three literal names are made of. */
  predicate BareChar(c: char) {
    '0' <= c <= '9' || 'a' <= c <= 'z' || c == 'E' || c == '+' || c == '-' || c == '.'
  }

  predicate Valid(t: Tree) {
    match t
    case Bare(s) => forall c :: c in s ==> BareChar(c)
    case Quoted(text) => ValidText(text)
    case Array(blank, elements) => Blank(blank) && ValidElements(elements)
    case Object(blank, members) => Blank(blank) && ValidMembers(members)
  }

  predicate ValidElements(e: Elements) {
    e.Element? ==> Blank(e.before) && Valid(e.value) && Blank(e.after) && ValidElements(e.rest)
  }

  predicate ValidMembers(m: Members) {
    m.Member? ==>
      Blank(m.before) && ValidText(m.key) && Blank(m.afterKey) && Blank(m.beforeValue) && Valid(m.value)
      && Blank(m.after) && ValidMembers(m.rest)
  }

  // ---- printing -------------------------------------------------------------

  function PrintPiece(p: Piece): string {
    match p
    case Plain(c) => [c]
    case Escape(c) => ['\\', c]
    case Unicode(hex) => "\\u" + hex
  }

  function PrintText(t: Text): string {
    if t == [] then "" else PrintPiece(t[0]) + PrintText(t[1..])
  }

  function PrintQuoted(t: Text): string {
    "\"" + (PrintText(t) + "\"")
  }

  function Print(t: Tree): string {
    match t
    case Bare(s) => s
    case Quoted(text) => PrintQuoted(text)
    case Array(blank, elements) => "[" + (blank + (PrintElements(elements) + "]"))
    case Object(blank, members) => "{" + (blank + (PrintMembers(members) + "}"))
  }

  function PrintElements(e: Elements): string {
    if e.NoElement? then ""
    else e.before + (Print(e.value) + (e.after + ((if e.rest.NoElement? then "" else ",") + PrintElements(e.rest))))
  }

  function PrintMembers(m: Members): string {
    if m.NoMember? then ""
    else
      m.before + (PrintQuoted(m.key) + (m.afterKey + (":" + (m.beforeValue + (Print(m.value)
      + (m.after + ((if m.rest.NoMember? then "" else ",") + PrintMembers(m.rest))))))))
  }
}
