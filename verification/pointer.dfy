/** JSON pointers in reference fragments: how a local reference names a place in a document. */
module Pointers {
  import opened Text
  import opened Json

  type Path = seq<string>

  /** Percent-decoding of a fragment. */
  type Decoder = string -> string

  /** Text without a percent sign in front of a fragment stays as it is. */
  ghost predicate Decodes(decode: Decoder) {
    && decode("") == ""
    && forall plain, rest {:trigger decode(plain + rest)} :: '%' !in plain ==>
              decode(plain + rest) == plain + decode(rest)
  }

  // ------------------------------------------------------------------- syntax

  /** The pieces between slashes; there is always at least one. */
  function Split(text: string): (r: seq<string>)
    ensures r != []
  {
    if text == "" then [""] else
      var rest := Split(text[1..]);
      if text[0] == '/' then [""] + rest else [[text[0]] + rest[0]] + rest[1..]
  }

  /** `~1` stands for a slash and `~0` for a tilde. */
  function Unescape(token: string): string {
    if token == "" then ""
    else if |token| > 1 && token[0] == '~' && token[1] == '1' then "/" + Unescape(token[2..])
    else if |token| > 1 && token[0] == '~' && token[1] == '0' then "~" + Unescape(token[2..])
    else [token[0]] + Unescape(token[1..])
  }

  function Tokens(text: string): (r: Path)
    ensures r != []
  {
    var pieces := Split(text);
    seq(|pieces|, i requires 0 <= i < |pieces| => Unescape(pieces[i]))
  }

  /** The path a reference names in its own document, when it is a pointer fragment. */
  function Pointer(decode: Decoder, reference: string): Option<Path> {
    if reference == "" || reference[0] != '#' then None else
      var text := decode(reference[1..]);
      if text == "" then Some([])
      else if text[0] == '/' then Some(Tokens(text[1..]))
      else None
  }

  lemma {:induction false} SplitPlain(plain: string, text: string)
    requires '/' !in plain
    ensures Split(plain + text) == [plain + Split(text)[0]] + Split(text)[1..]
  {
    if plain == "" {
      assert plain + text == text && plain + Split(text)[0] == Split(text)[0];
      assert Split(text) == [Split(text)[0]] + Split(text)[1..];
    } else {
      assert (plain + text)[1..] == plain[1..] + text;
      SplitPlain(plain[1..], text);
      assert plain + Split(text)[0] == [plain[0]] + (plain[1..] + Split(text)[0]);
    }
  }

  lemma SplitSlash(plain: string, text: string)
    requires '/' !in plain
    ensures Split(plain + ("/" + text)) == [plain] + Split(text)
  {
    SplitPlain(plain, "/" + text);
    assert ("/" + text)[1..] == text;
    assert plain + "" == plain;
  }

  lemma {:induction false} UnescapePlain(plain: string, token: string)
    requires '~' !in plain
    ensures Unescape(plain + token) == plain + Unescape(token)
  {
    if plain == "" {
      assert plain + token == token;
    } else {
      assert (plain + token)[1..] == plain[1..] + token;
      UnescapePlain(plain[1..], token);
    }
  }

  lemma UnescapeSame(plain: string)
    requires '~' !in plain
    ensures Unescape(plain) == plain
  {
    UnescapePlain(plain, "");
    assert plain + "" == plain;
  }

  lemma TokensPlain(plain: string, text: string)
    requires '/' !in plain && '~' !in plain
    ensures Tokens(plain + text) == [plain + Tokens(text)[0]] + Tokens(text)[1..]
  {
    SplitPlain(plain, text);
    UnescapePlain(plain, Split(text)[0]);
  }

  lemma TokensSlash(plain: string, text: string)
    requires '/' !in plain && '~' !in plain
    ensures Tokens(plain + ("/" + text)) == [plain] + Tokens(text)
  {
    SplitSlash(plain, text);
    UnescapeSame(plain);
  }

  /** A plain prefix of a definition name prefixes the name the pointer reads. */
  lemma DefinitionPointer(decode: Decoder, plain: string, raw: string)
    requires Decodes(decode) && '/' !in plain && '~' !in plain && '%' !in plain
    ensures var tokens := Tokens(decode(raw));
      Pointer(decode, "#/$defs/" + (plain + raw)) == Some(["$defs", plain + tokens[0]] + tokens[1..])
  {
    var reference, lead := "#/$defs/" + (plain + raw), "/$defs/" + plain;
    assert reference[1..] == lead + raw;
    assert decode(lead + raw) == lead + decode(raw);
    var text := lead + decode(raw);
    assert text[1..] == "$defs" + ("/" + (plain + decode(raw)));
    TokensSlash("$defs", plain + decode(raw));
    TokensPlain(plain, decode(raw));
    var tokens := Tokens(decode(raw));
    assert ["$defs"] + ([plain + tokens[0]] + tokens[1..]) == ["$defs", plain + tokens[0]] + tokens[1..];
  }

  // --------------------------------------------------------------- evaluation

  /** The array position a token names, if it is below the length. */
  function Position(token: string, length: nat): (r: Option<nat>)
    ensures r.Some? ==> r.value < length && NatString(r.value) == token
  {
    if length == 0 then None
    else if NatString(length - 1) == token then Some(length - 1)
    else Position(token, length - 1)
  }

  function At(v: Value, path: Path): Option<Value> {
    if path == [] then Some(v) else
      match v
      case Object(fields) => if path[0] in fields then At(fields[path[0]], path[1..]) else None
      case Array(items) =>
        var position := Position(path[0], |items|);
        if position.Some? then At(items[position.value], path[1..]) else None
      case _ => None
  }

  /** The schema at a path; only objects and booleans are schemas. */
  function Resolve(v: Value, path: Path): Option<Value> {
    match At(v, path)
    case Some(found) => if found.Object? || found.Bool? then Some(found) else None
    case None => None
  }
}
