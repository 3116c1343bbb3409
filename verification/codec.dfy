/**
 * The identity the session keeps, and the text it is stored as.
 *
 * The browser stores the signed-in user as `JSON.stringify(user)` and reads it
 * back with `JSON.parse`. JSON syntax is not part of this model: `Stringify`
 * and `Parse` below are a small stand-in text encoding with the three
 * properties the session relies on. Parsing what was stringified gives the
 * user back, the text "null" (which is also what `JSON.parse` makes of a
 * missing key) parses to `Null`, and parsing can fail.
 */
module Codec {
  import opened Common

  /** The identity returned by the backend: a name and an e-mail address. */
  datatype User = User(name: string, email: string)

  /** A parsed stored value: JSON `null`, or a user object. */
  datatype Json = Null | UserObject(user: User)

  /** Characters that the stand-in encoding escapes with a backslash. */
  predicate IsSpecial(c: char) {
    c == '\\' || c == ',' || c == '}'
  }

  function Escape(s: string): (e: string)
  {
    if s == [] then []
    else (if IsSpecial(s[0]) then ['\\', s[0]] else [s[0]]) + Escape(s[1..])
  }

  /**
   * Reads one escaped field of `t`, up to the first unescaped `,` or `}`.
   * On success it returns the unescaped field and the rest of the text,
   * which starts with that delimiter.
   */
  function ReadField(t: string): (r: Option<(string, string)>)
    ensures r.Some? ==> 0 < |r.value.1| <= |t|
    ensures r.Some? ==> r.value.1[0] == ',' || r.value.1[0] == '}'
    decreases |t|
  {
    if t == [] then None
    else if t[0] == ',' || t[0] == '}' then Some(([], t))
    else if t[0] == '\\' then
      if |t| < 2 then None
      else match ReadField(t[2..])
        case None => None
        case Some(p) => Some(([t[1]] + p.0, p.1))
    else
      match ReadField(t[1..])
      case None => None
      case Some(p) => Some(([t[0]] + p.0, p.1))
  }

  /** Stand-in for `JSON.stringify(user)`. */
  function Stringify(u: User): (s: string)
    ensures |s| >= 3 && s[0] == '{' && s[|s| - 1] == '}' && s != "null"
  {
    ['{'] + Escape(u.name) + [','] + Escape(u.email) + ['}']
  }

  /** Stand-in for `JSON.parse(s)`; `None` is a parse error (a thrown `SyntaxError`). */
  function Parse(s: string): (r: Option<Json>)
    ensures r == Some(Null) <==> s == "null"
    ensures r.Some? && r.value.UserObject? ==> |s| >= 3 && s[0] == '{'
  {
    if s == "null" then Some(Null)
    else if |s| > 0 && s[0] == '{' then
      match ReadField(s[1..])
      case None => None
      case Some(p) =>
        if p.1[0] != ',' then None
        else match ReadField(p.1[1..])
          case None => None
          case Some(q) =>
            if q.1 == "}" then Some(UserObject(User(p.0, q.0))) else None
    else None
  }

  /** An escape pair in front of a readable field adds its character to the field. */
  lemma ReadFieldEscapedChar(c: char, tail: string, field: string, rest: string)
    requires ReadField(tail) == Some((field, rest))
    ensures ReadField(['\\', c] + tail) == Some(([c] + field, rest))
  {
    assert (['\\', c] + tail)[2..] == tail;
  }

  /** An ordinary character in front of a readable field adds itself to the field. */
  lemma ReadFieldPlainChar(c: char, tail: string, field: string, rest: string)
    requires !IsSpecial(c) && ReadField(tail) == Some((field, rest))
    ensures ReadField([c] + tail) == Some(([c] + field, rest))
  {
    assert ([c] + tail)[1..] == tail;
  }

  /** The escaped text of a non-empty field followed by `rest`, one character unfolded. */
  lemma EscapeFirst(s: string, rest: string)
    requires s != []
    ensures Escape(s) + rest == (if IsSpecial(s[0]) then ['\\', s[0]] else [s[0]]) + (Escape(s[1..]) + rest)
  {
  }

  /** Reading an escaped field stops exactly at the delimiter that follows it. */
  lemma {:induction false} ReadEscaped(s: string, rest: string)
    requires |rest| > 0 && (rest[0] == ',' || rest[0] == '}')
    ensures ReadField(Escape(s) + rest) == Some((s, rest))
  {
    if s == [] {
      assert Escape(s) + rest == rest;
    } else {
      ReadEscaped(s[1..], rest);
      EscapeFirst(s, rest);
      if IsSpecial(s[0]) {
        ReadFieldEscapedChar(s[0], Escape(s[1..]) + rest, s[1..], rest);
      } else {
        ReadFieldPlainChar(s[0], Escape(s[1..]) + rest, s[1..], rest);
      }
      assert [s[0]] + s[1..] == s;
    }
  }

  /** `Parse` accepts an opening brace followed by two fields that end in `,` and `}`. */
  lemma ParseFields(s: string, name: string, rest: string, email: string)
    requires |s| > 0 && s[0] == '{' && ReadField(s[1..]) == Some((name, rest))
    requires rest[0] == ',' && ReadField(rest[1..]) == Some((email, "}"))
    ensures Parse(s) == Some(UserObject(User(name, email)))
  {
    assert s != "null";
  }

  /** Parsing what was stringified gives the same user back. */
  lemma {:induction false} ParseStringify(u: User)
    ensures Parse(Stringify(u)) == Some(UserObject(u))
  {
    var emailPart := Escape(u.email) + ['}'];
    var rest := [','] + emailPart;
    ReadEscaped(u.name, rest);
    ReadEscaped(u.email, ['}']);
    var s := Stringify(u);
    assert s[1..] == Escape(u.name) + rest;
    assert rest[1..] == emailPart;
    ParseFields(s, u.name, rest, u.email);
  }

  /** Decoding can fail: text that is neither "null" nor an encoded user is rejected. */
  lemma ParseRejectsGarbage()
    ensures Parse("") == None
    ensures Parse("{x") == None
  {
  }
}
