/** Value and string helpers shared by the handlers: optional fields and
  * JavaScript truthiness, ASCII lower-casing, prefix and substring tests,
  * and the character classes used by the input patterns. */
module Text {

  datatype Option<T> = None | Some(value: T)

  /** The result of a call into the hosted service: a value or an error message. */
  datatype Result<T> = Ok(value: T) | Err(message: string)

  /** JavaScript truthiness of an optional text field: present and not "". */
  predicate Truthy(f: Option<string>)
  {
    f.Some? && f.value != ""
  }

  /** `f || fallback` on an optional text field. */
  function Or(f: Option<string>, fallback: string): string
  {
    if Truthy(f) then f.value else fallback
  }

  /** `f || null`: a missing or empty field becomes null. */
  function OrNull(f: Option<string>): Option<string>
  {
    if Truthy(f) then f else None
  }

  /** `toLowerCase` restricted to ASCII letters. */
  function LowerChar(c: char): char
  {
    if 'A' <= c <= 'Z' then (c as int + 32) as char else c
  }

  function Lower(s: string): string
  {
    seq(|s|, i requires 0 <= i < |s| => LowerChar(s[i]))
  }

  /** `s.startsWith(prefix)`. */
  predicate StartsWith(s: string, prefix: string)
  {
    |prefix| <= |s| && s[..|prefix|] == prefix
  }

  /** `s.includes(sub)`: `sub` occurs at some position of `s`. */
  predicate Contains(s: string, sub: string)
    decreases |s|
  {
    StartsWith(s, sub) || (s != [] && Contains(s[1..], sub))
  }

  /** The empty string occurs in every string, so a guard that keeps
    * everything on an empty search term agrees with `includes`. */
  lemma ContainsEmpty(s: string)
    ensures Contains(s, "")
  {
  }

  /** `sub` occurs in `s` starting at index `i`. */
  predicate OccursAt(s: string, sub: string, i: int)
  {
    0 <= i && i + |sub| <= |s| && s[i..i + |sub|] == sub
  }

  /** `Contains` is exactly "occurs at some index". */
  lemma {:induction false} ContainsAt(s: string, sub: string)
    ensures Contains(s, sub) <==> exists i :: OccursAt(s, sub, i)
    decreases |s|
  {
    if StartsWith(s, sub) {
      assert OccursAt(s, sub, 0);
    } else if s != [] {
      ContainsAt(s[1..], sub);
      if Contains(s[1..], sub) {
        var i :| OccursAt(s[1..], sub, i);
        assert s[1..][i..i + |sub|] == s[i + 1..i + 1 + |sub|];
        assert OccursAt(s, sub, i + 1);
      }
      if exists i :: OccursAt(s, sub, i) {
        var i :| OccursAt(s, sub, i);
        assert i != 0;
        assert s[1..][i - 1..i - 1 + |sub|] == s[i..i + |sub|];
        assert OccursAt(s[1..], sub, i - 1);
      }
    }
  }

  /** How `Array.prototype.slice` and `splice` read an index into a list of
    * length `len`: a negative index counts from the end, and both ends clamp. */
  function RelativeIndex(k: int, len: nat): (r: nat)
    ensures r <= len
  {
    if k < 0 then (if len + k < 0 then 0 else len + k)
    else if k < len then k else len
  }

  predicate IsDigit(c: char)
  {
    '0' <= c <= '9'
  }

  /** The characters of the regular-expression class `\s`: the ECMAScript
    * white-space and line-terminator characters. */
  predicate IsSpace(c: char)
  {
    c == '\t' || c == '\n' || c == '\U{B}' || c == '\U{C}' || c == '\r' || c == ' '
    || c == '\U{A0}' || c == '\U{1680}' || ('\U{2000}' <= c <= '\U{200A}')
    || c == '\U{2028}' || c == '\U{2029}' || c == '\U{202F}' || c == '\U{205F}'
    || c == '\U{3000}' || c == '\U{FEFF}'
  }
}

/** The reply of an HTTP route handler: a status code and a JSON body. */
module Http {

  datatype Reply<B> = Reply(status: int, body: B)

  /** `error.message || fallback` in a handler's catch block. */
  function CaughtMessage(message: string, fallback: string): string
  {
    if message != "" then message else fallback
  }
}
