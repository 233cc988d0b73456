/**
 * References inside one document: a URI fragment that holds a JSON Pointer, after
 * sections 3, 4 and 6 of RFC 6901. Escapes stand for ASCII characters only.
 */
module JsonPointers {
  import opened Basics

  function HexValue(c: char): Option<nat> {
    if '0' <= c <= '9' then Some(c as nat - '0' as nat)
    else if 'A' <= c <= 'F' then Some(c as nat - 'A' as nat + 10)
    else if 'a' <= c <= 'f' then Some(c as nat - 'a' as nat + 10)
    else None
  }

  /** One character in front of what may have failed. */
  function Before(c: char, rest: Option<string>): Option<string> {
    if rest.None? then None else Some([c] + rest.value)
  }

  /** A fragment without its percent escapes. */
  function PercentDecoded(s: string): Option<string> {
    if s == "" then Some("")
    else if s[0] != '%' then Before(s[0], PercentDecoded(s[1..]))
    else if |s| < 3 || HexValue(s[1]).None? || HexValue(s[2]).None? then None
    else
      var code := HexValue(s[1]).value * 16 + HexValue(s[2]).value;
      if code >= 128 then None else Before(code as char, PercentDecoded(s[3..]))
  }

  /** The tokens between slashes. */
  function Tokens(s: string): (tokens: seq<string>)
    ensures tokens != []
  {
    if s == "" then [""]
    else
      var rest := Tokens(s[1..]);
      if s[0] == '/' then [""] + rest else [[s[0]] + rest[0]] + rest[1..]
  }

  /** `~1` is a slash and `~0` a tilde; no other tilde is allowed. */
  function Unescaped(token: string): Option<string> {
    if token == "" then Some("")
    else if token[0] != '~' then Before(token[0], Unescaped(token[1..]))
    else if |token| > 1 && token[1] == '0' then Before('~', Unescaped(token[2..]))
    else if |token| > 1 && token[1] == '1' then Before('/', Unescaped(token[2..]))
    else None
  }

  function AllUnescaped(tokens: seq<string>): Option<seq<string>> {
    if tokens == [] then Some([])
    else
      var first, rest := Unescaped(tokens[0]), AllUnescaped(tokens[1..]);
      if first.None? || rest.None? then None else Some([first.value] + rest.value)
  }

  /** A reference into the document it stands in. */
  predicate Local(ref: string) {
    ref == "" || ref[0] == '#'
  }

  /** The keys a local reference leads through; none for a reference to the document itself. */
  function PathOf(ref: string): Option<seq<string>> {
    if !Local(ref) then None
    else
      var pointer := if ref == "" then Some("") else PercentDecoded(ref[1..]);
      if pointer.None? then None
      else if pointer.value == "" then Some([])
      else if pointer.value[0] == '/' then AllUnescaped(Tokens(pointer.value[1..]))
      else None
  }

  // ---- How a path is written ----

  function PercentEncoded(s: string): string {
    if s == "" then "" else (if s[0] == '%' then "%25" else [s[0]]) + PercentEncoded(s[1..])
  }

  function Escaped(token: string): string {
    if token == "" then ""
    else (if token[0] == '~' then "~0" else if token[0] == '/' then "~1" else [token[0]]) + Escaped(token[1..])
  }

  function Joined(path: seq<string>): string
    requires path != []
  {
    if |path| == 1 then Escaped(path[0]) else Escaped(path[0]) + "/" + Joined(path[1..])
  }

  function Slashed(path: seq<string>): string {
    if path == [] then "" else "/" + Joined(path)
  }

  function Written(path: seq<string>): string {
    "#" + PercentEncoded(Slashed(path))
  }

  /** A name that needs no escape. */
  predicate PlainName(name: string) {
    forall i :: 0 <= i < |name| ==> name[i] !in "/~%"
  }

  lemma {:induction false} EscapesNothing(token: string)
    requires PlainName(token)
    ensures Escaped(token) == token
  {
    if token != "" {
      assert [token[0]] + token[1..] == token;
      EscapesNothing(token[1..]);
    }
  }

  lemma {:induction false} EncodesNothing(s: string)
    requires '%' !in s
    ensures PercentEncoded(s) == s
  {
    if s != "" {
      assert [s[0]] + s[1..] == s;
      EncodesNothing(s[1..]);
    }
  }

  lemma JoinedTwo(first: string, second: string)
    ensures Joined([first, second]) == Escaped(first) + "/" + Escaped(second)
  {
    assert [first, second][1..] == [second];
  }

  lemma SpelledTwo(a: string, b: string)
    ensures "#" + ("/" + (a + "/" + b)) == "#/" + a + "/" + b
  {
    assert "#" + "/" == "#/";
  }

  lemma WrittenTwo(first: string, second: string)
    requires '%' !in Escaped(first) && '%' !in Escaped(second)
    ensures Written([first, second]) == "#/" + Escaped(first) + "/" + Escaped(second)
  {
    var pointer := "/" + (Escaped(first) + "/" + Escaped(second));
    JoinedTwo(first, second);
    assert Slashed([first, second]) == pointer;
    EncodesNothing(pointer);
    SpelledTwo(Escaped(first), Escaped(second));
  }

  /** Plain names are written as they are. */
  lemma WrittenPlain(first: string, second: string)
    requires PlainName(first) && PlainName(second)
    ensures Written([first, second]) == "#/" + first + "/" + second
  {
    EscapesNothing(first);
    EscapesNothing(second);
    WrittenTwo(first, second);
  }

  lemma {:induction false} DecodesEncoded(s: string)
    ensures PercentDecoded(PercentEncoded(s)) == Some(s)
  {
    if s != "" {
      DecodesEncoded(s[1..]);
      var rest := PercentEncoded(s[1..]);
      if s[0] == '%' {
        assert PercentEncoded(s) == "%25" + rest;
        assert ("%25" + rest)[3..] == rest;
        assert HexValue('2') == Some(2) && HexValue('5') == Some(5) && 37 as char == '%';
      } else {
        assert ([s[0]] + rest)[1..] == rest;
      }
      assert [s[0]] + s[1..] == s;
    }
  }

  lemma {:induction false} UnescapesEscaped(token: string)
    ensures Unescaped(Escaped(token)) == Some(token)
  {
    if token != "" {
      UnescapesEscaped(token[1..]);
      var rest := Escaped(token[1..]);
      if token[0] == '~' {
        assert ("~0" + rest)[2..] == rest;
      } else if token[0] == '/' {
        assert ("~1" + rest)[2..] == rest;
      } else {
        assert ([token[0]] + rest)[1..] == rest;
      }
      assert [token[0]] + token[1..] == token;
    }
  }

  lemma {:induction false} NoSlashEscaped(token: string)
    ensures '/' !in Escaped(token)
  {
    if token != "" {
      NoSlashEscaped(token[1..]);
    }
  }

  /** A token ends at its slash, or with the pointer. */
  lemma {:induction false} FirstToken(token: string, rest: string)
    requires '/' !in token
    ensures Tokens(token) == [token]
    ensures Tokens(token + "/" + rest) == [token] + Tokens(rest)
  {
    if token == "" {
      assert ("" + "/" + rest)[1..] == rest;
    } else {
      FirstToken(token[1..], rest);
      assert (token + "/" + rest)[1..] == token[1..] + "/" + rest;
      assert [token[0]] + token[1..] == token;
    }
  }

  lemma UnescapesFirst(token: string, key: string, tokens: seq<string>, keys: seq<string>)
    requires Unescaped(token) == Some(key) && AllUnescaped(tokens) == Some(keys)
    ensures AllUnescaped([token] + tokens) == Some([key] + keys)
  {
    assert ([token] + tokens)[1..] == tokens;
  }

  lemma {:induction false} ReadsJoined(path: seq<string>)
    requires path != []
    ensures AllUnescaped(Tokens(Joined(path))) == Some(path)
  {
    var token, rest := Escaped(path[0]), path[1..];
    NoSlashEscaped(path[0]);
    UnescapesEscaped(path[0]);
    assert [path[0]] + rest == path;
    if rest == [] {
      FirstToken(token, "");
      assert [token] + [] == [token];
      UnescapesFirst(token, path[0], [], []);
    } else {
      ReadsJoined(rest);
      FirstToken(token, Joined(rest));
      UnescapesFirst(token, path[0], Tokens(Joined(rest)), rest);
    }
  }

  /** Every path can be written, and reads back. */
  lemma RoundTrip(path: seq<string>)
    ensures PathOf(Written(path)) == Some(path)
  {
    var pointer, ref := Slashed(path), Written(path);
    DecodesEncoded(pointer);
    assert ref[1..] == PercentEncoded(pointer) && ref[0] == '#' && ref != "";
    if path != [] {
      ReadsJoined(path);
      assert pointer[1..] == Joined(path);
    }
  }
}
