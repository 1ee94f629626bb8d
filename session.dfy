/**
 * The session: the signed-in credential, the `"session"` record kept in
 * `localStorage`, the mount-time redirects that read that record, and the
 * JSON text the login page writes into it.
 */
module Session {
  import opened Wrappers

  /** The identity the server returns on login. */
  datatype Credential = Credential(id: string, username: string)

  /**
   * `localStorage.getItem("session")` yields a string or `null`, and the pages
   * test it for JavaScript truthiness: a stored empty string counts as no session.
   */
  predicate HasSession(stored: Option<string>)
  {
    stored.Some? && stored.value != ""
  }

  /** The home page's mount check: without a session record, replace the route with /login. */
  function HomeGate(stored: Option<string>): (target: Option<string>)
    ensures target.Some? <==> !HasSession(stored)
    ensures target.Some? ==> target.value == "/login"
  {
    if !HasSession(stored) then Some("/login") else None
  }

  /** The login and signup pages' mount check: with a session record, replace the route with /. */
  function GuestGate(stored: Option<string>): (target: Option<string>)
    ensures target.Some? <==> HasSession(stored)
    ensures target.Some? ==> target.value == "/"
  {
    if HasSession(stored) then Some("/") else None
  }

  /** Exactly one of the two mount checks redirects, whatever is stored. */
  lemma GatesComplementary(stored: Option<string>)
    ensures HomeGate(stored).Some? != GuestGate(stored).Some?
  {
  }

  // ---------------------------------------------------------------------
  // JSON.stringify of a credential

  function HexDigit(d: nat): (c: char)
    requires d < 16
  {
    if d < 10 then (48 + d) as char else (87 + d) as char
  }

  function HexValue(c: char): Option<nat>
  {
    if '0' <= c <= '9' then Some(c as int - 48)
    else if 'a' <= c <= 'f' then Some(c as int - 87)
    else if 'A' <= c <= 'F' then Some(c as int - 55)
    else None
  }

  /** One character inside a JSON string literal, escaped as JSON.stringify does. */
  function EscapeChar(c: char): (e: string)
    ensures 0 < |e|
  {
    var code := c as int;
    if c == '"' then ['\\', '"']
    else if c == '\\' then ['\\', '\\']
    else if code == 8 then ['\\', 'b']
    else if code == 9 then ['\\', 't']
    else if code == 10 then ['\\', 'n']
    else if code == 12 then ['\\', 'f']
    else if code == 13 then ['\\', 'r']
    else if code < 32 then ['\\', 'u', '0', '0', HexDigit(code / 16), HexDigit(code % 16)]
    else [c]
  }

  function Escape(s: string): string
  {
    if s == [] then [] else EscapeChar(s[0]) + Escape(s[1..])
  }

  const IdOpen := "{\"id\":\""
  const UsernameOpen := ",\"username\":\""

  /**
   * `JSON.stringify(credential)`, the record stored under "session" on
   * login: `{"id":"<id>","username":"<username>"}` with both strings escaped.
   */
  function Serialize(c: Credential): (json: string)
    ensures HasSession(Some(json))
  {
    IdOpen + Escape(c.id) + "\"" + UsernameOpen + Escape(c.username) + "\"" + "}"
  }

  // ---------------------------------------------------------------------
  // Reading the record back (what the user context does with JSON.parse)

  /** The character an escape sequence stands for and how many characters follow the backslash. */
  function Unescape(t: string): (r: Option<(char, nat)>)
    ensures r.Some? ==> 1 <= r.value.1 <= |t|
  {
    if |t| == 0 then None
    else if t[0] == '"' || t[0] == '\\' || t[0] == '/' then Some((t[0], 1))
    else if t[0] == 'b' then Some((8 as char, 1))
    else if t[0] == 't' then Some((9 as char, 1))
    else if t[0] == 'n' then Some((10 as char, 1))
    else if t[0] == 'f' then Some((12 as char, 1))
    else if t[0] == 'r' then Some((13 as char, 1))
    else if t[0] == 'u' && |t| >= 5 then
      match (HexValue(t[1]), HexValue(t[2]), HexValue(t[3]), HexValue(t[4]))
      case (Some(a), Some(b), Some(c), Some(d)) =>
        var code := 4096 * a + 256 * b + 16 * c + d;
        if code < 0xD800 || 0xE000 <= code then Some((code as char, 5)) else None
      case _ => None
    else None
  }

  function Prepend(c: char, r: Option<(string, string)>): Option<(string, string)>
  {
    match r
    case None => None
    case Some((text, rest)) => Some(([c] + text, rest))
  }

  /**
   * Reads the body of a JSON string literal up to its closing quote; gives
   * the decoded text and what follows the quote.
   */
  function ReadString(s: string): Option<(string, string)>
    decreases |s|
  {
    if |s| == 0 then None
    else if s[0] == '"' then Some(([], s[1..]))
    else if s[0] == '\\' then
      match Unescape(s[1..])
      case None => None
      case Some((c, n)) => Prepend(c, ReadString(s[1 + n..]))
    else if (s[0] as int) < 32 then None
    else Prepend(s[0], ReadString(s[1..]))
  }

  predicate StartsWith(s: string, prefix: string)
  {
    |prefix| <= |s| && s[..|prefix|] == prefix
  }

  /** Parses the record written by `Serialize`. */
  function ParseCredential(s: string): Option<Credential>
  {
    if !StartsWith(s, IdOpen) then None
    else
      match ReadString(s[|IdOpen|..])
      case None => None
      case Some((id, rest)) =>
        if !StartsWith(rest, UsernameOpen) then None
        else
          match ReadString(rest[|UsernameOpen|..])
          case None => None
          case Some((username, tail)) =>
            if tail == "}" then Some(Credential(id, username)) else None
  }

  lemma HexRoundTrip(d: nat)
    requires d < 16
    ensures HexValue(HexDigit(d)) == Some(d)
  {
  }

  lemma EscapeCharStep(c: char, t: string)
    ensures ReadString(EscapeChar(c) + t) == Prepend(c, ReadString(t))
  {
    var code := c as int;
    var s := EscapeChar(c) + t;
    if c == '"' || c == '\\' || code == 8 || code == 9 || code == 10 || code == 12 || code == 13 {
      assert s[1 + 1..] == t;
    } else if code < 32 {
      HexRoundTrip(code / 16);
      HexRoundTrip(code % 16);
      assert s[1..][1] == '0' && s[1..][2] == '0';
      assert Unescape(s[1..]) == Some((c, 5));
      assert s[1 + 5..] == t;
    } else {
      assert s[1..] == t;
    }
  }

  /** Decoding an escaped string stops exactly at its closing quote and gives the text back. */
  lemma {:induction false} ReadEscaped(x: string, rest: string)
    ensures ReadString(Escape(x) + "\"" + rest) == Some((x, rest))
    decreases |x|
  {
    if x == [] {
      assert Escape(x) + "\"" + rest == "\"" + rest;
    } else {
      var t := Escape(x[1..]) + "\"" + rest;
      assert Escape(x) + "\"" + rest == EscapeChar(x[0]) + t;
      EscapeCharStep(x[0], t);
      ReadEscaped(x[1..], rest);
      assert [x[0]] + x[1..] == x;
    }
  }

  lemma AfterPrefix(prefix: string, x: string)
    ensures StartsWith(prefix + x, prefix) && (prefix + x)[|prefix|..] == x
  {
    assert (prefix + x)[..|prefix|] == prefix;
  }

  /** The stored session record decodes back to exactly the credential it was written from. */
  lemma SerializeRoundTrip(c: Credential)
    ensures ParseCredential(Serialize(c)) == Some(c)
  {
    var tail := Escape(c.username) + "\"" + "}";
    var rest := UsernameOpen + tail;
    var body := Escape(c.id) + "\"" + rest;
    assert Serialize(c) == IdOpen + body;
    AfterPrefix(IdOpen, body);
    ReadEscaped(c.id, rest);
    AfterPrefix(UsernameOpen, tail);
    ReadEscaped(c.username, "}");
  }

  /** Two different credentials are never written as the same record. */
  lemma SerializeInjective(a: Credential, b: Credential)
    requires Serialize(a) == Serialize(b)
    ensures a == b
  {
    SerializeRoundTrip(a);
    SerializeRoundTrip(b);
  }
}
