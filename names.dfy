/** The name rules of the HTTP routes and of the username change: a user name must match
    `^[a-zA-Z][\w\d]{3,}` (src/server.js:351, 597), a room name `^[a-zA-Z][\w\d]{4,}`
    (src/server.js:609). Neither pattern ends with `$`, so only a prefix of the name is
    checked. */
module Names {

  predicate IsLetter(c: char) {
    'a' <= c <= 'z' || 'A' <= c <= 'Z'
  }

  /** The class `[\w\d]`: letters, digits and the underscore. */
  predicate IsWordChar(c: char) {
    IsLetter(c) || '0' <= c <= '9' || c == '_'
  }

  /** Every character of s from index `from` up to, excluding, `to` is a word character. */
  predicate WordRun(s: string, from: nat, to: nat)
    requires from <= to <= |s|
  {
    forall i | from <= i < to :: IsWordChar(s[i])
  }

  /** The regular expression `^[a-zA-Z][\w\d]{n,}` in its own terms: a letter at the start
      followed by a run of at least n word characters, the run ending anywhere. */
  ghost predicate PatternMatches(s: string, n: nat) {
    |s| > 0 && IsLetter(s[0]) && exists k | n + 1 <= k <= |s| :: WordRun(s, 1, k)
  }

  /** The decision the source's `test` makes: the shortest run suffices. */
  function MatchesNamePattern(s: string, n: nat): (b: bool)
    ensures b <==> PatternMatches(s, n)
  {
    var b := |s| > n && IsLetter(s[0]) && WordRun(s, 1, n + 1);
    assert PatternMatches(s, n) ==> b by {
      if PatternMatches(s, n) {
        var k :| n + 1 <= k <= |s| && WordRun(s, 1, k);
        assert forall i | 1 <= i < n + 1 :: IsWordChar(s[i]);
      }
    }
    b
  }

  function ValidUsername(s: string): bool {
    MatchesNamePattern(s, 3)
  }

  function ValidRoomName(s: string): bool {
    MatchesNamePattern(s, 4)
  }

  /** A valid name stays valid whatever is appended to it: characters after the checked
      prefix are never looked at. */
  lemma ValidNameExtends(s: string, t: string, n: nat)
    requires MatchesNamePattern(s, n)
    ensures MatchesNamePattern(s + t, n)
  {
    assert (s + t)[0] == s[0];
    assert forall i | 1 <= i < n + 1 :: (s + t)[i] == s[i];
  }

  /** A user name is at least four characters long and starts with a letter followed by
      three word characters; a room name needs one character more. */
  lemma NameShapes(s: string)
    ensures ValidUsername(s) <==> |s| >= 4 && IsLetter(s[0]) && forall i | 1 <= i < 4 :: IsWordChar(s[i])
    ensures ValidRoomName(s) <==> |s| >= 5 && IsLetter(s[0]) && forall i | 1 <= i < 5 :: IsWordChar(s[i])
    ensures ValidRoomName(s) ==> ValidUsername(s)
  {
  }

  /** The check accepts characters outside the advertised alphabet after the prefix:
      "Anna!" is a valid user name, "Ann!" is not. */
  lemma TrailingCharactersAccepted()
    ensures ValidUsername("Anna!")
    ensures !ValidUsername("Ann!")
    ensures !ValidRoomName("Anna!")
  {
    assert WordRun("Anna!", 1, 4);
    assert !IsWordChar("Ann!"[3]);
    assert !IsWordChar("Anna!"[4]);
  }

  /** A name field as a handler receives it: a text, or missing (`undefined`) or `null`. */
  datatype NameField = Text(text: string) | Undefined | Null

  /** The string `RegExp.prototype.test` checks: a missing or `null` field is converted
      to "undefined" or "null". */
  function Coerced(f: NameField): string {
    match f
    case Text(t) => t
    case Undefined => "undefined"
    case Null => "null"
  }

  /** What a handler stores: the field itself, the empty string standing for a missing or
      `null` field (no name). */
  function Stored(f: NameField): string {
    if f.Text? then f.text else ""
  }

  /** `===` between the field and a stored name, the empty name standing for an unset
      (`undefined`) one. */
  predicate SameName(f: NameField, username: string) {
    match f
    case Text(t) => username != "" && t == username
    case Undefined => username == ""
    case Null => false
  }

  /** "undefined" passes both patterns; "null" passes the user-name pattern only. */
  lemma CoercedFields()
    ensures ValidUsername(Coerced(Undefined)) && ValidRoomName(Coerced(Undefined))
    ensures ValidUsername(Coerced(Null)) && !ValidRoomName(Coerced(Null))
  {
    assert WordRun("undefined", 1, 5);
    assert WordRun("null", 1, 4);
  }
}
